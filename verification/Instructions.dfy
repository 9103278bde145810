/** The instruction table and the classification of instructions that the
    optimiser relies on. Opcodes are their byte values. */
module Instructions {
  import opened Words

  type Opcode = op: int | 0 <= op < 256

  const STOP: Opcode := 0x00
  const ADD: Opcode := 0x01
  const MUL: Opcode := 0x02
  const SUB: Opcode := 0x03
  const DIV: Opcode := 0x04
  const SDIV: Opcode := 0x05
  const MOD: Opcode := 0x06
  const SMOD: Opcode := 0x07
  const ADDMOD: Opcode := 0x08
  const MULMOD: Opcode := 0x09
  const EXP: Opcode := 0x0a
  const SIGNEXTEND: Opcode := 0x0b
  const LT: Opcode := 0x10
  const GT: Opcode := 0x11
  const SLT: Opcode := 0x12
  const SGT: Opcode := 0x13
  const EQ: Opcode := 0x14
  const ISZERO: Opcode := 0x15
  const AND: Opcode := 0x16
  const OR: Opcode := 0x17
  const XOR: Opcode := 0x18
  const NOT: Opcode := 0x19
  const BYTE: Opcode := 0x1a
  const SHL: Opcode := 0x1b
  const SHR: Opcode := 0x1c
  const SAR: Opcode := 0x1d
  const KECCAK256: Opcode := 0x20
  const ADDRESS: Opcode := 0x30
  const BALANCE: Opcode := 0x31
  const ORIGIN: Opcode := 0x32
  const CALLER: Opcode := 0x33
  const CALLDATALOAD: Opcode := 0x35
  const CALLDATACOPY: Opcode := 0x37
  const CODECOPY: Opcode := 0x39
  const EXTCODESIZE: Opcode := 0x3b
  const EXTCODECOPY: Opcode := 0x3c
  const RETURNDATASIZE: Opcode := 0x3d
  const RETURNDATACOPY: Opcode := 0x3e
  const EXTCODEHASH: Opcode := 0x3f
  const BLOCKHASH: Opcode := 0x40
  const COINBASE: Opcode := 0x41
  const GASLIMIT: Opcode := 0x45
  const POP: Opcode := 0x50
  const MLOAD: Opcode := 0x51
  const MSTORE: Opcode := 0x52
  const MSTORE8: Opcode := 0x53
  const SLOAD: Opcode := 0x54
  const SSTORE: Opcode := 0x55
  const JUMP: Opcode := 0x56
  const JUMPI: Opcode := 0x57
  const PC: Opcode := 0x58
  const MSIZE: Opcode := 0x59
  const GAS: Opcode := 0x5a
  const JUMPDEST: Opcode := 0x5b
  const PUSH1: Opcode := 0x60
  const PUSH20: Opcode := 0x73
  const PUSH32: Opcode := 0x7f
  const DUP1: Opcode := 0x80
  const DUP2: Opcode := 0x81
  const DUP4: Opcode := 0x83
  const DUP16: Opcode := 0x8f
  const SWAP1: Opcode := 0x90
  const SWAP2: Opcode := 0x91
  const SWAP16: Opcode := 0x9f
  const LOG0: Opcode := 0xa0
  const LOG4: Opcode := 0xa4
  const CREATE: Opcode := 0xf0
  const CALL: Opcode := 0xf1
  const CALLCODE: Opcode := 0xf2
  const RETURN: Opcode := 0xf3
  const DELEGATECALL: Opcode := 0xf4
  const CREATE2: Opcode := 0xf5
  const STATICCALL: Opcode := 0xfa
  const REVERT: Opcode := 0xfd
  const INVALID: Opcode := 0xfe
  const SELFDESTRUCT: Opcode := 0xff

  predicate IsPush(op: Opcode) { PUSH1 <= op <= PUSH32 }
  predicate IsDup(op: Opcode) { DUP1 <= op <= DUP16 }
  predicate IsSwap(op: Opcode) { SWAP1 <= op <= SWAP16 }
  predicate IsLog(op: Opcode) { LOG0 <= op <= LOG4 }

  /** One row of the instruction table: bytes of immediate data, stack arguments,
      stack results, and whether the instruction acts on anything but the stack. */
  datatype Info = Info(additional: nat, args: nat, ret: nat, sideEffects: bool)

  function InfoOf(op: Opcode): Info {
    if op == STOP || op == INVALID || op == JUMPDEST then Info(0, 0, 0, true)
    else if op == ADDMOD || op == MULMOD then Info(0, 3, 1, false)
    else if ADD <= op <= SIGNEXTEND then Info(0, 2, 1, false)
    else if op == ISZERO || op == NOT then Info(0, 1, 1, false)
    else if LT <= op <= SAR then Info(0, 2, 1, false)
    else if op == KECCAK256 then Info(0, 2, 1, true)
    else if op == CALLDATACOPY || op == CODECOPY || op == RETURNDATACOPY then Info(0, 3, 0, true)
    else if op == EXTCODECOPY then Info(0, 4, 0, true)
    else if op == BALANCE || op == CALLDATALOAD || op == EXTCODESIZE || op == EXTCODEHASH || op == BLOCKHASH then Info(0, 1, 1, false)
    else if ADDRESS <= op <= GASLIMIT then Info(0, 0, 1, false)
    else if op == POP then Info(0, 1, 0, false)
    else if op == MLOAD then Info(0, 1, 1, true)
    else if op == SLOAD then Info(0, 1, 1, false)
    else if op == MSTORE || op == MSTORE8 || op == SSTORE || op == JUMPI then Info(0, 2, 0, true)
    else if op == JUMP || op == SELFDESTRUCT then Info(0, 1, 0, true)
    else if op == PC || op == MSIZE || op == GAS then Info(0, 0, 1, false)
    else if IsPush(op) then Info(op - PUSH1 + 1, 0, 1, false)
    else if IsDup(op) then Info(0, op - DUP1 + 1, op - DUP1 + 2, false)
    else if IsSwap(op) then Info(0, op - SWAP1 + 2, op - SWAP1 + 2, false)
    else if IsLog(op) then Info(0, op - LOG0 + 2, 0, true)
    else if op == CREATE then Info(0, 3, 1, true)
    else if op == CREATE2 then Info(0, 4, 1, true)
    else if op == CALL || op == CALLCODE then Info(0, 7, 1, true)
    else if op == DELEGATECALL || op == STATICCALL then Info(0, 6, 1, true)
    else if op == RETURN || op == REVERT then Info(0, 2, 0, true)
    else Info(0, 0, 0, false)
  }

  /** Instructions whose result is a function of their operands alone. */
  predicate IsArithmetic(op: Opcode) { ADD <= op <= SIGNEXTEND || LT <= op <= SAR }

  /** Instructions that read the environment of the call: no operand is changed
      and nothing but the result is produced. */
  predicate IsEnvironment(op: Opcode) {
    ADDRESS <= op <= GASLIMIT && InfoOf(op).ret == 1
  }

  /** Instructions that interact with the outside world or touch memory in bulk. */
  predicate IsEffect(op: Opcode) {
    || op == KECCAK256 || op == MSTORE8 || IsLog(op)
    || op == CALLDATACOPY || op == CODECOPY || op == EXTCODECOPY || op == RETURNDATACOPY
    || op == CREATE || op == CREATE2
    || op == CALL || op == CALLCODE || op == DELEGATECALL || op == STATICCALL
  }

  /** The effects that the outside world takes part in; the others only move bytes or hash them. */
  predicate IsInteraction(op: Opcode) {
    || IsLog(op) || op == CREATE || op == CREATE2
    || op == CALL || op == CALLCODE || op == DELEGATECALL || op == STATICCALL
  }

  predicate IsCommutative(op: Opcode) {
    op == ADD || op == MUL || op == EQ || op == AND || op == OR || op == XOR
  }

  predicate AltersControlFlow(op: Opcode) {
    op == JUMP || op == JUMPI || op == RETURN || op == SELFDESTRUCT || op == STOP || op == INVALID || op == REVERT
  }

  predicate IsDeterministic(op: Opcode) {
    !(|| op == CALL || op == CALLCODE || op == DELEGATECALL || op == STATICCALL || op == CREATE || op == CREATE2
      || op == GAS || op == PC || op == MSIZE || op == BALANCE || op == EXTCODESIZE || op == EXTCODEHASH
      || op == RETURNDATACOPY || op == RETURNDATASIZE)
  }
}
