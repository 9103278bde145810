/** The edit distance used to suggest names: insertions, deletions, substitutions, and exchanges of neighbours. */
module StringDistance {

  function Min(a: nat, b: nat): nat { if a < b then a else b }
  function Max(a: nat, b: nat): nat { if a < b then b else a }

  predicate Exchanged(a: string, b: string, i: nat, j: nat)
    requires i <= |a| && j <= |b|
  {
    i > 1 && j > 1 && a[i - 1] == b[j - 2] && a[i - 2] == b[j - 1]
  }

  /** The distance of two prefixes. */
  function Distance(a: string, b: string, i: nat, j: nat): nat
    requires i <= |a| && j <= |b|
    decreases i, j
  {
    if i == 0 || j == 0 then Max(i, j)
    else
      var x := Min(Distance(a, b, i - 1, j) + 1, Distance(a, b, i, j - 1) + 1);
      var y := Min(x, Distance(a, b, i - 1, j - 1) + if a[i - 1] == b[j - 1] then 0 else 1);
      if Exchanged(a, b, i, j) then Min(y, Distance(a, b, i - 2, j - 2) + 1) else y
  }

  // ----- the table with three rolling rows -----

  function Cell(i: nat, j: nat): nat { i % 3 + j * 3 }

  /** Row i of the table is right up to column n. */
  ghost predicate RowIs(t: seq<nat>, a: string, b: string, i: nat, n: nat)
    requires i <= |a| && |t| == 3 * (|b| + 1) && n <= |b| + 1
  {
    forall j :: 0 <= j < n ==> t[Cell(i, j)] == Distance(a, b, i, j)
  }

  lemma {:induction false} ReadCell(t: seq<nat>, a: string, b: string, i: nat, n: nat, j: nat)
    requires i <= |a| && |t| == 3 * (|b| + 1) && j < n <= |b| + 1 && RowIs(t, a, b, i, n)
    ensures Cell(i, j) < |t| && t[Cell(i, j)] == Distance(a, b, i, j)
  {
    hide Distance;
  }

  /** Writing a cell extends its row and leaves the two rows above alone. */
  lemma {:induction false} WriteCell(t: seq<nat>, a: string, b: string, i: nat, j: nat)
    requires i <= |a| && |t| == 3 * (|b| + 1) && j <= |b| && RowIs(t, a, b, i, j) && Cell(i, j) < |t|
    ensures var t' := t[Cell(i, j) := Distance(a, b, i, j)];
            && RowIs(t', a, b, i, j + 1)
            && (i >= 1 && RowIs(t, a, b, i - 1, |b| + 1) ==> RowIs(t', a, b, i - 1, |b| + 1))
            && (i >= 2 && RowIs(t, a, b, i - 2, |b| + 1) ==> RowIs(t', a, b, i - 2, |b| + 1))
  {
    hide Distance;
  }

  method Distances(a: string, b: string) returns (d: nat)
    ensures d == Distance(a, b, |a|, |b|)
  {
    var n1, n2 := |a|, |b|;
    var dp := new nat[3 * (n2 + 1)];
    for i1 := 0 to n1 + 1
      invariant i1 >= 1 ==> RowIs(dp[..], a, b, i1 - 1, n2 + 1)
      invariant i1 >= 2 ==> RowIs(dp[..], a, b, i1 - 2, n2 + 1)
    {
      assert RowIs(dp[..], a, b, i1, 0);
      for i2 := 0 to n2 + 1
        invariant i1 >= 1 ==> RowIs(dp[..], a, b, i1 - 1, n2 + 1)
        invariant i1 >= 2 ==> RowIs(dp[..], a, b, i1 - 2, n2 + 1)
        invariant RowIs(dp[..], a, b, i1, i2)
      {
        hide Distance, RowIs;
        DistanceStep(a, b, i1, i2);
        var x := NextDistance(dp, a, b, i1, i2);
        WriteCell(dp[..], a, b, i1, i2);
        dp[Cell(i1, i2)] := x;
      }
    }
    hide Distance, RowIs;
    ReadCell(dp[..], a, b, n1, n2 + 1, n2);
    d := dp[Cell(n1, n2)];
  }

  /** One cell of the table. */
  method NextDistance(dp: array<nat>, a: string, b: string, i1: nat, i2: nat) returns (x: nat)
    requires i1 <= |a| && i2 <= |b| && dp.Length == 3 * (|b| + 1) && RowIs(dp[..], a, b, i1, i2)
    requires i1 >= 1 ==> RowIs(dp[..], a, b, i1 - 1, |b| + 1)
    requires i1 >= 2 ==> RowIs(dp[..], a, b, i1 - 2, |b| + 1)
    ensures x == Distance(a, b, i1, i2) && Cell(i1, i2) < dp.Length
  {
    hide Distance, RowIs;
    DistanceStep(a, b, i1, i2);
    if i1 == 0 || i2 == 0 { return if i1 < i2 then i2 else i1; }
    ReadCell(dp[..], a, b, i1 - 1, |b| + 1, i2);
    ReadCell(dp[..], a, b, i1, i2, i2 - 1);
    ReadCell(dp[..], a, b, i1 - 1, |b| + 1, i2 - 1);
    var left, up, upleft := dp[Cell(i1 - 1, i2)], dp[Cell(i1, i2 - 1)], dp[Cell(i1 - 1, i2 - 1)];
    x := Min(left + 1, up + 1);
    x := Min(x, if a[i1 - 1] == b[i2 - 1] then upleft else upleft + 1);
    if i1 > 1 && i2 > 1 && a[i1 - 1] == b[i2 - 2] && a[i1 - 2] == b[i2 - 1] {
      ReadCell(dp[..], a, b, i1 - 2, |b| + 1, i2 - 2);
      x := Min(x, dp[Cell(i1 - 2, i2 - 2)] + 1);
    }
  }

  lemma {:induction false} DistanceStep(a: string, b: string, i: nat, j: nat)
    requires i <= |a| && j <= |b|
    ensures Distance(a, b, i, j) ==
            if i == 0 || j == 0 then Max(i, j)
            else
              var x := Min(Distance(a, b, i - 1, j) + 1, Distance(a, b, i, j - 1) + 1);
              var y := Min(x, Distance(a, b, i - 1, j - 1) + if a[i - 1] == b[j - 1] then 0 else 1);
              if Exchanged(a, b, i, j) then Min(y, Distance(a, b, i - 2, j - 2) + 1) else y
  {
    hide Min, Max, Exchanged;
  }

  // ----- what the distance is -----

  datatype Edit = Keep | Substitute | Insert | Delete | Exchange

  /** The edits turn the first i letters of a into the first j letters of b. */
  predicate Turns(edits: seq<Edit>, a: string, b: string, i: nat, j: nat)
    requires i <= |a| && j <= |b|
    decreases |edits|
  {
    if edits == [] then i == 0 && j == 0
    else
      var rest := edits[..|edits| - 1];
      match edits[|edits| - 1]
      case Keep => i > 0 && j > 0 && a[i - 1] == b[j - 1] && Turns(rest, a, b, i - 1, j - 1)
      case Substitute => i > 0 && j > 0 && Turns(rest, a, b, i - 1, j - 1)
      case Insert => j > 0 && Turns(rest, a, b, i, j - 1)
      case Delete => i > 0 && Turns(rest, a, b, i - 1, j)
      case Exchange => Exchanged(a, b, i, j) && Turns(rest, a, b, i - 2, j - 2)
  }

  function Cost(edits: seq<Edit>): nat
    decreases |edits|
  {
    if edits == [] then 0 else Cost(edits[..|edits| - 1]) + if edits[|edits| - 1].Keep? then 0 else 1
  }

  /** No edits are cheaper than the distance. */
  lemma {:induction false} NoneCheaper(edits: seq<Edit>, a: string, b: string, i: nat, j: nat)
    requires i <= |a| && j <= |b| && Turns(edits, a, b, i, j)
    ensures Distance(a, b, i, j) <= Cost(edits)
    decreases |edits|
  {
    hide Distance;
    DistanceStep(a, b, i, j);
    if edits != [] {
      var rest := edits[..|edits| - 1];
      match edits[|edits| - 1]
      case Keep => NoneCheaper(rest, a, b, i - 1, j - 1);
      case Substitute => NoneCheaper(rest, a, b, i - 1, j - 1);
      case Insert =>
        NoneCheaper(rest, a, b, i, j - 1);
        DistanceStep(a, b, i, j - 1);
      case Delete =>
        NoneCheaper(rest, a, b, i - 1, j);
        DistanceStep(a, b, i - 1, j);
      case Exchange => NoneCheaper(rest, a, b, i - 2, j - 2);
    }
  }

  lemma {:induction false} OneMore(edits: seq<Edit>, e: Edit)
    ensures Cost(edits + [e]) == Cost(edits) + (if e.Keep? then 0 else 1) && (edits + [e])[..|edits + [e]| - 1] == edits
  {
    assert (edits + [e])[..|edits|] == edits;
  }

  /** Some edits cost exactly the distance. */
  lemma {:induction false} SomeAsCheap(a: string, b: string, i: nat, j: nat) returns (edits: seq<Edit>)
    requires i <= |a| && j <= |b|
    ensures Turns(edits, a, b, i, j) && Cost(edits) == Distance(a, b, i, j)
    decreases i, j
  {
    hide Distance, Cost;
    DistanceStep(a, b, i, j);
    var d := Distance(a, b, i, j);
    if i == 0 && j == 0 {
      edits := [];
      NoCost();
    } else if i > 0 && (j == 0 || d == Distance(a, b, i - 1, j) + 1) {
      DistanceStep(a, b, i - 1, j);
      var rest := SomeAsCheap(a, b, i - 1, j);
      OneMore(rest, Delete);
      edits := rest + [Delete];
    } else if j > 0 && (i == 0 || d == Distance(a, b, i, j - 1) + 1) {
      DistanceStep(a, b, i, j - 1);
      var rest := SomeAsCheap(a, b, i, j - 1);
      OneMore(rest, Insert);
      edits := rest + [Insert];
    } else if d == Distance(a, b, i - 1, j - 1) + if a[i - 1] == b[j - 1] then 0 else 1 {
      var e := if a[i - 1] == b[j - 1] then Keep else Substitute;
      var rest := SomeAsCheap(a, b, i - 1, j - 1);
      OneMore(rest, e);
      edits := rest + [e];
    } else {
      var rest := SomeAsCheap(a, b, i - 2, j - 2);
      OneMore(rest, Exchange);
      edits := rest + [Exchange];
    }
  }

  lemma {:induction false} NoCost()
    ensures Cost([]) == 0
  {
  }

  lemma {:induction false} Symmetric(a: string, b: string, i: nat, j: nat)
    requires i <= |a| && j <= |b|
    ensures Distance(a, b, i, j) == Distance(b, a, j, i)
    decreases i, j
  {
    hide Distance;
    DistanceStep(a, b, i, j);
    DistanceStep(b, a, j, i);
    if i > 0 && j > 0 {
      Symmetric(a, b, i - 1, j);
      Symmetric(a, b, i, j - 1);
      Symmetric(a, b, i - 1, j - 1);
      if i > 1 && j > 1 { Symmetric(a, b, i - 2, j - 2); }
    }
  }

  /** At most the longer length, at least the difference of the lengths. */
  lemma {:induction false} Bounds(a: string, b: string, i: nat, j: nat)
    requires i <= |a| && j <= |b|
    ensures Distance(a, b, i, j) <= Max(i, j) && i <= j + Distance(a, b, i, j) && j <= i + Distance(a, b, i, j)
    decreases i, j
  {
    hide Distance;
    DistanceStep(a, b, i, j);
    if i > 0 && j > 0 {
      Bounds(a, b, i - 1, j);
      Bounds(a, b, i, j - 1);
      Bounds(a, b, i - 1, j - 1);
      if i > 1 && j > 1 { Bounds(a, b, i - 2, j - 2); }
    }
  }

  /** Zero exactly for equal strings. */
  lemma {:induction false} ZeroMeansEqual(a: string, b: string, i: nat, j: nat)
    requires i <= |a| && j <= |b|
    ensures Distance(a, b, i, j) == 0 <==> a[..i] == b[..j]
    decreases i, j
  {
    hide Distance;
    DistanceStep(a, b, i, j);
    if i > 0 && j > 0 {
      ZeroMeansEqual(a, b, i - 1, j - 1);
      assert a[..i] == a[..i - 1] + [a[i - 1]] && b[..j] == b[..j - 1] + [b[j - 1]];
    }
  }

  /** Equal names are similar; others if they are short enough, and their distance is small and smaller than both of them. */
  method WithinDistance(a: string, b: string, maxDistance: nat, lengthLimit: nat) returns (similar: bool)
    ensures similar <==> a == b || ((lengthLimit == 0 || |a| * |b| <= lengthLimit) &&
                                    Distance(a, b, |a|, |b|) <= maxDistance && Distance(a, b, |a|, |b|) < Min(|a|, |b|))
  {
    hide Distance;
    if a == b { return true; }
    var n1, n2 := |a|, |b|;
    if lengthLimit > 0 && n1 * n2 > lengthLimit { return false; }
    var distance := Distances(a, b);
    similar := distance <= maxDistance && distance < n1 && distance < n2;
  }
}
