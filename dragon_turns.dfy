/** The turn sequence of the Heighway dragon (src/FractalExplorer.jsx:257-267):
    starting from a single right turn, each fold keeps the sequence, adds a
    right turn and then the sequence reversed with every sign flipped.
    1 stands for a right turn and -1 for a left turn. */
module DragonTurns {
  import opened Geometry

  /** The sequence read backwards with every entry negated. */
  function NegReverse(s: seq<int>): (r: seq<int>)
    ensures |r| == |s|
  {
    seq(|s|, i requires 0 <= i < |s| => -s[|s| - 1 - i])
  }

  /** One fold: the old turns, a right turn, then the old turns reversed and negated. */
  function Fold(s: seq<int>): seq<int>
  {
    s + [1] + NegReverse(s)
  }

  /** The turns after `iterations` folds of the single turn [1]. */
  function Turns(iterations: nat): seq<int>
    requires iterations >= 1
    decreases iterations
  {
    if iterations == 1 then [1] else Fold(Turns(iterations - 1))
  }

  /** Every entry of s is a right or a left turn. */
  predicate AllTurns(s: seq<int>)
  {
    forall i :: 0 <= i < |s| ==> s[i] == 1 || s[i] == -1
  }

  /** The fold loop of `drawHeighwayDragon`: `directions` grows by `push`,
      first a 1, then the negations of the entries before it, last one first. */
  method BuildTurns(iterations: nat) returns (directions: seq<int>)
    requires iterations >= 1
    ensures directions == Turns(iterations)
  {
    directions := [1];
    var i := 1;
    while i < iterations
      invariant 1 <= i <= iterations
      invariant directions == Turns(i)
    {
      ghost var previous := directions;
      var currentLength := |directions|;
      directions := directions + [1];
      var j := currentLength - 1;
      while j >= 0
        invariant -1 <= j < currentLength
        invariant directions == previous + [1] + NegReverse(previous)[..currentLength - 1 - j]
      {
        assert NegReverse(previous)[currentLength - 1 - j] == -directions[j];
        assert NegReverse(previous)[..currentLength - j]
          == NegReverse(previous)[..currentLength - 1 - j] + [-directions[j]];
        directions := directions + [-directions[j]];
        j := j - 1;
      }
      assert NegReverse(previous)[..currentLength] == NegReverse(previous);
      i := i + 1;
    }
  }

  /** After n folds there are 2^n - 1 turns. */
  lemma {:induction false} TurnsLength(iterations: nat)
    requires iterations >= 1
    ensures |Turns(iterations)| == Pow(2, iterations) - 1
    decreases iterations
  {
    if iterations > 1 {
      TurnsLength(iterations - 1);
    }
  }

  /** The first turn is a right turn and every one is a right or a left turn. */
  lemma {:induction false} TurnsShape(iterations: nat)
    requires iterations >= 1
    ensures |Turns(iterations)| > 0 && Turns(iterations)[0] == 1
    ensures AllTurns(Turns(iterations))
    decreases iterations
  {
    if iterations > 1 {
      var s, r := Turns(iterations - 1), Turns(iterations);
      TurnsShape(iterations - 1);
      FoldParts(iterations);
      assert r[0] == r[..|s|][0];
      forall i | 0 <= i < |r|
        ensures r[i] == 1 || r[i] == -1
      {
        if i < |s| {
          assert r[i] == r[..|s|][i];
        } else if i > |s| {
          assert r[i] == -s[|r| - 1 - i];
        }
      }
    }
  }

  /** Each fold keeps the old sequence as a prefix, follows it with a right
      turn and ends with the old sequence reversed and negated. */
  lemma FoldParts(iterations: nat)
    requires iterations >= 2
    ensures var s, r := Turns(iterations - 1), Turns(iterations);
      && |r| == 2 * |s| + 1
      && r[..|s|] == s
      && r[|s|] == 1
      && forall j :: |s| < j < |r| ==> r[j] == -s[|r| - 1 - j]
  {
    var s, r := Turns(iterations - 1), Turns(iterations);
    assert r == s + [1] + NegReverse(s);
    assert r[..|s|] == s;
    forall j | |s| < j < |r|
      ensures r[j] == -s[|r| - 1 - j]
    {
      assert r[j] == NegReverse(s)[j - |s| - 1];
    }
  }

  /** Folding more often only extends the sequence. */
  lemma {:induction false} TurnsPrefix(m: nat, n: nat)
    requires 1 <= m <= n
    ensures |Turns(m)| <= |Turns(n)| && Turns(n)[..|Turns(m)|] == Turns(m)
    decreases n - m
  {
    if m < n {
      TurnsPrefix(m, n - 1);
      var s := Turns(n - 1);
      assert Turns(n)[..|s|] == s;
      assert Turns(n)[..|Turns(m)|] == s[..|Turns(m)|];
    }
  }

  /** Two folds give right, right, left. */
  lemma TurnsOfTwoFolds()
    ensures Turns(2) == [1, 1, -1]
  {
    assert NegReverse([1]) == [-1];
  }

  /** The regular paper-folding sequence, an independent description of the
      same turns: turn m (counting from 1) is that of m with its factors of 2
      removed, and an odd m turns right exactly when m mod 4 == 1. */
  function PaperFold(m: nat): (t: int)
    requires m >= 1
    ensures t == 1 || t == -1
    decreases m
  {
    if m % 2 == 0 then PaperFold(m / 2) else if m % 4 == 1 then 1 else -1
  }

  /** Turn 2^p is always a right turn. */
  lemma {:induction false} PaperFoldPow2(p: nat)
    ensures PaperFold(Pow(2, p)) == 1
    decreases p
  {
    if p > 0 {
      PaperFoldPow2(p - 1);
      assert Pow(2, p) / 2 == Pow(2, p - 1);
    }
  }

  /** Turns at the same distance on either side of 2^(p+1) are opposite. */
  lemma {:induction false} PaperFoldMirror(p: nat, m: nat)
    requires 1 <= m < Pow(2, p)
    ensures PaperFold(2 * Pow(2, p) - m) == -PaperFold(m)
    decreases p, 1
  {
    var q := Pow(2, p - 1);
    assert 2 * Pow(2, p) - m == 4 * q - m;
    if m % 2 == 0 {
      MirrorEven(p, m);
    } else {
      MirrorOdd(q, m);
    }
  }

  /** An even m: both sides halve, and the mirror is taken one level down. */
  lemma {:induction false} MirrorEven(p: nat, m: nat)
    requires p >= 1 && 1 <= m < Pow(2, p) && m % 2 == 0
    ensures PaperFold(4 * Pow(2, p - 1) - m) == -PaperFold(m)
    decreases p, 0
  {
    var q, h := Pow(2, p - 1), m / 2;
    assert m == 2 * h;
    Halve(4 * q - m, 2 * q - h);
    assert PaperFold(4 * q - m) == PaperFold(2 * q - h);
    assert PaperFold(m) == PaperFold(h);
    PaperFoldMirror(p - 1, h);
  }

  /** An odd m: 4q - m turns the other way, by its residue mod 4. */
  lemma MirrorOdd(q: nat, m: nat)
    requires 1 <= m < 2 * q && m % 2 == 1
    ensures PaperFold(4 * q - m) == -PaperFold(m)
  {
    var mirror := 4 * q - m;
    OddMirrorResidue(q, m);
    if m % 4 == 1 {
      assert PaperFold(m) == 1;
      assert PaperFold(mirror) == -1;
    } else {
      assert PaperFold(m) == -1;
      assert PaperFold(mirror) == 1;
    }
  }

  /** For odd m, 4q - m is odd and swaps the residues 1 and 3 mod 4. */
  lemma OddMirrorResidue(q: nat, m: nat)
    requires 1 <= m < 2 * q && m % 2 == 1
    ensures (4 * q - m) % 2 == 1
    ensures m % 4 == 1 ==> (4 * q - m) % 4 == 3
    ensures m % 4 != 1 ==> m % 4 == 3 && (4 * q - m) % 4 == 1
  {
    var b := m / 2;
    assert m == 2 * b + 1;
    var c := b / 2;
    if b % 2 == 0 {
      assert m == 4 * c + 1;
      assert 4 * q - m == 4 * (q - c - 1) + 3;
    } else {
      assert m == 4 * c + 3;
      assert 4 * q - m == 4 * (q - c - 1) + 1;
    }
  }

  /** Twice y is even and halves back to y. */
  lemma Halve(x: nat, y: nat)
    requires x == 2 * y
    ensures x % 2 == 0 && x / 2 == y
  {
  }

  /** The folded turns are exactly the paper-folding sequence: turn k (from 0)
      of n folds is PaperFold(k + 1). */
  lemma {:induction false} TurnsArePaperFolding(iterations: nat, k: nat)
    requires iterations >= 1 && k < |Turns(iterations)|
    ensures Turns(iterations)[k] == PaperFold(k + 1)
    decreases iterations
  {
    if iterations > 1 {
      var s := Turns(iterations - 1);
      if k < |s| {
        PrefixTurn(iterations, k);
        TurnsArePaperFolding(iterations - 1, k);
      } else if k == |s| {
        MiddleTurn(iterations);
      } else {
        var j := MirroredTurn(iterations, k);
        TurnsArePaperFolding(iterations - 1, j);
      }
    }
  }

  /** A turn of the kept prefix is unchanged by the fold. */
  lemma PrefixTurn(iterations: nat, k: nat)
    requires iterations >= 2 && k < |Turns(iterations - 1)|
    ensures k < |Turns(iterations)| && Turns(iterations)[k] == Turns(iterations - 1)[k]
  {
    var s, r := Turns(iterations - 1), Turns(iterations);
    FoldParts(iterations);
    assert r[k] == r[..|s|][k];
  }

  /** The turn added in the middle of a fold is turn 2^(n-1), a right turn. */
  lemma MiddleTurn(iterations: nat)
    requires iterations >= 2
    ensures var m := |Turns(iterations - 1)|;
      m < |Turns(iterations)| && Turns(iterations)[m] == PaperFold(m + 1)
  {
    FoldParts(iterations);
    TurnsLength(iterations - 1);
    PaperFoldPow2(iterations - 1);
  }

  /** A turn of the mirrored half is the negation of turn j of the previous
      fold, and the paper-folding sequence negates in the same way. */
  lemma MirroredTurn(iterations: nat, k: nat) returns (j: nat)
    requires iterations >= 2 && |Turns(iterations - 1)| < k < |Turns(iterations)|
    ensures j < |Turns(iterations - 1)|
    ensures Turns(iterations)[k] == -Turns(iterations - 1)[j]
    ensures PaperFold(k + 1) == -PaperFold(j + 1)
  {
    var s, r := Turns(iterations - 1), Turns(iterations);
    FoldParts(iterations);
    TurnsLength(iterations - 1);
    var half := Pow(2, iterations - 1);
    assert |r| == 2 * half - 1;
    var m := |r| - k;
    j := m - 1;
    assert r[k] == -s[j];
    PaperFoldMirror(iterations - 1, m);
    assert k + 1 == 2 * half - m;
  }
}
