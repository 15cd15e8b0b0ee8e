/**
 The mix function of every racey program: 32-bit unsigned arithmetic followed by a
 reduction modulo PRIME1.
 */
module Mixing {

  const W: nat := 0x1_0000_0000  // number of unsigned int values
  const PRIME1: nat := 103072243
  const PRIME2: nat := 103995407

  /** Conversion to a 32-bit unsigned int, from an int or from an overflowing result. */
  function U32(x: int): nat { x % W }

  /** Each operation wraps on its own, as unsigned arithmetic in C does. */
  function Mix(i: int, j: int): (r: nat)
    ensures r < PRIME1
  {
    U32(U32(i) + U32(U32(j) * PRIME2)) % PRIME1
  }

  // ----- Wrapping at every step is wrapping once

  lemma ModProduct(a: int, k: int, m: int)
    requires m > 0
    ensures (a + k * m) % m == a % m
  {
    var q, r := a / m, a % m;
    assert a + k * m == (q + k) * m + r by {
      assert (q + k) * m == q * m + k * m;
      assert a == q * m + r;
    }
    ModUnique(a + k * m, m, q + k, r);
  }

  lemma ModUnique(a: int, m: int, q: int, r: int)
    requires m > 0 && 0 <= r < m && a == q * m + r
    ensures a % m == r && a / m == q
  {
    var d := a / m - q;
    assert a == (a / m) * m + a % m;
    assert d * m == r - a % m by {
      assert (a / m) * m - q * m == d * m;
    }
    assert d >= 1 ==> d * m >= m;
    assert d <= -1 ==> d * m <= -m;
  }

  lemma MixFlat(i: int, j: int)
    ensures Mix(i, j) == (i + j * PRIME2) % W % PRIME1
  {
    var qi, qj := i / W, j / W;
    assert U32(j) * PRIME2 == j * PRIME2 + (-qj * PRIME2) * W;
    ModProduct(j * PRIME2, -qj * PRIME2, W);
    var p := j * PRIME2;
    assert U32(i) + U32(p) == i + p + (-qi - p / W) * W;
    ModProduct(i + p, -qi - p / W, W);
  }

  /** A particular value, by its quotients. */
  lemma MixIs(i: nat, j: nat, q: nat, k: nat, r: nat)
    requires q * W <= i + j * PRIME2 < (q + 1) * W && i + j * PRIME2 == q * W + k * PRIME1 + r && r < PRIME1
    ensures Mix(i, j) == r
  {
    MixFlat(i, j);
    ModUnique(i + j * PRIME2, W, q, k * PRIME1 + r);
    ModUnique(k * PRIME1 + r, PRIME1, k, r);
  }

  // ----- Numbers mixed in one after the other

  /** `acc` after the numbers of `xs` have been mixed in, from the left, in plain arithmetic. */
  function Fold(acc: nat, xs: seq<nat>): nat
  {
    if xs == [] then acc else (Fold(acc, xs[..|xs| - 1]) + xs[|xs| - 1] * PRIME2) % W % PRIME1
  }

  lemma FoldOne(acc: nat, xs: seq<nat>, x: nat)
    ensures Fold(acc, xs + [x]) == Mix(Fold(acc, xs), x)
  {
    assert (xs + [x])[..|xs|] == xs;
    MixFlat(Fold(acc, xs), x);
    hide Mix;
  }

  lemma {:induction false} FoldAppend(acc: nat, a: seq<nat>, b: seq<nat>)
    ensures Fold(acc, a + b) == Fold(Fold(acc, a), b)
    decreases |b|
  {
    if b == [] {
      assert a + b == a;
    } else {
      var front, last := b[..|b| - 1], b[|b| - 1];
      FoldAppend(acc, a, front);
      FoldOne(acc, a + front, last);
      FoldOne(Fold(acc, a), front, last);
      assert a + b == (a + front) + [last] && b == front + [last];
    }
  }

  // ----- How many second arguments give a result

  /** The inverse of PRIME2 modulo W: INVERSE * PRIME2 == 88395286 * W + 1. */
  const INVERSE: nat := 3650688751

  /** The second argument for which the 32-bit sum is `u`. */
  function ArgumentFor(i: int, u: int): nat { ((u - i) * INVERSE) % W }

  /** Multiplication by PRIME2 is a bijection modulo W: ArgumentFor is its inverse. */
  lemma ArgumentForIsInverse(i: int, u: int, j: int)
    requires 0 <= u < W && 0 <= j < W
    ensures (i + ArgumentFor(i, u) * PRIME2) % W == u
    ensures ArgumentFor(i, (i + j * PRIME2) % W) == j
  {
    var a := (u - i) * INVERSE;
    assert (a % W) * PRIME2 == a * PRIME2 - (a / W * PRIME2) * W;
    assert a * PRIME2 == (u - i) + (u - i) * 88395286 * W;
    assert i + (a % W) * PRIME2 == u + ((u - i) * 88395286 - a / W * PRIME2) * W;
    ModProduct(u, (u - i) * 88395286 - a / W * PRIME2, W);

    var s := i + j * PRIME2;
    assert (s % W - i) * INVERSE == j + (j * 88395286 - s / W * INVERSE) * W by {
      assert s % W - i == j * PRIME2 - s / W * W;
      assert (j * PRIME2 - s / W * W) * INVERSE == j * (PRIME2 * INVERSE) - s / W * INVERSE * W;
    }
    ModProduct(j, j * 88395286 - s / W * INVERSE, W);
  }

  ghost function Preimages(i: int, v: nat): set<int>
  {
    set j: int | 0 <= j < W && Mix(i, j) == v
  }

  ghost function ImageOf(f: int -> int, n: nat): set<int>
  {
    set k: int | 0 <= k < n :: f(k)
  }

  lemma {:induction false} ImageSize(f: int -> int, n: nat)
    requires forall a, b :: 0 <= a < b < n ==> f(a) != f(b)
    ensures |ImageOf(f, n)| == n
  {
    if n == 0 {
      assert ImageOf(f, 0) == {};
    } else {
      ImageSize(f, n - 1);
      assert ImageOf(f, n) == ImageOf(f, n - 1) + {f(n - 1)};
      assert f(n - 1) !in ImageOf(f, n - 1);
    }
  }

  /** The arguments for the first `n` 32-bit sums with residue `v`. */
  ghost function Candidates(i: int, v: nat, n: nat): set<int>
  {
    ImageOf(Candidate(i, v), n)
  }

  ghost function Candidate(i: int, v: nat): int -> int
  {
    k => ArgumentFor(i, v + k * PRIME1)
  }

  lemma CandidatesDiffer(i: int, v: nat, a: nat, b: nat)
    requires a < b && v + b * PRIME1 < W
    ensures Candidate(i, v)(a) != Candidate(i, v)(b)
  {
    ArgumentForIsInverse(i, v + a * PRIME1, 0);
    ArgumentForIsInverse(i, v + b * PRIME1, 0);
  }

  lemma CandidatesSize(i: int, v: nat, n: nat)
    requires v < PRIME1 && (n == 0 || v + (n - 1) * PRIME1 < W)
    ensures |Candidates(i, v, n)| == n
  {
    forall a, b | 0 <= a < b < n
      ensures Candidate(i, v)(a) != Candidate(i, v)(b)
    {
      CandidatesDiffer(i, v, a, b);
    }
    ImageSize(Candidate(i, v), n);
  }

  lemma CandidateIsPreimage(i: int, v: nat, k: nat)
    requires v < PRIME1 && v + k * PRIME1 < W
    ensures Candidate(i, v)(k) in Preimages(i, v)
  {
    var u := v + k * PRIME1;
    ArgumentForIsInverse(i, u, 0);
    MixFlat(i, ArgumentFor(i, u));
    ModUnique(u, PRIME1, k, v);
  }

  lemma PreimageIsCandidate(i: int, v: nat, j: int) returns (k: nat)
    requires j in Preimages(i, v)
    ensures v + k * PRIME1 < W && j == Candidate(i, v)(k)
  {
    MixFlat(i, j);
    var u := (i + j * PRIME2) % W;
    ArgumentForIsInverse(i, 0, j);
    k := u / PRIME1;
    assert u == k * PRIME1 + v;
  }

  /** W == 41 * PRIME1 + 69005333, so the small residues are hit once more than the others. */
  lemma PreimageCount(i: int, v: nat)
    requires v < PRIME1
    ensures |Preimages(i, v)| == if v < 69005333 then 42 else 41
  {
    var n := if v < 69005333 then 42 else 41;
    CandidatesSize(i, v, n);
    forall j | j in Preimages(i, v)
      ensures j in Candidates(i, v, n)
    {
      var k := PreimageIsCandidate(i, v, j);
    }
    forall j | j in Candidates(i, v, n)
      ensures j in Preimages(i, v)
    {
      var k :| 0 <= k < n && j == Candidate(i, v)(k);
      CandidateIsPreimage(i, v, k);
    }
    assert Preimages(i, v) == Candidates(i, v, n);
  }

  // ----- When two first arguments collide

  ghost predicate IsPermutation(j: int)
  {
    && (forall a, b :: 0 <= a < b < PRIME1 ==> Mix(a, j) != Mix(b, j))
    && (forall v: nat :: v < PRIME1 ==> IsHit(v, j))
  }

  ghost predicate IsHit(v: nat, j: int)
  {
    exists a :: 0 <= a < PRIME1 && Mix(a, j) == v
  }

  /** The first argument at which the 32-bit sum wraps to 0. */
  function WrapPoint(j: int): nat { W - (j * PRIME2) % W }

  lemma MixBelowWrap(a: int, j: int)
    requires 0 <= a < PRIME1
    ensures var c := (j * PRIME2) % W;
            Mix(a, j) == if a < WrapPoint(j) then (a + c) % PRIME1 else a - WrapPoint(j)
  {
    MixFlat(a, j);
    var p := j * PRIME2;
    var c := p % W;
    assert a + p == (a + c) + (p / W) * W;
    ModProduct(a + c, p / W, W);
    if a < WrapPoint(j) {
      ModUnique(a + c, W, 0, a + c);
    } else {
      ModUnique(a + c, W, 1, a - WrapPoint(j));
      ModUnique(a - WrapPoint(j), PRIME1, 0, a - WrapPoint(j));
    }
  }

  lemma SameResidue(x: int, y: int)
    requires x % PRIME1 == y % PRIME1
    ensures x - y == (x / PRIME1 - y / PRIME1) * PRIME1
  {
    assert x == x / PRIME1 * PRIME1 + x % PRIME1;
    assert y == y / PRIME1 * PRIME1 + y % PRIME1;
  }

  /** Two first arguments collide exactly when they straddle the wrap point at distance W % PRIME1. */
  lemma CollisionIff(a: int, b: int, j: int)
    requires 0 <= a < b < PRIME1
    ensures Mix(a, j) == Mix(b, j) <==> b - a == 69005333 && a < WrapPoint(j) <= b
  {
    var c, w := (j * PRIME2) % W, WrapPoint(j);
    MixBelowWrap(a, j);
    MixBelowWrap(b, j);
    if b < w && (a + c) % PRIME1 == (b + c) % PRIME1 {
      SameResidue(b + c, a + c);
      assert false;
    } else if a < w <= b {
      var d := b - w;
      ModUnique(d, PRIME1, 0, d);
      assert b - a - W == d - (a + c);
      if (a + c) % PRIME1 == d % PRIME1 {
        SameResidue(a + c, d);
        var q := (a + c) / PRIME1 - d / PRIME1;
        assert W - (b - a) == q * PRIME1;
        assert q == 41;
      }
      if b - a == 69005333 {
        assert a + c == d + 41 * PRIME1;
        ModProduct(d, 41, PRIME1);
      }
    }
  }

  lemma AtMostTwoToOne(a: int, b: int, d: int, j: int)
    requires 0 <= a < b < d < PRIME1
    ensures !(Mix(a, j) == Mix(b, j) == Mix(d, j))
  {
    CollisionIff(a, b, j);
    CollisionIff(b, d, j);
  }

  lemma PermutationIff(j: int)
    ensures IsPermutation(j) <==> (j * PRIME2) % W <= W - PRIME1
  {
    var c, w := (j * PRIME2) % W, WrapPoint(j);
    if c <= W - PRIME1 {
      forall a, b | 0 <= a < b < PRIME1
        ensures Mix(a, j) != Mix(b, j)
      {
        CollisionIff(a, b, j);
      }
      forall v: nat | v < PRIME1
        ensures IsHit(v, j)
      {
        var a := (v - c) % PRIME1;
        MixBelowWrap(a, j);
        assert a + c == v + (-((v - c) / PRIME1)) * PRIME1;
        ModProduct(v, -((v - c) / PRIME1), PRIME1);
        ModUnique(v, PRIME1, 0, v);
        assert Mix(a, j) == v;
      }
    } else {
      var a := if w <= 69005333 then 0 else w - 69005333;
      CollisionIff(a, a + 69005333, j);
    }
  }
}
