/**
 The scheduling groups of racey-futex.c and the helpers that inspect them.
 */
module FutexGroup {

  const SLOTS: nat := 33
  const NFUTEX: nat := 4

  /** threads[]: the slots of the members that are still running; its length is SLOTS. */
  type Slots = s: seq<bool> | |s| == 33 witness seq(33, _ => false)

  /** The live slots lie in begin..end-1, and slot 0 is nobody's. */
  ghost predicate WellFormed(live: Slots, begin: nat, end: nat)
  {
    1 <= begin <= end <= SLOTS && forall k :: 0 <= k < SLOTS && live[k] ==> begin <= k < end
  }

  predicate IsEmpty(live: Slots) { forall k :: 0 <= k < SLOTS ==> !live[k] }

  ghost function Members(live: Slots, n: nat): set<int>
    requires n <= SLOTS
  {
    set k: int | 0 <= k < n && live[k]
  }

  /** The first live slot at or after `k`, or SLOTS. */
  function FirstFrom(live: Slots, k: nat): (f: nat)
    requires k <= SLOTS
    ensures k <= f <= SLOTS && (f < SLOTS ==> live[f])
    ensures forall x :: k <= x < f ==> !live[x]
    decreases SLOTS - k
  {
    if k == SLOTS || live[k] then k else FirstFrom(live, k + 1)
  }

  /** The smallest live slot, or 0 if there is none. */
  function LeaderOf(live: Slots): nat
  {
    if FirstFrom(live, 0) < SLOTS then FirstFrom(live, 0) else 0
  }

  /** Where the walk of groupPickNext that starts at `start` stops. */
  function StopOf(live: Slots, start: nat, end: nat): (n: nat)
    requires start <= end <= SLOTS
  {
    if FirstFrom(live, start) < end then FirstFrom(live, start)
    else if end < SLOTS || start == end then end
    else FirstFrom(live, 0)
  }

  /** What groupPickNext returns for a first pick `start`. */
  ghost function Pick(live: Slots, start: nat, end: nat): int
    requires start <= end <= SLOTS
  {
    if IsEmpty(live) then 0
    else
      var n := StopOf(live, start, end);
      if n == end then -|Members(live, SLOTS)| else n
  }

  /** sig % (end - begin + 1) + begin */
  function StartOf(sig: nat, begin: nat, end: nat): (start: nat)
    requires begin <= end
    ensures begin <= start <= end
  {
    sig % (end - begin + 1) + begin
  }

  class Group {
    var owner: int
    var round: nat
    const threads: array<bool>
    var begin: nat
    var end: nat

    ghost predicate Valid()
      reads this, threads
    {
      threads.Length == SLOTS && WellFormed(threads[..], begin, end)
    }

    /** The members are numbered from `first`, up to `limit` and NumProcs; all of them go first. */
    constructor (first: nat, limit: nat, procs: nat)
      requires 1 <= first <= procs + 1 <= SLOTS && first <= limit
      ensures Valid() && fresh(threads)
      ensures begin == first && end == if limit <= procs then limit else procs + 1
      ensures forall k :: 0 <= k < SLOTS ==> threads[k] == (begin <= k < end)
      ensures owner == -(end - begin) && round == 0
    {
      threads := new bool[SLOTS](_ => false);
      begin := first;
      new;
      var k, size := first, 0;
      while k < limit && k <= procs
        invariant first <= k <= limit && k <= procs + 1 && size == k - first && begin == first
        invariant forall x :: 0 <= x < SLOTS ==> threads[x] == (first <= x < k)
      {
        size := size + 1;
        threads[k] := true;
        k := k + 1;
      }
      end := k;
      owner := -size;
      round := 0;
    }

    method GroupSize() returns (n: nat)
      requires Valid()
      ensures n == |Members(threads[..], SLOTS)|
    {
      n := 0;
      assert Members(threads[..], 0) == {};
      for i := 0 to SLOTS
        invariant n == |Members(threads[..], i)|
      {
        if threads[i] {
          n := n + 1;
          assert Members(threads[..], i + 1) == Members(threads[..], i) + {i};
        } else {
          assert Members(threads[..], i + 1) == Members(threads[..], i);
        }
      }
    }

    /** The smallest member, or 0 in an empty group. */
    method GroupLeader() returns (i: nat)
      requires Valid()
      ensures i < SLOTS && i == LeaderOf(threads[..])
      ensures if IsEmpty(threads[..]) then i == 0
              else threads[i] && forall k :: 0 <= k < i ==> !threads[k]
    {
      ghost var live: Slots := threads[..];
      assert FirstFrom(live, 0) < SLOTS ==> live[FirstFrom(live, 0)];
      i := 0;
      while i < SLOTS
        invariant i <= SLOTS
        invariant forall k :: 0 <= k < i ==> !threads[k]
      {
        if threads[i] {
          assert live[i];
          return;
        }
        i := i + 1;
      }
      i := 0;
    }

    method GroupRemoveMe(threadId: nat)
      requires Valid() && threadId < SLOTS
      modifies threads
      ensures Valid() && threads[..] == old(threads[..])[threadId := false]
    {
      threads[threadId] := false;
    }

    method GroupPickNext(sig: nat) returns (next: int)
      requires Valid()
      ensures StartOf(sig, begin, end) == sig % (end - begin + 1) + begin
      ensures next == Pick(threads[..], StartOf(sig, begin, end), end)
    {
      ghost var live: Slots := threads[..];
      var n := 0;
      while n < SLOTS
        invariant n <= SLOTS && forall k :: 0 <= k < n ==> !threads[k]
      {
        if threads[n] {
          assert live[n];
          n := WalkFrom(StartOf(sig, begin, end));
          if n == end {
            var size: int := GroupSize();
            return -size;
          } else {
            return n;
          }
        }
        n := n + 1;
      }
      return 0;
    }

    /** The inner loop of groupPickNext; a cyclic distance shows that it ends. */
    method WalkFrom(start: nat) returns (n: nat)
      requires Valid() && !IsEmpty(threads[..]) && begin <= start <= end
      ensures n == StopOf(threads[..], start, end)
    {
      n := start;
      ghost var stop := StopOf(threads[..], start, end);
      StopIsReached(threads[..], begin, end, start);
      while n != end && !threads[n]
        invariant n <= SLOTS && (n == SLOTS ==> n == end == stop)
        invariant n <= stop || stop < start <= n
        invariant start <= n || (end == SLOTS && stop < start)
        decreases if n <= stop then stop - n else stop + SLOTS - n
      {
        n := (n + 1) % 33;
      }
    }
  }

  lemma StopIsReached(live: Slots, begin: nat, end: nat, start: nat)
    requires WellFormed(live, begin, end) && !IsEmpty(live) && begin <= start <= end
    ensures var stop := StopOf(live, start, end);
            && (stop == end || (stop < SLOTS && live[stop]))
            && (stop >= start ==> stop <= end && forall k :: start <= k < stop ==> !live[k])
            && (stop < start ==>
                  && end == SLOTS && start < SLOTS
                  && (forall k :: start <= k < SLOTS ==> !live[k])
                  && (forall k :: 0 <= k < stop ==> !live[k]))
  {
  }

  /**
   The pick is 0 exactly for an empty group; otherwise it is the first member from `start` on,
   or else the whole group - except that when the range ends at slot 33 the walk wraps round and
   finds the smallest member.
   */
  lemma PickIsExact(live: Slots, begin: nat, end: nat, start: nat)
    requires WellFormed(live, begin, end) && begin <= start <= end
    ensures var p := Pick(live, start, end);
            && (p == 0 <==> IsEmpty(live))
            && (p > 0 ==> p < SLOTS && live[p])
            && (p < 0 ==> p == -|Members(live, SLOTS)|)
            && (!IsEmpty(live) ==>
                  if exists k :: start <= k < SLOTS && live[k]
                  then p >= start && forall k :: start <= k < p ==> !live[k]
                  else if end == SLOTS && start < SLOTS
                  then p > 0 && forall k :: 0 <= k < p ==> !live[k]
                  else p < 0)
  {
    var p := Pick(live, start, end);
    if !IsEmpty(live) {
      var k :| 0 <= k < SLOTS && live[k];
      assert k in Members(live, SLOTS);
      StopIsReached(live, begin, end, start);
      assert FirstFrom(live, 0) <= k;
      if x :| start <= x < SLOTS && live[x] {
        assert FirstFrom(live, start) <= x;
      }
    }
  }

  // ----- The groups that main sets up

  function GroupBegin(procs: nat, i: nat): nat
  {
    if procs < NFUTEX then (if i == 0 then 1 else procs + 1) else 1 + i * (procs / NFUTEX)
  }

  ghost predicate IsGroup(g: Group, procs: nat, i: nat)
    reads g, g.threads
  {
    && g.Valid() && g.begin == GroupBegin(procs, i) && g.end == GroupBegin(procs, i + 1)
    && (forall k :: 0 <= k < SLOTS ==> g.threads[k] == (g.begin <= k < g.end))
    && g.owner == -(g.end - g.begin) && g.round == 0
  }

  method SetUpGroups(procs: nat) returns (groups: seq<Group>)
    requires 1 <= procs <= 32
    ensures |groups| == NFUTEX && forall i :: 0 <= i < NFUTEX ==> IsGroup(groups[i], procs, i)
  {
    groups := [];
    var k := 1;
    for i := 0 to NFUTEX
      invariant |groups| == i && k == GroupBegin(procs, i)
      invariant forall x :: 0 <= x < i ==> IsGroup(groups[x], procs, x)
    {
      GroupsFit(procs, i);
      var g := new Group(k, if procs < NFUTEX then k + procs else k + procs / NFUTEX, procs);
      k := g.end;
      groups := groups + [g];
    }
  }

  lemma GroupsFit(procs: nat, i: nat)
    requires 1 <= procs <= 32 && i < NFUTEX
    ensures 1 <= GroupBegin(procs, i) <= GroupBegin(procs, i + 1) <= procs + 1
    ensures procs >= NFUTEX ==> GroupBegin(procs, i + 1) == GroupBegin(procs, i) + procs / NFUTEX
  {
  }

  ghost predicate InGroup(procs: nat, i: nat, t: nat)
  {
    i < NFUTEX && GroupBegin(procs, i) <= t < GroupBegin(procs, i + 1)
  }

  ghost predicate HasGroup(procs: nat, t: nat)
  {
    exists i :: InGroup(procs, i, t)
  }

  lemma {:induction false} GroupBeginMonotone(procs: nat, i: nat, j: nat)
    requires 1 <= procs <= 32 && i <= j <= NFUTEX
    ensures GroupBegin(procs, i) <= GroupBegin(procs, j)
  {
    if i < j {
      GroupBeginMonotone(procs, i, j - 1);
      GroupsFit(procs, j - 1);
    }
  }

  /** No thread is in two groups. */
  lemma GroupsDisjoint(procs: nat, i: nat, j: nat, t: nat)
    requires 1 <= procs <= 32 && InGroup(procs, i, t) && InGroup(procs, j, t)
    ensures i == j
  {
    if i < j {
      GroupBeginMonotone(procs, i + 1, j);
    } else if j < i {
      GroupBeginMonotone(procs, j + 1, i);
    }
  }

  /** Every thread has a group - so no assert in ThreadBody fails - exactly for these NumProcs. */
  lemma GroupsCoverIff(procs: nat)
    requires 1 <= procs <= 32
    ensures (forall t: nat :: 1 <= t <= procs ==> HasGroup(procs, t)) <==> procs < 4 || procs % 4 == 0
  {
    if procs < NFUTEX || procs % NFUTEX == 0 {
      forall t: nat | 1 <= t <= procs
        ensures HasGroup(procs, t)
      {
        var q := procs / NFUTEX;
        var i := if procs < NFUTEX || t < 1 + q then 0
                 else if t < 1 + 2 * q then 1
                 else if t < 1 + 3 * q then 2 else 3;
        assert InGroup(procs, i, t);
      }
    } else {
      forall i: nat
        ensures !InGroup(procs, i, procs)
      {
        if i < NFUTEX {
          GroupBeginMonotone(procs, i + 1, NFUTEX);
        }
      }
      assert !HasGroup(procs, procs);
    }
  }
}
