/**
 The rounds of one scheduling group of racey-futex.c.  A turn is given to one member or to the
 whole group; the end of a turn publishes who is next.

 Each access to `owner`, `round` and threads[] is a step of its own, except where a rule says
 otherwise.  The rules are the hypotheses under which the protocol works; a step relation without
 one of them is obtained by switching it off.
 */
module FutexRounds {
  import opened Runs
  import opened FutexGroup
  import Shared

  datatype RawConfig = Config(begin: nat, end: nat, maxLoop: nat)
  type Config = c: RawConfig | 1 <= c.begin <= c.end <= SLOTS && c.maxLoop >= 1 witness Config(1, 1, 1)

  datatype Rules = Rules(
    atomicPublish: bool,  // after a single turn, `owner` and `round` change together
    leaderFirst: bool,    // in a group turn, no member leaves before all have looked for the leader
    exactWakes: bool      // a wake on `round` only reaches those that wait for a round gone by
  )

  const ALL_RULES := Rules(true, true, true)

  datatype Pc =
    | Top          // about to test the loop condition and read `owner`
    | Lead         // about to decide whether it is the leader
    | Round        // about to read `round`
    | Batch        // executing its batch
    | Leave        // about to leave the group if it is finished
    | Add          // about to increment `owner`
    | Spin         // at the execution barrier
    | PickAll      // leader: about to publish `owner`
    | BumpAll      // leader: about to increment `round`
    | WakeAll      // leader: about to wake waiters on `round`
    | WaitRound    // about to wait on `round`
    | AsleepRound
    | PickOne      // single turn: about to publish `owner` (and `round`)
    | BumpOne      // single turn: about to increment `round`
    | WakeOne      // single turn: about to wake waiters on `owner`
    | WaitOwner    // about to wait on `owner`
    | AsleepOwner
    | Returned

  /** `owner`, `leader` and `oldRound` are the locals of ThreadBody; `left` is MaxLoop - i. */
  datatype Member = Member(pc: Pc, owner: int, leader: bool, oldRound: nat, left: nat)

  datatype State = State(owner: int, round: nat, live: Slots, members: seq<Member>)

  /** Thread `t` moves; if it picks the next owner, its sig[] entry is `sig`. */
  datatype Move = Move(t: nat, sig: nat)

  function Init(c: Config): State
  {
    State(-(c.end - c.begin), 0, seq(SLOTS, k => c.begin <= k < c.end),
          seq(SLOTS, k => if c.begin <= k < c.end then Member(Top, 0, false, 0, c.maxLoop)
                          else Member(Returned, 0, false, 0, 0)))
  }

  predicate IsMember(c: Config, t: nat) { c.begin <= t < c.end }

  /** `t` has looked for the leader of the group turn in progress. */
  predicate HasLed(s: State, t: nat)
    requires t < |s.members|
  {
    var m := s.members[t];
    || (m.pc in {Round, Batch, Leave, Add} && m.owner < 0)
    || m.pc in {PickAll, BumpAll}
    || (m.pc in {Spin, WaitRound, AsleepRound} && m.oldRound == s.round)
  }

  predicate AllLed(s: State)
    requires |s.members| == SLOTS
  {
    forall u :: 0 <= u < SLOTS && s.live[u] ==> HasLed(s, u)
  }

  predicate Moves(r: Rules, c: Config, s: State, t: nat)
  {
    && |s.members| == SLOTS && IsMember(c, t)
    && var m := s.members[t];
    match m.pc
    case Returned => false
    case AsleepRound => false
    case AsleepOwner => false
    case Spin => s.owner == 0 || s.round != m.oldRound
    case Leave => r.leaderFirst && m.owner < 0 && m.left == 0 ==> AllLed(s)
    case _ => true
  }

  function Wake(r: Rules, s: State, m: Member, pc: Pc): Member
  {
    if m.pc == pc && (pc == AsleepRound && r.exactWakes ==> m.oldRound != s.round) then m.(pc := Top) else m
  }

  function WakeMembers(r: Rules, s: State, pc: Pc): seq<Member>
    requires |s.members| == SLOTS
  {
    seq(SLOTS, u requires 0 <= u < SLOTS => Wake(r, s, s.members[u], pc))
  }

  ghost function Step(r: Rules, c: Config, s: State, t: nat, sig: nat): State
    requires Moves(r, c, s, t)
  {
    var m := s.members[t];
    var next := Pick(s.live, StartOf(sig, c.begin, c.end), c.end);
    match m.pc
    case Top =>
      s.(members := s.members[t :=
        if m.left == 0 then m.(pc := Returned)
        else m.(owner := s.owner, pc := if s.owner == t || s.owner < 0 then Lead else WaitOwner)])
    case Lead =>
      s.(members := s.members[t := m.(leader := m.owner == t || LeaderOf(s.live) == t, pc := Round)])
    case Round =>
      s.(members := s.members[t := m.(oldRound := s.round, pc := Batch)])
    case Batch =>
      var left := if m.left <= Shared.BatchSize(c.maxLoop) then 0 else m.left - Shared.BatchSize(c.maxLoop);
      s.(members := s.members[t := m.(left := left, pc := Leave)])
    case Leave =>
      s.(live := if m.left == 0 then s.live[t := false] else s.live,
         members := s.members[t := m.(pc := if m.owner < 0 then Add else PickOne)])
    case Add =>
      s.(owner := s.owner + 1, members := s.members[t := m.(pc := Spin)])
    case Spin =>
      s.(members := s.members[t := m.(pc := if m.leader then PickAll else WaitRound)])
    case PickAll =>
      s.(owner := next, members := s.members[t := m.(pc := BumpAll)])
    case BumpAll =>
      s.(round := s.round + 1, members := s.members[t := m.(pc := WakeAll)])
    case WakeAll =>
      s.(members := WakeMembers(r, s, AsleepRound)[t := m.(pc := Top)])
    case WaitRound =>
      s.(members := s.members[t := m.(pc := if s.round == m.oldRound then AsleepRound else Top)])
    case PickOne =>
      if r.atomicPublish then s.(owner := next, round := s.round + 1, members := s.members[t := m.(pc := WakeOne)])
      else s.(owner := next, members := s.members[t := m.(pc := BumpOne)])
    case BumpOne =>
      s.(round := s.round + 1, members := s.members[t := m.(pc := WakeOne)])
    case WakeOne =>
      s.(members := WakeMembers(r, s, AsleepOwner)[t := m.(pc := Top)])
    case WaitOwner =>
      s.(members := s.members[t := m.(pc := if s.owner == m.owner then AsleepOwner else Top)])
  }

  ghost function Next(r: Rules, c: Config): (State, Move) -> Option<State>
  {
    (s: State, l: Move) => if Moves(r, c, s, l.t) then Some(Step(r, c, s, l.t, l.sig)) else None
  }

  /**
   A step that the rules forbid nothing about: it publishes at once, leaves after all have looked
   for the leader, and wakes nobody who has still to take part in a turn before its time.
   */
  predicate Harmless(r: Rules, s: State, t: nat)
    requires |s.members| == SLOTS && t < SLOTS
  {
    var m := s.members[t];
    match m.pc
    case PickOne => r.atomicPublish
    case Leave => m.owner < 0 && m.left == 0 ==> AllLed(s)
    case WakeAll => r.exactWakes || forall u :: 0 <= u < SLOTS && s.live[u] ==> !WaitsForThisRound(s, u)
    case _ => true
  }

  predicate WaitsForThisRound(s: State, u: nat)
    requires u < |s.members|
  {
    s.members[u].pc == AsleepRound && s.members[u].oldRound == s.round
  }

  // ----- Where a member is with respect to the turn in progress

  /** In a group turn, before its increment of `owner`. */
  predicate Inside(m: Member)
  {
    (m.pc in {Lead, Round, Batch, Leave} && m.owner < 0) || m.pc == Add
  }

  /** In a group turn, after its increment. */
  predicate After(s: State, m: Member)
  {
    m.pc in {PickAll, BumpAll} || (m.pc in {Spin, WaitRound, AsleepRound} && m.oldRound == s.round)
  }

  /** In a turn of its own. */
  predicate Alone(m: Member)
  {
    (m.pc in {Lead, Round, Batch, Leave} && m.owner >= 0) || m.pc in {PickOne, BumpOne}
  }

  /** A participant of the group turn that is yet to increment `owner`. */
  predicate Expected(s: State, t: nat)
    requires t < |s.members| && t < SLOTS
  {
    var m := s.members[t];
    Inside(m) || (s.live[t] && !After(s, m) && !Alone(m))
  }

  ghost function ExpectedSet(s: State): set<int>
    requires |s.members| == SLOTS
  {
    set t: int | 0 <= t < SLOTS && Expected(s, t)
  }

  /** The leader has published `owner` and is about to increment `round`. */
  predicate IsPublishing(s: State) { exists t :: 0 <= t < |s.members| && s.members[t].pc == BumpAll }

  /** Turns: of one member, of the group, of the group while its leader publishes, and none. */
  datatype Phase = Solo(o: nat) | Together(l: nat) | Publishing(l: nat) | Over

  ghost predicate MemberInv(c: Config, s: State, t: nat)
    requires |s.members| == SLOTS && t < SLOTS
  {
    var m := s.members[t];
    && (s.live[t] <==> m.pc == Leave || m.left > 0)
    && (m.pc in {Lead, Round, Batch} ==> m.left > 0)
    && (m.pc in {Lead, Round, Batch, Leave} ==> m.owner == t || m.owner < 0)
    && (m.pc == PickOne ==> m.owner == t)
    && (m.pc == Add ==> m.owner < 0)
    && (m.pc in {WaitOwner, AsleepOwner} ==> m.owner > 0 && m.owner != t && m.left > 0)
    && (m.pc in {Batch, Leave, Add} && m.owner < 0 ==> m.oldRound == s.round)
    && (m.pc in {Spin, WaitRound, AsleepRound} ==> m.oldRound <= s.round)
    && (m.pc == Spin && m.oldRound < s.round ==> !m.leader)
    && (m.pc in {WaitRound, AsleepRound} ==> !m.leader)
    && (m.pc in {PickAll, BumpAll} ==> m.leader)
    && (m.pc in {PickAll, BumpAll, PickOne} ==> m.oldRound == s.round)
    && (m.pc in {Batch, Leave} && m.owner >= 0 ==> m.oldRound == s.round)
    && m.pc != BumpOne
    && (m.pc == Returned ==> !s.live[t])
    && (!IsMember(c, t) ==> m.pc == Returned)
  }

  /** A sleeper's reason to sleep is still there, or somebody is about to wake it. */
  ghost predicate SleepInv(s: State, t: nat)
    requires |s.members| == SLOTS && t < SLOTS
  {
    var m := s.members[t];
    && (m.pc == AsleepOwner ==> m.owner == s.owner || exists u :: 0 <= u < SLOTS && s.members[u].pc == WakeOne)
    && (m.pc == AsleepRound ==> m.oldRound == s.round || exists u :: 0 <= u < SLOTS && s.members[u].pc == WakeAll)
  }

  ghost predicate PhaseInv(c: Config, s: State, ph: Phase)
    requires |s.members| == SLOTS
  {
    match ph
    case Solo(o) =>
      && IsMember(c, o) && s.owner == o
      && (Alone(s.members[o]) || s.live[o])
      && forall t :: 0 <= t < SLOTS ==>
           !Inside(s.members[t]) && !After(s, s.members[t]) && (Alone(s.members[t]) ==> t == o)
    case Together(l) =>
      && IsMember(c, l) && s.owner == -|ExpectedSet(s)|
      && (Expected(s, l) || After(s, s.members[l]))
      && (!AllLed(s) ==> l == FirstFrom(s.live, 0))
      && forall t :: 0 <= t < SLOTS ==>
           && !Alone(s.members[t]) && s.members[t].pc != BumpAll
           && (HasLed(s, t) ==> (s.members[t].leader <==> t == l))
           && (After(s, s.members[t]) && s.members[t].pc != Spin ==> s.owner == 0)
    case Publishing(l) =>
      && IsMember(c, l) && s.members[l].pc == BumpAll
      && (s.owner > 0 ==> IsMember(c, s.owner) && s.live[s.owner])
      && (s.owner < 0 ==> s.owner == -|Members(s.live, SLOTS)|)
      && (s.owner <= 0 ==> (s.owner == 0 <==> IsEmpty(s.live)))
      && forall t :: 0 <= t < SLOTS ==>
           && !Alone(s.members[t]) && !Expected(s, t)
           && (t != l && After(s, s.members[t]) ==> !s.members[t].leader)
    case Over =>
      && s.owner == 0 && IsEmpty(s.live)
      && forall t :: 0 <= t < SLOTS ==>
           !Inside(s.members[t]) && !After(s, s.members[t]) && !Alone(s.members[t])
  }

  ghost predicate Inv(c: Config, s: State, ph: Phase)
  {
    && |s.members| == SLOTS && WellFormed(s.live, c.begin, c.end)
    && (forall t :: 0 <= t < SLOTS ==> MemberInv(c, s, t) && SleepInv(s, t))
    && PhaseInv(c, s, ph)
  }
}
