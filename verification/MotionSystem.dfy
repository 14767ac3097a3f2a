/** The motion slot under any number of concurrent goto, jog and goal requests, one atomic operation
    at a time. An accepted goal carries the slot from the goal callback to the thread of its run. */
module MotionSystem {
  type Tid = nat
  type Ticket = nat

  datatype Kind = Goto | Jog | Goal

  /** A thread between two atomic operations. k numbers the claim it holds. */
  datatype Pc =
    | Try(kind: Kind)
    | Gate(k: Ticket)
    | Transit(k: Ticket)
    | Starting(k: Ticket)
    | Running(k: Ticket)
    | Inside(k: Ticket, run: bool)
    | Clearing(k: Ticket)
    | Releasing(k: Ticket)

  /** What happened to the slot, in order. */
  datatype Mark = Acquire(k: Ticket) | Enter(k: Ticket) | Leave(k: Ticket) | Release(k: Ticket)

  datatype State = State(
    busy: bool, inspecting: bool, threads: map<Tid, Pc>, nextTid: Tid, claims: Ticket, log: seq<Mark>)

  const INIT := State(false, false, map[], 0, 0, [])

  datatype Action = Request(kind: Kind) | Step(t: Tid, yes: bool)

  ghost predicate Enabled(s: State, a: Action) { a.Step? ==> a.t in s.threads }

  function Start(s: State, pc: Pc): State { s.(threads := s.threads[s.nextTid := pc], nextTid := s.nextTid + 1) }
  function Advance(s: State, t: Tid, pc: Pc): State { s.(threads := s.threads[t := pc]) }
  function End(s: State, t: Tid): State { s.(threads := s.threads - {t}) }
  function Noted(s: State, m: Mark): State { s.(log := s.log + [m]) }

  /** compare_exchange_strong(false, true): a busy slot turns the request away. */
  function TryStep(s: State, t: Tid, kind: Kind): State {
    if s.busy then End(s, t)
    else
      var claimed := Noted(s.(busy := true, claims := s.claims + 1), Acquire(s.claims));
      Advance(claimed, t, if kind.Goal? then Transit(s.claims) else Gate(s.claims))
  }

  function StepOf(s: State, t: Tid, yes: bool): State
    requires t in s.threads
  {
    match s.threads[t]
    case Try(kind) => TryStep(s, t, kind)
    case Gate(k) => if yes then Advance(Noted(s, Enter(k)), t, Inside(k, false)) else Advance(s, t, Releasing(k))
    case Transit(k) => Start(End(s, t), Starting(k))
    case Starting(k) => Advance(s.(inspecting := true), t, Running(k))
    case Running(k) => if yes then Advance(Noted(s, Enter(k)), t, Inside(k, true)) else Advance(s, t, Clearing(k))
    case Inside(k, run) => Advance(Noted(s, Leave(k)), t, if run then Running(k) else Releasing(k))
    case Clearing(k) => Advance(s.(inspecting := false), t, Releasing(k))
    case Releasing(k) => End(Noted(s.(busy := false), Release(k)), t)
  }

  ghost function Next(s: State, a: Action): State
    requires Enabled(s, a)
  {
    match a
    case Request(kind) => Start(s, Try(kind))
    case Step(t, yes) => StepOf(s, t, yes)
  }

  ghost predicate Run(states: seq<State>, actions: seq<Action>) {
    && |states| == |actions| + 1 && states[0] == INIT
    && forall i :: 0 <= i < |actions| ==> Enabled(states[i], actions[i]) && states[i + 1] == Next(states[i], actions[i])
  }

  // ---------- the discipline of the slot ----------

  /** The slot after some history: free with the next claim k, held by claim k, a move of claim k
      under way, or misused. */
  datatype Use = Free(k: Ticket) | Held(k: Ticket) | Within(k: Ticket) | Misused

  function Judge(u: Use, m: Mark): Use {
    match m
    case Acquire(k) => if u == Free(k) then Held(k) else Misused
    case Enter(k) => if u == Held(k) then Within(k) else Misused
    case Leave(k) => if u == Within(k) then Held(k) else Misused
    case Release(k) => if u == Held(k) then Free(k + 1) else Misused
  }

  function UseOf(log: seq<Mark>): Use {
    if log == [] then Free(0) else Judge(UseOf(log[..|log| - 1]), log[|log| - 1])
  }

  lemma UseOfSnoc(log: seq<Mark>, m: Mark)
    ensures UseOf(log + [m]) == Judge(UseOf(log), m)
  {
    assert (log + [m])[..|log|] == log;
  }

  lemma {:induction false} UseBefore(log: seq<Mark>, k: nat)
    requires k <= |log| && UseOf(log) != Misused
    ensures UseOf(log[..k]) != Misused
  {
    if k == |log| {
      assert log[..k] == log;
    } else {
      assert log[..|log| - 1][..k] == log[..k];
      UseBefore(log[..|log| - 1], k);
    }
  }

  /** A history without misuse, mark by mark: claim 0 comes first; a claim is followed by a move of
      its own or by its release; a move that begins ends before anything else; and after the release
      of claim k comes claim k + 1. */
  lemma MarksInOrder(log: seq<Mark>, j: nat)
    requires UseOf(log) != Misused && j < |log|
    ensures j == 0 ==> log[j] == Acquire(0)
    ensures j + 1 < |log| ==>
              match log[j]
              case Acquire(k) => log[j + 1] == Enter(k) || log[j + 1] == Release(k)
              case Enter(k) => log[j + 1] == Leave(k)
              case Leave(k) => log[j + 1] == Enter(k) || log[j + 1] == Release(k)
              case Release(k) => log[j + 1] == Acquire(k + 1)
  {
    UseBefore(log, j + 1);
    assert log[..j + 1] == log[..j] + [log[j]];
    UseOfSnoc(log[..j], log[j]);
    if j == 0 { assert UseOf(log[..j]) == Free(0); }
    if j + 1 < |log| {
      UseBefore(log, j + 2);
      assert log[..j + 2] == log[..j + 1] + [log[j + 1]];
      UseOfSnoc(log[..j + 1], log[j + 1]);
      hide UseOf;
    }
  }

  predicate Holds(pc: Pc) { !pc.Try? }

  predicate Inspects(pc: Pc) { pc.Running? || pc.Clearing? || (pc.Inside? && pc.run) }

  ghost predicate Holder(s: State, t: Tid) { t in s.threads && Holds(s.threads[t]) }

  ghost predicate Owned(s: State) {
    && (forall t :: t in s.threads ==> t < s.nextTid)
    && (forall t, u :: Holder(s, t) && Holder(s, u) ==> t == u)
    && (s.busy <==> exists t :: Holder(s, t))
    && (!s.busy ==> UseOf(s.log) == Free(s.claims) && !s.inspecting)
    && (forall t :: Holder(s, t) ==>
          && s.threads[t].k + 1 == s.claims
          && UseOf(s.log) == (if s.threads[t].Inside? then Within(s.threads[t].k) else Held(s.threads[t].k))
          && (s.inspecting <==> Inspects(s.threads[t])))
  }

  lemma OwnedStart(s: State, kind: Kind)
    requires Owned(s)
    ensures Owned(Start(s, Try(kind)))
  {
    var n := Start(s, Try(kind));
    hide UseOf;
    forall t ensures Holder(n, t) <==> Holder(s, t) {}
  }

  lemma OwnedTry(s: State, t: Tid, kind: Kind)
    requires Owned(s) && t in s.threads && s.threads[t] == Try(kind)
    ensures Owned(TryStep(s, t, kind))
  {
    UseOfSnoc(s.log, Acquire(s.claims));
    hide UseOf;
    var n := TryStep(s, t, kind);
    if s.busy {
      forall u ensures Holder(n, u) <==> Holder(s, u) {}
    } else {
      assert Holder(n, t);
    }
  }

  /** The hand-over: the run's thread is the only owner once the callback has ended. */
  lemma OwnedTransit(s: State, t: Tid, k: Ticket)
    requires Owned(s) && t in s.threads && s.threads[t] == Transit(k)
    ensures Owned(Start(End(s, t), Starting(k)))
  {
    hide UseOf;
    var n := Start(End(s, t), Starting(k));
    assert Holder(s, t) && Holder(n, s.nextTid) && n.threads[s.nextTid] == Starting(k);
    forall u ensures Holder(n, u) ==> u == s.nextTid || (u != t && Holder(s, u)) {}
  }

  /** The owner goes on owning. */
  lemma OwnedInPlace(s: State, n: State, t: Tid, pc: Pc)
    requires Owned(s) && Holder(s, t) && Holds(pc) && pc.k == s.threads[t].k
    requires n.threads == s.threads[t := pc] && n.nextTid == s.nextTid && n.claims == s.claims && n.busy == s.busy
    requires UseOf(n.log) == (if pc.Inside? then Within(pc.k) else Held(pc.k))
    requires n.inspecting <==> Inspects(pc)
    ensures Owned(n)
  {
    hide UseOf, Inspects;
    assert Holder(n, t);
    forall u ensures Holder(n, u) <==> Holder(s, u) {}
  }

  lemma OnlyHolder(s: State, t: Tid, u: Tid)
    requires Owned(s) && Holder(s, t) && u != t
    ensures !Holder(s, u)
  {}

  lemma HolderFacts(s: State, t: Tid)
    requires Owned(s) && Holder(s, t) && !s.threads[t].Inside?
    ensures UseOf(s.log) == Held(s.threads[t].k) && s.threads[t].k + 1 == s.claims
    ensures s.inspecting <==> Inspects(s.threads[t])
    ensures forall u :: u in s.threads ==> u < s.nextTid
  {}

  lemma FreedOwned(n: State)
    requires !n.busy && !n.inspecting && UseOf(n.log) == Free(n.claims)
    requires forall u :: u in n.threads ==> u < n.nextTid
    requires forall u :: !Holder(n, u)
    ensures Owned(n)
  {}

  lemma OwnedRelease(s: State, t: Tid, k: Ticket)
    requires Owned(s) && t in s.threads && s.threads[t] == Releasing(k)
    ensures Owned(End(Noted(s.(busy := false), Release(k)), t))
  {
    hide Owned, UseOf;
    var n := End(Noted(s.(busy := false), Release(k)), t);
    HolderFacts(s, t);
    UseOfSnoc(s.log, Release(k));
    forall u ensures !Holder(n, u) {
      if u != t { OnlyHolder(s, t, u); }
    }
    FreedOwned(n);
  }

  lemma OwnedStep(s: State, t: Tid, yes: bool)
    requires Owned(s) && Holder(s, t)
    ensures Owned(StepOf(s, t, yes))
  {
    var k, n := s.threads[t].k, StepOf(s, t, yes);
    if s.threads[t].Transit? {
      OwnedTransit(s, t, k);
    } else if s.threads[t].Releasing? {
      OwnedRelease(s, t, k);
    } else {
      UseOfSnoc(s.log, Enter(k));
      UseOfSnoc(s.log, Leave(k));
      OwnedInPlace(s, n, t, n.threads[t]);
    }
  }

  lemma {:induction false} AlwaysOwned(states: seq<State>, actions: seq<Action>, i: nat)
    requires Run(states, actions) && i < |states|
    ensures Owned(states[i])
  {
    if i > 0 {
      AlwaysOwned(states, actions, i - 1);
      hide Owned, UseOf, TryStep;
      var s, a := states[i - 1], actions[i - 1];
      assert Enabled(s, a) && states[i] == Next(s, a);
      match a
      case Request(kind) => OwnedStart(s, kind);
      case Step(t, yes) =>
        if s.threads[t].Try? { OwnedTry(s, t, s.threads[t].kind); } else { OwnedStep(s, t, yes); }
    }
  }

  // ---------- main results ----------

  predicate Moving(s: State, t: Tid) { t in s.threads && s.threads[t].Inside? }

  function Claims(log: seq<Mark>): seq<Ticket> {
    if log == [] then []
    else Claims(log[..|log| - 1]) + if log[|log| - 1].Acquire? then [log[|log| - 1].k] else []
  }

  function Releases(log: seq<Mark>): seq<Ticket> {
    if log == [] then []
    else Releases(log[..|log| - 1]) + if log[|log| - 1].Release? then [log[|log| - 1].k] else []
  }

  function UpTo(n: nat): seq<nat> { seq(n, i => i) }

  /** A history without misuse claims tickets 0, 1, 2, ... and releases each once, in that order. */
  lemma {:induction false} EachClaimReleasedOnce(log: seq<Mark>)
    requires UseOf(log) != Misused
    ensures match UseOf(log)
            case Free(k) => Claims(log) == UpTo(k) && Releases(log) == UpTo(k)
            case Held(k) => Claims(log) == UpTo(k + 1) && Releases(log) == UpTo(k)
            case Within(k) => Claims(log) == UpTo(k + 1) && Releases(log) == UpTo(k)
  {
    if log != [] {
      EachClaimReleasedOnce(log[..|log| - 1]);
    }
  }

  /** In every reachable state of every interleaving: the slot is busy exactly when one thread owns
      it, that owner is unique, at most one thread is inside a move and it is the owner, inspecting
      holds only while a run owns the slot, and every claim so far has been released exactly once
      except the live one. With no thread left the slot is free. */
  lemma MotionExclusion(states: seq<State>, actions: seq<Action>, i: nat)
    requires Run(states, actions) && i < |states|
    ensures var s := states[i];
            && (s.busy <==> exists t :: Holder(s, t))
            && (forall t, u :: Holder(s, t) && Holder(s, u) ==> t == u)
            && (forall t, u :: Moving(s, t) && Moving(s, u) ==> t == u)
            && (s.inspecting ==> s.busy && exists t :: Holder(s, t) && Inspects(s.threads[t]))
            && UseOf(s.log) != Misused
            && Claims(s.log) == UpTo(s.claims)
            && Releases(s.log) == UpTo(|Releases(s.log)|)
            && s.claims == |Releases(s.log)| + (if s.busy then 1 else 0)
            && (s.threads == map[] ==> !s.busy && !s.inspecting)
  {
    AlwaysOwned(states, actions, i);
    var s := states[i];
    hide UseOf, Run;
    EachClaimReleasedOnce(s.log);
    assert forall t :: Moving(s, t) ==> Holder(s, t);
    if s.inspecting {
      var t :| Holder(s, t);
      assert Inspects(s.threads[t]);
    }
  }
}
