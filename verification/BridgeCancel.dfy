/** No cancel and no stop is lost on a run_inspection job, whatever it races with. */
module BridgeCancel {
  import opened BridgeNode
  import opened BridgeSystem
  import opened BridgeSlot

  /** The invocation is certain to call async_cancel_goal on goal k. */
  predicate WillCancel(pc: Pc, k: nat) {
    pc == CancelGoal(k) || (pc.AckCancel? && pc.stored == Some(k))
  }

  /** Whether handler h's wish to cancel job k is still in good hands: done, about to be done by h
      or by the goal's response callback, or noted for that callback, which has not stored the
      goal yet. */
  ghost predicate Kept(s: State, h: Tid, k: nat) {
    || k in s.cancelled
    || (h in s.threads && WillCancel(s.threads[h], k))
    || (k in s.accepted && k in s.responder && s.responder[k] in s.threads && s.threads[s.responder[k]] == CancelGoal(k))
    || (k !in s.accepted && (k == s.serial && s.slot.active ==> s.slot.cancel))
  }

  ghost predicate Wishes(s: State) {
    && (forall w :: w in s.wants ==> 0 < w.1 <= s.serial && Kept(s, w.0, w.1))
    && (forall t :: t in s.threads && s.threads[t].GoalAccepted? ==>
          s.threads[t].job.serial in s.responder && s.responder[s.threads[t].job.serial] == t)
  }

  /** A step of t that touches none of the parties of a wish. */
  lemma WishesBystander(s: State, s': State, t: Tid)
    requires Wishes(s)
    requires s'.wants == s.wants && s'.cancelled == s.cancelled && s'.accepted == s.accepted && s'.responder == s.responder
    requires s'.serial == s.serial && (s'.slot.active ==> s.slot.active && (s.slot.cancel ==> s'.slot.cancel))
    requires t in s.threads ==>
      !s.threads[t].CancelGoal? && (s.threads[t].AckCancel? && s.threads[t].stored.Some? ==>
                                      t in s'.threads && s'.threads[t] == CancelGoal(s.threads[t].stored.value))
    requires t in s'.threads ==> !s'.threads[t].GoalAccepted?
    requires forall u :: u != t ==> (u in s'.threads <==> u in s.threads) && (u in s.threads ==> s'.threads[u] == s.threads[u])
    ensures Wishes(s')
  {
    forall w | w in s'.wants ensures Kept(s', w.0, w.1) { assert Kept(s, w.0, w.1); }
  }

  lemma WishesClaim(s: State, t: Tid, c: ClientId, id: string, cmd: string)
    requires Slots(s) && Wishes(s) && t in s.threads && s.threads[t].Dispatch? && !s.slot.active
    ensures Wishes(ClaimStep(s, t, c, id, cmd))
  {
    var s' := ClaimStep(s, t, c, id, cmd);
    forall w | w in s'.wants ensures Kept(s', w.0, w.1) { assert Kept(s, w.0, w.1); }
  }

  lemma WishesCancel(s: State, t: Tid, c: ClientId, id: string, target: string)
    requires Slots(s) && Wishes(s) && t in s.threads && s.threads[t].Dispatch? && CancelApplies(s.slot, target)
    ensures Wishes(CancelStep(s, t, c, id, target))
  {
    var s' := CancelStep(s, t, c, id, target);
    forall w | w in s'.wants ensures 0 < w.1 <= s'.serial && Kept(s', w.0, w.1) {
      if w in s.wants { assert Kept(s, w.0, w.1); }
    }
  }

  lemma WishesDispatch(s: State, t: Tid, c: ClientId, line: Command, yes: bool)
    requires Slots(s) && Wishes(s) && t in s.threads && s.threads[t].Dispatch?
    ensures Wishes(DispatchStep(s, t, c, line, yes))
  {
    hide Slots, Wishes;
    if line.Motion? && yes && line.valid && !s.slot.active {
      WishesClaim(s, t, c, line.id, line.cmd);
    } else if line.Cancel? && CancelApplies(s.slot, line.target) {
      WishesCancel(s, t, c, line.id, line.target);
    } else {
      WishesBystander(s, DispatchStep(s, t, c, line, yes), t);
    }
  }

  lemma WishesIo(s: State, t: Tid, pc: Pc, yes: bool)
    requires Slots(s) && Wishes(s) && t in s.threads && pc == s.threads[t] && IoPc(pc)
    ensures Wishes(IoStep(s, t, pc, yes))
  {
    hide Slots, Wishes, DispatchStep;
    if pc.Dispatch? { WishesDispatch(s, t, pc.from, pc.line, yes); }
    else { WishesBystander(s, IoStep(s, t, pc, yes), t); }
  }

  lemma SectionKeeps(s: State, t: Tid, yes: bool, w: (Tid, nat))
    requires t in s.threads && s.threads[t].StopSection? && Kept(s, w.0, w.1)
    ensures Kept(StopStep(s, t, StopSection, yes), w.0, w.1)
  {}

  lemma SectionRecords(s: State, t: Tid, yes: bool)
    requires Slots(s) && t in s.threads && s.threads[t].StopSection? && RunActive(s.slot)
    ensures s.serial > 0 && Kept(StopStep(s, t, StopSection, yes), t, s.serial)
  {}

  lemma WishesSection(s: State, t: Tid, yes: bool)
    requires Slots(s) && Wishes(s) && t in s.threads && s.threads[t].StopSection?
    ensures Wishes(StopStep(s, t, StopSection, yes))
  {
    hide Slots, Kept, StopRequested;
    var s' := StopStep(s, t, StopSection, yes);
    forall w | w in s'.wants ensures 0 < w.1 <= s'.serial && Kept(s', w.0, w.1) {
      if w in s.wants { SectionKeeps(s, t, yes, w); } else { SectionRecords(s, t, yes); }
    }
  }

  lemma WishesCall(s: State, t: Tid, goal: nat, yes: bool)
    requires Slots(s) && Wishes(s) && t in s.threads && s.threads[t] == CancelGoal(goal)
    ensures Wishes(StopStep(s, t, CancelGoal(goal), yes))
  {
    var s' := StopStep(s, t, CancelGoal(goal), yes);
    forall w | w in s'.wants ensures Kept(s', w.0, w.1) { assert Kept(s, w.0, w.1); }
  }

  lemma WishesStop(s: State, t: Tid, pc: Pc, yes: bool)
    requires Slots(s) && Wishes(s) && t in s.threads && pc == s.threads[t] && StopPc(pc)
    ensures Wishes(StopStep(s, t, pc, yes))
  {
    hide Slots, Wishes;
    if pc.StopSection? { WishesSection(s, t, yes); }
    else if pc.CancelGoal? { WishesCall(s, t, pc.goal, yes); }
    else { WishesBystander(s, StopStep(s, t, pc, yes), t); }
  }

  /** The goal response callback either sees the flag and cancels, or nobody had asked. */
  lemma WishesAnswer(s: State, t: Tid, pc: Pc)
    requires Slots(s) && Wishes(s) && t in s.threads && pc == s.threads[t] && AnswerPc(pc)
    ensures Wishes(AnswerStep(s, t, pc))
  {
    var s' := AnswerStep(s, t, pc);
    if pc.GoalAccepted? {
      forall w | w in s'.wants ensures Kept(s', w.0, w.1) { assert Kept(s, w.0, w.1); }
    } else {
      WishesBystander(s, s', t);
    }
  }

  lemma WishesDeadman(s: State, t: Tid, pc: Pc, yes: bool)
    requires Wishes(s) && t in s.threads && pc == s.threads[t] && DeadmanPc(pc)
    ensures Wishes(DeadmanStep(s, t, pc, yes))
  {
    hide Wishes;
    WishesBystander(s, DeadmanStep(s, t, pc, yes), t);
  }

  lemma WishesRespond(s: State, k: nat)
    requires Threads(s) && Slots(s) && Wishes(s) && Enabled(s, RespondAccept(k))
    ensures Wishes(Next(s, RespondAccept(k)))
  {
    var s' := Next(s, RespondAccept(k));
    assert k in s.awaiting.Keys;
    assert k == s.serial && k !in s.accepted && s.awaiting[k].job.serial == k;
    forall w | w in s'.wants ensures Kept(s', w.0, w.1) { assert Kept(s, w.0, w.1); }
  }

  lemma WishesKept(s: State, a: Action)
    requires Threads(s) && Slots(s) && Wishes(s) && Enabled(s, a)
    ensures Wishes(Next(s, a))
  {
    hide IoStep, StopStep, AnswerStep, DeadmanStep, Slots, Wishes, Tagged, Completed, Fed, Opened;
    match a
    case RespondAccept(k) => WishesRespond(s, k);
    case Do(t, yes) =>
      var pc := s.threads[t];
      if IoPc(pc) { WishesIo(s, t, pc, yes); }
      else if StopPc(pc) { WishesStop(s, t, pc, yes); }
      else if AnswerPc(pc) { WishesAnswer(s, t, pc); }
      else { WishesDeadman(s, t, pc, yes); }
    case _ => WishesBystander(s, Next(s, a), s.nextTid);
  }

  lemma {:induction false} WishInvariant(states: seq<State>, actions: seq<Action>, i: nat)
    requires Run(states, actions) && i < |states|
    ensures Wishes(states[i])
  {
    if i > 0 {
      WishInvariant(states, actions, i - 1);
      SlotInvariants(states, actions, i - 1);
      var s, a := states[i - 1], actions[i - 1];
      assert Enabled(s, a) && states[(i - 1) + 1] == Next(s, a);
      WishesKept(s, a);
    }
  }

  /** No lost cancel: handler h ran its cancel or stop section while run_inspection job k held the
      slot; k's goal was accepted, before or after; h and the goal_response callback are over.
      Then async_cancel_goal has been called on k's goal. */
  lemma NoLostCancel(states: seq<State>, actions: seq<Action>, i: nat, h: Tid, k: nat)
    requires Run(states, actions) && i < |states|
    requires (h, k) in states[i].wants && k in states[i].accepted
    requires h !in states[i].threads
    requires k in states[i].responder ==> states[i].responder[k] !in states[i].threads
    ensures k in states[i].cancelled
  {
    WishInvariant(states, actions, i);
    assert Kept(states[i], h, k);
  }

  predicate SectionOfWish(s: State, pc: Pc) {
    RunActive(s.slot) && (pc.StopSection? || (pc.Dispatch? && pc.line.Cancel? && CancelApplies(s.slot, pc.line.target)))
  }

  lemma RecordedBySections(s: State, t: Tid, c: ClientId, id: string, arg: string)
    ensures ClaimStep(s, t, c, id, arg).wants == s.wants
    ensures CancelStep(s, t, c, id, arg).wants ==
            s.wants + if RunActive(s.slot) && CancelApplies(s.slot, arg) then {(t, s.serial)} else {}
  {
    hide Claimed, CancelApplies;
  }

  lemma RecordedByDispatch(s: State, t: Tid, c: ClientId, line: Command, yes: bool)
    ensures DispatchStep(s, t, c, line, yes).wants ==
            s.wants + if SectionOfWish(s, Dispatch(c, line)) then {(t, s.serial)} else {}
  {
    hide CancelApplies, ClaimStep, CancelStep, RunActive;
    if line.Motion? { RecordedBySections(s, t, c, line.id, line.cmd); }
    if line.Cancel? { RecordedBySections(s, t, c, line.id, line.target); }
  }

  lemma RecordedByIo(s: State, t: Tid, pc: Pc, yes: bool)
    requires IoPc(pc)
    ensures IoStep(s, t, pc, yes).wants == s.wants + if SectionOfWish(s, pc) then {(t, s.serial)} else {}
  {
    hide DispatchStep, CancelApplies;
    if pc.Dispatch? { RecordedByDispatch(s, t, pc.from, pc.line, yes); }
  }

  lemma RecordedElsewhere(s: State, t: Tid, pc: Pc, yes: bool)
    ensures StopPc(pc) ==> StopStep(s, t, pc, yes).wants == s.wants + if SectionOfWish(s, pc) then {(t, s.serial)} else {}
    ensures AnswerPc(pc) ==> AnswerStep(s, t, pc).wants == s.wants
    ensures DeadmanPc(pc) ==> DeadmanStep(s, t, pc, yes).wants == s.wants
  {}

  /** Every cancel or stop section executed while a run_inspection is active records a wish, and
      nothing else does: the theorem above leaves none of them out. */
  lemma SectionsRecordWishes(s: State, t: Tid, yes: bool)
    requires t in s.threads
    ensures DoStep(s, t, yes).wants == s.wants + if SectionOfWish(s, s.threads[t]) then {(t, s.serial)} else {}
  {
    hide IoStep, StopStep, AnswerStep, DeadmanStep, CancelApplies;
    if IoPc(s.threads[t]) { RecordedByIo(s, t, s.threads[t], yes); } else { RecordedElsewhere(s, t, s.threads[t], yes); }
  }

  /** A dispatched cancel, by the id it names. The active command's own id, or none, sets the flag,
      and on a run_inspection is noted as a wish; any other id, or a free slot, is answered
      NOT_RUNNING and moves nothing. */
  lemma CancelByTarget(s: State, t: Tid, c: ClientId, id: string, target: string, yes: bool)
    requires t in s.threads && s.threads[t] == Dispatch(c, Cancel(id, target))
    ensures var s' := Next(s, Do(t, yes));
            if s.slot.active && (target == "" || target == s.slot.id) then
              && s'.slot == s.slot.(cancel := true) && s'.outbox == s.outbox
              && t in s'.threads && s'.threads[t] == AckCancel(c, id, s.slot.goal)
              && s'.wants == s.wants + (if s.slot.cmd == "run_inspection" then {(t, s.serial)} else {})
            else
              && s'.slot == s.slot && s'.wants == s.wants && t !in s'.threads
              && s'.outbox == s.outbox + [Entry(Ack(c, id, false, "NOT_RUNNING"), c in s.clients, None)]
    ensures var s' := Next(s, Do(t, yes)); s'.cancelled == s.cancelled && s'.stoppedBy == s.stoppedBy && s'.serial == s.serial
  {}

  lemma WantsGrow(s: State, a: Action)
    requires Enabled(s, a)
    ensures s.wants <= Next(s, a).wants
  {
    hide IoStep, StopStep, AnswerStep, DeadmanStep, DoStep, SectionOfWish, Tagged, Completed, Fed, Opened;
    if a.Do? { SectionsRecordWishes(s, a.t, a.yes); }
  }

  lemma {:induction false} WantsStay(states: seq<State>, actions: seq<Action>, i: nat, j: nat)
    requires Run(states, actions) && i <= j < |states|
    ensures states[i].wants <= states[j].wants
    decreases j - i
  {
    hide Next, Enabled;
    if i < j {
      WantsStay(states, actions, i, j - 1);
      assert Enabled(states[j - 1], actions[j - 1]) && states[(j - 1) + 1] == Next(states[j - 1], actions[j - 1]);
      WantsGrow(states[j - 1], actions[j - 1]);
    }
  }

  /** From the line to the call: step i of a run dispatches, as invocation t, a cancel that names
      the run_inspection then in the slot, or no id at all. Whenever that goal has been accepted and
      neither t nor the goal's response callback is still at work, async_cancel_goal has been called. */
  lemma CancelReachesGoal(states: seq<State>, actions: seq<Action>, i: nat, j: nat, t: Tid, yes: bool,
                          c: ClientId, id: string, target: string)
    requires Run(states, actions) && i < j < |states| && actions[i] == Do(t, yes)
    requires t in states[i].threads && states[i].threads[t] == Dispatch(c, Cancel(id, target))
    requires states[i].slot.active && states[i].slot.cmd == "run_inspection" && (target == "" || target == states[i].slot.id)
    requires states[i].serial in states[j].accepted && t !in states[j].threads
    requires states[i].serial in states[j].responder ==> states[j].responder[states[i].serial] !in states[j].threads
    ensures states[i].serial in states[j].cancelled
  {
    hide Next, Enabled;
    assert Enabled(states[i], actions[i]) && states[i + 1] == Next(states[i], actions[i]);
    CancelByTarget(states[i], t, c, id, target, yes);
    WantsStay(states, actions, i + 1, j);
    NoLostCancel(states, actions, j, t, states[i].serial);
  }
}
