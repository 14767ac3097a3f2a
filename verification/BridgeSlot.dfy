/** The job slot as a linear obligation: at most one accepted command at a time owes a result,
    and only its own callback frees the slot. */
module BridgeSlot {
  import opened SafetyEvents
  import opened BridgeNode
  import opened BridgeSystem

  /** The job whose answer an invocation has taken on. */
  function Carried(pc: Pc): Option<Job> {
    match pc
    case AckClaim(job) => Some(job)
    case SetPhase(job) => Some(job)
    case Submit(job) => Some(job)
    case GoalAccepted(job) => Some(job)
    case GoalRejected(job) => Some(job)
    case Terminal(job) => Some(job)
    case Release(job) => Some(job)
    case _ => None
  }

  /** Before the goal handle is stored (goals only exist for run_inspection). */
  predicate BeforeGoal(pc: Pc) {
    pc.AckClaim? || pc.SetPhase? || pc.Submit? || pc.GoalAccepted? || pc.GoalRejected?
  }

  ghost predicate Carrying(s: State) {
    && (forall t :: t in s.threads ==> (Carried(s.threads[t]).Some? <==> s.holder == Thread(t)))
    && (s.holder.Thread? ==> s.holder.t in s.threads && Carried(s.threads[s.holder.t]) == Some(Current(s)))
    && (s.holder.Thread? && BeforeGoal(s.threads[s.holder.t]) ==> s.serial !in s.accepted)
    && (s.holder.Thread? && (s.threads[s.holder.t].GoalAccepted? || s.threads[s.holder.t].GoalRejected?) ==> IsRun(Current(s)))
  }

  ghost predicate Remotely(s: State) {
    && s.awaiting.Keys == (if s.holder.Remote? then {s.serial} else {})
    && (s.holder.Remote? ==>
          s.awaiting[s.serial] == (if s.serial in s.accepted then Outcome(Current(s)) else Response(Current(s))))
    && (s.holder.Remote? && s.serial in s.accepted ==> IsRun(Current(s)))
  }

  ghost predicate SlotShape(s: State) {
    && (s.slot.active <==> s.holder != Nobody)
    && (!s.slot.active ==> s.slot == FREE)
    && (s.slot.goal.Some? ==> RunActive(s.slot) && s.slot.goal.value == s.serial)
    && (s.slot.active ==> (s.slot.goal.Some? <==> s.serial in s.accepted) && s.serial > 0)
    && (forall k :: k in s.accepted ==> 0 < k <= s.serial)
  }

  ghost predicate Slots(s: State) { Carrying(s) && Remotely(s) && SlotShape(s) }

  // ---------- preservation ----------

  /** The parts Slots reads, apart from the threads. */
  ghost predicate SameSlot(s: State, s': State) {
    && s'.slot == s.slot.(cancel := s'.slot.cancel) && (!s.slot.active ==> s'.slot == s.slot)
    && s'.awaiting == s.awaiting && s'.serial == s.serial && s'.holder == s.holder && s'.accepted == s.accepted
  }

  /** A step of an invocation that carries nothing before or after it. */
  ghost predicate Aside(s: State, s': State, t: Tid) {
    && SameSlot(s, s')
    && (t in s.threads ==> Carried(s.threads[t]).None?)
    && (t in s'.threads ==> Carried(s'.threads[t]).None?)
    && (forall u :: u != t ==> (u in s'.threads <==> u in s.threads) && (u in s.threads ==> s'.threads[u] == s.threads[u]))
  }

  lemma Bystander(s: State, s': State, t: Tid)
    requires Slots(s) && Aside(s, s', t)
    ensures Slots(s')
  {}

  lemma AsideCancel(s: State, t: Tid, c: ClientId, id: string, target: string)
    requires SlotShape(s) && t in s.threads && Carried(s.threads[t]).None?
    ensures Aside(s, CancelStep(s, t, c, id, target), t)
  {}

  lemma AsideDispatch(s: State, t: Tid, c: ClientId, line: Command, yes: bool)
    requires SlotShape(s) && t in s.threads && Carried(s.threads[t]).None?
    requires !(line.Motion? && yes && line.valid && !s.slot.active)
    ensures Aside(s, DispatchStep(s, t, c, line, yes), t)
  {
    hide ClaimStep, CancelStep, SlotShape;
    if line.Cancel? { AsideCancel(s, t, c, line.id, line.target); }
  }

  lemma AsideStop(s: State, t: Tid, pc: Pc, yes: bool)
    requires SlotShape(s) && t in s.threads && pc == s.threads[t] && StopPc(pc)
    ensures Aside(s, StopStep(s, t, pc, yes), t)
  {}

  lemma AsideDriver(s: State, t: Tid, alive: bool)
    requires t in s.threads && s.threads[t] == TickDriver(alive)
    ensures Aside(s, DriverStep(s, t, alive), t)
  {}

  lemma AsideDeadman(s: State, t: Tid, pc: Pc, yes: bool)
    requires t in s.threads && pc == s.threads[t] && DeadmanPc(pc)
    ensures Aside(s, DeadmanStep(s, t, pc, yes), t)
  {
    hide DriverStep;
    if pc.TickDriver? { AsideDriver(s, t, pc.alive); }
  }

  lemma AsideIo(s: State, t: Tid, pc: Pc, yes: bool)
    requires t in s.threads && pc == s.threads[t] && (pc.AckCancel? || pc.Disconnected?)
    ensures Aside(s, IoStep(s, t, pc, yes), t)
  {}

  lemma SlotsClaim(s: State, t: Tid, c: ClientId, id: string, cmd: string)
    requires Slots(s) && t in s.threads && !s.slot.active
    ensures Slots(ClaimStep(s, t, c, id, cmd))
  {}

  lemma SlotsDispatch(s: State, t: Tid, c: ClientId, line: Command, yes: bool)
    requires Slots(s) && t in s.threads && Carried(s.threads[t]).None?
    ensures Slots(DispatchStep(s, t, c, line, yes))
  {
    assert SlotShape(s);
    hide Slots;
    if line.Motion? && yes && line.valid && !s.slot.active {
      SlotsClaim(s, t, c, line.id, line.cmd);
    } else {
      AsideDispatch(s, t, c, line, yes);
      hide DispatchStep, Aside;
      Bystander(s, DispatchStep(s, t, c, line, yes), t);
    }
  }

  lemma SlotsAcked(s: State, t: Tid, job: Job, yes: bool)
    requires Slots(s) && t in s.threads && s.threads[t] == AckClaim(job)
    ensures Slots(IoStep(s, t, AckClaim(job), yes))
  {}

  lemma SlotsPhased(s: State, t: Tid, job: Job, yes: bool)
    requires Slots(s) && t in s.threads && s.threads[t] == SetPhase(job)
    ensures Slots(IoStep(s, t, SetPhase(job), yes))
  {}

  lemma SlotsSubmitted(s: State, t: Tid, job: Job, yes: bool)
    requires Slots(s) && t in s.threads && s.threads[t] == Submit(job)
    ensures Slots(IoStep(s, t, Submit(job), yes))
  {}

  lemma SlotsIo(s: State, t: Tid, pc: Pc, yes: bool)
    requires Slots(s) && t in s.threads && pc == s.threads[t] && IoPc(pc)
    ensures Slots(IoStep(s, t, pc, yes))
  {
    hide DispatchStep, Slots, Aside;
    match pc
    case Dispatch(c, line) => SlotsDispatch(s, t, c, line, yes);
    case AckCancel(_, _, _) => AsideIo(s, t, pc, yes); Bystander(s, IoStep(s, t, pc, yes), t);
    case Disconnected(_) => AsideIo(s, t, pc, yes); Bystander(s, IoStep(s, t, pc, yes), t);
    case AckClaim(job) => SlotsAcked(s, t, job, yes);
    case SetPhase(job) => SlotsPhased(s, t, job, yes);
    case Submit(job) => SlotsSubmitted(s, t, job, yes);
  }

  lemma SlotsStop(s: State, t: Tid, pc: Pc, yes: bool)
    requires Slots(s) && t in s.threads && pc == s.threads[t] && StopPc(pc)
    ensures Slots(StopStep(s, t, pc, yes))
  {
    AsideStop(s, t, pc, yes);
    hide Slots, StopStep, Aside;
    Bystander(s, StopStep(s, t, pc, yes), t);
  }

  lemma SlotsDeadman(s: State, t: Tid, pc: Pc, yes: bool)
    requires Slots(s) && t in s.threads && pc == s.threads[t] && DeadmanPc(pc)
    ensures Slots(DeadmanStep(s, t, pc, yes))
  {
    AsideDeadman(s, t, pc, yes);
    hide Slots, DeadmanStep, Aside;
    Bystander(s, DeadmanStep(s, t, pc, yes), t);
  }

  lemma SlotsAccepted(s: State, t: Tid, job: Job)
    requires Slots(s) && t in s.threads && s.threads[t] == GoalAccepted(job)
    ensures Slots(AnswerStep(s, t, GoalAccepted(job)))
  {
    var s' := AnswerStep(s, t, GoalAccepted(job));
    assert job == Current(s) && Current(s') == job && s.awaiting == map[];
    assert s'.awaiting.Keys == {s.serial};
    assert forall u :: u in s.threads && u != t ==> Carried(s.threads[u]).None?;
  }

  lemma SlotsReleased(s: State, t: Tid, job: Job)
    requires Slots(s) && t in s.threads && s.threads[t] == Release(job)
    ensures Slots(AnswerStep(s, t, Release(job)))
  {}

  lemma SlotsReported(s: State, t: Tid, pc: Pc)
    requires Slots(s) && t in s.threads && s.threads[t] == pc && (pc.GoalRejected? || pc.Terminal?)
    ensures Slots(AnswerStep(s, t, pc))
  {}

  lemma SlotsAnswer(s: State, t: Tid, pc: Pc)
    requires Slots(s) && t in s.threads && pc == s.threads[t] && AnswerPc(pc)
    ensures Slots(AnswerStep(s, t, pc))
  {
    hide Slots, AnswerStep;
    if pc.GoalAccepted? { SlotsAccepted(s, t, pc.job); }
    else if pc.Release? { SlotsReleased(s, t, pc.job); }
    else { SlotsReported(s, t, pc); }
  }

  /** A remote answer arrives: the duty moves to a fresh invocation. */
  lemma SlotsOutgoing(s: State, k: nat, pc: Pc)
    requires Slots(s) && Threads(s) && k in s.awaiting
    requires pc == Terminal(s.awaiting[k].job)
          || (s.awaiting[k].Response? && IsRun(s.awaiting[k].job)
              && (pc == GoalAccepted(s.awaiting[k].job) || pc == GoalRejected(s.awaiting[k].job)))
    ensures Slots(Outgoing(s, k, pc))
  {
    assert k in s.awaiting.Keys;
    assert s.awaiting - {k} == map[];
  }

  lemma SlotsKept(s: State, a: Action)
    requires Threads(s) && Slots(s) && Enabled(s, a)
    ensures Slots(Next(s, a))
  {
    hide IoStep, StopStep, AnswerStep, DeadmanStep, Slots, Threads, Tagged, Completed, Fed, Opened;
    match a
    case RespondAccept(k) =>
      var s1 := s.(responder := s.responder[k := s.nextTid]);
      assert Threads(s1) && Slots(s1) by { ResponderUnseen(s, k); }
      SlotsOutgoing(s1, k, GoalAccepted(s.awaiting[k].job));
    case RespondReject(k) => SlotsOutgoing(s, k, GoalRejected(s.awaiting[k].job));
    case RespondService(k) => SlotsOutgoing(s, k, Terminal(s.awaiting[k].job));
    case Finish(k) => SlotsOutgoing(s, k, Terminal(s.awaiting[k].job));
    case Do(t, yes) =>
      var pc := s.threads[t];
      if IoPc(pc) { SlotsIo(s, t, pc, yes); }
      else if StopPc(pc) { SlotsStop(s, t, pc, yes); }
      else if AnswerPc(pc) { SlotsAnswer(s, t, pc); }
      else { SlotsDeadman(s, t, pc, yes); }
    case _ => FreshUnused(s); Bystander(s, Next(s, a), s.nextTid);
  }

  lemma ResponderUnseen(s: State, k: nat)
    requires Threads(s) && Slots(s)
    ensures Threads(s.(responder := s.responder[k := s.nextTid])) && Slots(s.(responder := s.responder[k := s.nextTid]))
  {}

  lemma FreshUnused(s: State)
    requires Threads(s)
    ensures s.nextTid !in s.threads
  {}

  // ---------- the conversation on the wire ----------

  /** Accepting acks and results of motion commands, read in the order they were sent. */
  datatype Talk = Quiet(last: nat) | Promised(job: Job) | Misordered

  function Hear(talk: Talk, e: Entry): Talk {
    if e.about.None? then talk
    else
      var job := e.about.value;
      match e.message
      case Ack(to, id, ok, _) =>
        if talk.Quiet? && talk.last < job.serial && ok && to == job.client && id == job.id then Promised(job) else Misordered
      case Result(to, id, _) =>
        if talk == Promised(job) && to == job.client && id == job.id then Quiet(job.serial) else Misordered
      case _ => Misordered
  }

  function TalkOf(outbox: seq<Entry>): Talk {
    if outbox == [] then Quiet(0) else Hear(TalkOf(outbox[..|outbox| - 1]), outbox[|outbox| - 1])
  }

  lemma TalkSnoc(outbox: seq<Entry>, e: Entry)
    ensures TalkOf(outbox + [e]) == Hear(TalkOf(outbox), e)
  {
    assert (outbox + [e])[..|outbox|] == outbox;
  }

  lemma {:induction false} TalkBefore(outbox: seq<Entry>, k: nat)
    requires k <= |outbox| && TalkOf(outbox) != Misordered
    ensures TalkOf(outbox[..k]) != Misordered
  {
    if k == |outbox| {
      assert outbox[..k] == outbox;
    } else {
      var most := outbox[..|outbox| - 1];
      assert most[..k] == outbox[..k];
      TalkBefore(most, k);
    }
  }

  /** Where the last message about a job leaves the talk. */
  lemma {:induction false} LastSaid(outbox: seq<Entry>, j: nat)
    requires j < |outbox| && outbox[j].about.Some? && TalkOf(outbox) != Misordered
    requires forall m :: j < m < |outbox| ==> outbox[m].about.None?
    ensures var job, m := outbox[j].about.value, outbox[j].message;
            || (m.Ack? && m.ok && m.to == job.client && m.id == job.id && TalkOf(outbox) == Promised(job))
            || (m.Result? && m.to == job.client && m.id == job.id && TalkOf(outbox) == Quiet(job.serial))
  {
    var most := outbox[..|outbox| - 1];
    if j < |most| {
      assert most[j] == outbox[j];
      LastSaid(most, j);
    }
  }

  /** A conversation in order: of two neighbouring messages about jobs, an accepting ack is followed
      by the result of the same job, a result by the accepting ack of a newer one. */
  lemma SaidNext(outbox: seq<Entry>, j: nat, k: nat)
    requires TalkOf(outbox) != Misordered && j < k < |outbox| && outbox[j].about.Some? && outbox[k].about.Some?
    requires forall m :: j < m < k ==> outbox[m].about.None?
    ensures if outbox[j].message.Ack? then outbox[k].message.Result? && outbox[k].about == outbox[j].about
            else outbox[j].message.Result? && outbox[k].message.Ack? && outbox[k].about.value.serial > outbox[j].about.value.serial
    ensures outbox[k].message.to == outbox[k].about.value.client && outbox[k].message.id == outbox[k].about.value.id
  {
    hide TalkOf;
    TalkBefore(outbox, k);
    TalkBefore(outbox, k + 1);
    assert outbox[..k + 1] == outbox[..k] + [outbox[k]];
    TalkSnoc(outbox[..k], outbox[k]);
    LastSaid(outbox[..k], j);
  }

  /** The first message about a job is an accepting ack. */
  lemma {:induction false} FirstSaid(outbox: seq<Entry>, k: nat)
    requires TalkOf(outbox) != Misordered && k < |outbox| && outbox[k].about.Some?
    requires forall m :: 0 <= m < k ==> outbox[m].about.None?
    ensures outbox[k].message.Ack? && outbox[k].message.ok
  {
    TalkBefore(outbox, k + 1);
    assert outbox[..k + 1] == outbox[..k] + [outbox[k]];
    TalkSnoc(outbox[..k], outbox[k]);
    Unsaid(outbox[..k]);
  }

  lemma {:induction false} Unsaid(outbox: seq<Entry>)
    requires forall m :: 0 <= m < |outbox| ==> outbox[m].about.None?
    ensures TalkOf(outbox) == Quiet(0)
  {
    if outbox != [] { Unsaid(outbox[..|outbox| - 1]); }
  }

  /** What has been said so far, given who holds the duty. */
  ghost predicate Talks(s: State) {
    var talk := TalkOf(s.outbox);
    match s.holder
    case Nobody => talk.Quiet? && talk.last <= s.serial
    case Remote => talk == Promised(Current(s))
    case Thread(t) =>
      t in s.threads &&
      match s.threads[t]
      case AckClaim(_) => talk.Quiet? && talk.last < s.serial
      case Release(_) => talk == Quiet(s.serial)
      case _ => talk == Promised(Current(s))
  }

  /** Messages about no job leave the talk where it was. */
  lemma TalkUnsaid(s: State, to: ClientId, m: Message)
    ensures TalkOf(Post(s, to, m, None).outbox) == TalkOf(s.outbox)
  {
    TalkSnoc(s.outbox, Entry(m, to in s.clients, None));
  }

  lemma TalksBystander(s: State, s': State, t: Tid)
    requires Slots(s) && Talks(s) && Aside(s, s', t) && TalkOf(s'.outbox) == TalkOf(s.outbox)
    ensures Talks(s')
  {
    hide TalkOf;
  }

  lemma DispatchUnsaid(s: State, t: Tid, c: ClientId, line: Command, yes: bool)
    requires !(line.Motion? && yes && line.valid && !s.slot.active)
    ensures TalkOf(DispatchStep(s, t, c, line, yes).outbox) == TalkOf(s.outbox)
  {
    hide TalkOf, CancelApplies;
    match line
    case NotCommand =>
    case Malformed => TalkUnsaid(s, c, Ack(c, "", false, "BAD_JSON"));
    case WrongVersion(id) => TalkUnsaid(s, c, Ack(c, id, false, "SCHEMA_MISMATCH"));
    case Unknown(id) => TalkUnsaid(s, c, Ack(c, id, false, "UNKNOWN_CMD"));
    case Ping(id) => TalkUnsaid(s, c, Ack(c, id, true, ""));
    case Stop(id) => TalkUnsaid(s, c, Ack(c, id, true, ""));
    case Cancel(id, _) => TalkUnsaid(s, c, Ack(c, id, false, "NOT_RUNNING"));
    case Motion(id, _, _) =>
      TalkUnsaid(s, c, Ack(c, id, false, "SERVICE_UNAVAILABLE"));
      TalkUnsaid(s, c, Ack(c, id, false, "BAD_ARGS"));
      TalkUnsaid(s, c, Ack(c, id, false, "BUSY"));
  }

  lemma TalksDispatch(s: State, t: Tid, c: ClientId, line: Command, yes: bool)
    requires Slots(s) && Talks(s) && t in s.threads && Carried(s.threads[t]).None?
    ensures Talks(DispatchStep(s, t, c, line, yes))
  {
    hide Talks, TalkOf;
    if line.Motion? && yes && line.valid && !s.slot.active {
      TalksClaim(s, t, c, line.id, line.cmd);
    } else {
      DispatchUnsaid(s, t, c, line, yes);
      AsideDispatch(s, t, c, line, yes);
      hide Slots, DispatchStep, Aside;
      TalksBystander(s, DispatchStep(s, t, c, line, yes), t);
    }
  }

  lemma TalksClaim(s: State, t: Tid, c: ClientId, id: string, cmd: string)
    requires Slots(s) && Talks(s) && t in s.threads && !s.slot.active
    ensures Talks(ClaimStep(s, t, c, id, cmd))
  {
    hide TalkOf;
  }

  lemma TalksIo(s: State, t: Tid, pc: Pc, yes: bool)
    requires Slots(s) && Talks(s) && t in s.threads && pc == s.threads[t] && IoPc(pc)
    ensures Talks(IoStep(s, t, pc, yes))
  {
    hide DispatchStep, TalkOf;
    match pc
    case Dispatch(c, line) => TalksDispatch(s, t, c, line, yes);
    case AckCancel(c, id, _) =>
      TalkUnsaid(s, c, Ack(c, id, true, ""));
      AsideIo(s, t, pc, yes);
      hide Talks, Slots, Aside;
      TalksBystander(s, IoStep(s, t, pc, yes), t);
    case Disconnected(_) =>
      AsideIo(s, t, pc, yes);
      hide Talks, Slots, Aside;
      TalksBystander(s, IoStep(s, t, pc, yes), t);
    case AckClaim(job) =>
      TalkSnoc(s.outbox, Entry(Ack(job.client, job.id, true, ""), job.client in s.clients, Some(job)));
    case _ =>
  }

  lemma TalksStop(s: State, t: Tid, pc: Pc, yes: bool)
    requires Slots(s) && Talks(s) && t in s.threads && pc == s.threads[t] && StopPc(pc)
    ensures Talks(StopStep(s, t, pc, yes))
  {
    AsideStop(s, t, pc, yes);
    hide Slots, Talks, TalkOf, Aside;
    TalkUnsaid(s.(stoppedBy := s.stoppedBy + {t}), 0, Notice(StopNotDelivered));
    TalksBystander(s, StopStep(s, t, pc, yes), t);
  }

  lemma TalksDeadman(s: State, t: Tid, pc: Pc, yes: bool)
    requires Slots(s) && Talks(s) && t in s.threads && pc == s.threads[t] && DeadmanPc(pc)
    ensures Talks(DeadmanStep(s, t, pc, yes))
  {
    AsideDeadman(s, t, pc, yes);
    hide Slots, Talks, TalkOf, Aside;
    TalkUnsaid(s, 0, Notice(DeadmanStop));
    if pc.TickDriver? {
      TalkUnsaid(s.(driver := Driver(pc.alive, s.driver.verdicts + [pc.alive])), 0, Notice(if pc.alive then DriverOk else DriverLost));
    }
    TalksBystander(s, DeadmanStep(s, t, pc, yes), t);
  }

  lemma TalksAccepted(s: State, t: Tid, job: Job)
    requires Slots(s) && Talks(s) && t in s.threads && s.threads[t] == GoalAccepted(job)
    ensures Talks(AnswerStep(s, t, GoalAccepted(job)))
  {
    hide TalkOf;
  }

  lemma TalksReleased(s: State, t: Tid, job: Job)
    requires Slots(s) && Talks(s) && t in s.threads && s.threads[t] == Release(job)
    ensures Talks(AnswerStep(s, t, Release(job)))
  {
    hide TalkOf;
  }

  /** The holder's job is the one in the slot, and its acceptance was the last thing said. */
  lemma TalksOfHolder(s: State, t: Tid)
    requires Slots(s) && Talks(s) && t in s.threads && (s.threads[t].GoalRejected? || s.threads[t].Terminal?)
    ensures s.holder == Thread(t) && s.threads[t].job == Current(s) && TalkOf(s.outbox) == Promised(Current(s))
  {
    hide TalkOf;
  }

  /** The result that ends the conversation about the job in the slot. */
  lemma TalksReported(s: State, t: Tid, pc: Pc, status: string)
    requires Slots(s) && Talks(s) && t in s.threads && s.threads[t] == pc
    requires (pc.GoalRejected? && status == "REJECTED") || (pc.Terminal? && status == "")
    ensures Talks(AnswerStep(s, t, pc))
  {
    var job := pc.job;
    var e := Entry(Result(job.client, job.id, status), job.client in s.clients, Some(job));
    TalksOfHolder(s, t);
    TalkSnoc(s.outbox, e);
    hide TalkOf, Slots;
    var s' := AnswerStep(s, t, pc);
    assert s'.outbox == s.outbox + [e] && s'.threads[t] == Release(job) && s'.holder == Thread(t) && s'.serial == job.serial;
  }

  lemma TalksAnswer(s: State, t: Tid, pc: Pc)
    requires Slots(s) && Talks(s) && t in s.threads && pc == s.threads[t] && AnswerPc(pc)
    ensures Talks(AnswerStep(s, t, pc))
  {
    hide TalkOf, Talks, Slots, AnswerStep;
    if pc.GoalAccepted? { TalksAccepted(s, t, pc.job); }
    else if pc.Release? { TalksReleased(s, t, pc.job); }
    else { TalksReported(s, t, pc, if pc.GoalRejected? then "REJECTED" else ""); }
  }

  /** An answer that arrives says nothing yet. */
  lemma TalksOutgoing(s: State, k: nat, pc: Pc)
    requires Slots(s) && Talks(s) && k in s.awaiting && (pc.GoalAccepted? || pc.GoalRejected? || pc.Terminal?)
    ensures Talks(Outgoing(s, k, pc))
  {
    hide TalkOf;
    assert k in s.awaiting.Keys;
  }

  lemma ResponderSilent(s: State, k: nat)
    requires Slots(s) && Talks(s)
    ensures Slots(s.(responder := s.responder[k := s.nextTid])) && Talks(s.(responder := s.responder[k := s.nextTid]))
  {
    hide TalkOf;
  }

  lemma TalksKept(s: State, a: Action)
    requires Threads(s) && Slots(s) && Talks(s) && Enabled(s, a)
    ensures Talks(Next(s, a))
  {
    hide IoStep, StopStep, AnswerStep, DeadmanStep, Tagged, Completed, Fed, Opened, TalkOf, Slots, Talks, Threads, Outgoing;
    match a
    case RespondAccept(k) =>
      ResponderSilent(s, k);
      TalksOutgoing(s.(responder := s.responder[k := s.nextTid]), k, GoalAccepted(s.awaiting[k].job));
    case RespondReject(k) => TalksOutgoing(s, k, GoalRejected(s.awaiting[k].job));
    case RespondService(k) => TalksOutgoing(s, k, Terminal(s.awaiting[k].job));
    case Finish(k) => TalksOutgoing(s, k, Terminal(s.awaiting[k].job));
    case Do(t, yes) =>
      var pc := s.threads[t];
      if IoPc(pc) { TalksIo(s, t, pc, yes); }
      else if StopPc(pc) { TalksStop(s, t, pc, yes); }
      else if AnswerPc(pc) { TalksAnswer(s, t, pc); }
      else { TalksDeadman(s, t, pc, yes); }
    case _ => FreshUnused(s); TalksBystander(s, Next(s, a), s.nextTid);
  }

  // ---------- over whole runs ----------

  lemma {:induction false} SlotInvariants(states: seq<State>, actions: seq<Action>, i: nat)
    requires Run(states, actions) && i < |states|
    ensures Threads(states[i]) && Slots(states[i]) && Talks(states[i])
  {
    if i > 0 {
      SlotInvariants(states, actions, i - 1);
      var s, a := states[i - 1], actions[i - 1];
      assert Enabled(s, a) && states[(i - 1) + 1] == Next(s, a);
      ThreadsKept(s, a);
      SlotsKept(s, a);
      TalksKept(s, a);
    }
  }

  /** The invocations and remote calls that owe the active command its terminal callback. */
  ghost function Duties(s: State): set<Holder> {
    (set t | t in s.threads && Carried(s.threads[t]).Some? :: Thread(t)) + (if s.awaiting != map[] then {Remote} else {})
  }

  /** job_active_ holds exactly when one claimed command awaits its terminal callback, and then
      there is just the one; whoever holds the duty holds it for the very command in the slot, so
      release_job only ever frees that command; a stored goal belongs to the active run_inspection. */
  lemma LinearObligation(states: seq<State>, actions: seq<Action>, i: nat)
    requires Run(states, actions) && i < |states|
    ensures var s := states[i];
            && (s.slot.active <==> |Duties(s)| == 1)
            && (!s.slot.active <==> Duties(s) == {})
            && (forall t :: t in s.threads && Carried(s.threads[t]).Some? ==> Carried(s.threads[t]).value == Current(s))
            && (forall k :: k in s.awaiting ==> s.awaiting[k].job == Current(s) && |s.awaiting| == 1)
            && (s.slot.goal.Some? ==> RunActive(s.slot) && s.slot.goal.value == s.serial)
  {
    SlotInvariants(states, actions, i);
    var s := states[i];
    var expected := if s.holder == Nobody then {} else {s.holder};
    forall h ensures h in Duties(s) <==> h in expected {
      if h.Remote? && s.holder.Remote? { assert s.serial in s.awaiting.Keys; }
      if h.Remote? && s.awaiting != map[] { assert s.awaiting.Keys != {}; }
    }
    assert Duties(s) == expected;
    forall k | k in s.awaiting ensures s.awaiting[k].job == Current(s) && |s.awaiting| == 1 {
      assert k in s.awaiting.Keys && |s.awaiting| == |s.awaiting.Keys|;
    }
  }

  /** Accepted motion acks and results strictly alternate over every run as ack(x), result(x),
      ack(y), result(y), ... for ever newer commands. */
  lemma AcksAndResultsAlternate(states: seq<State>, actions: seq<Action>, i: nat)
    requires Run(states, actions) && i < |states|
    ensures TalkOf(states[i].outbox) != Misordered
    ensures !states[i].slot.active ==> TalkOf(states[i].outbox).Quiet?
  {
    SlotInvariants(states, actions, i);
    hide TalkOf;
  }

  /** The same over the messages themselves: entries j and k of what a run has sent are about motion
      commands and none between them is. If j is an accepting ack, k is the result of the same
      command; otherwise j is a result and k the accepting ack of a newer one; and k goes to the
      client, with the id, of its command. */
  lemma AckThenResult(states: seq<State>, actions: seq<Action>, i: nat, j: nat, k: nat)
    requires Run(states, actions) && i < |states| && j < k < |states[i].outbox|
    requires states[i].outbox[j].about.Some? && states[i].outbox[k].about.Some?
    requires forall m :: j < m < k ==> states[i].outbox[m].about.None?
    ensures var first, second := states[i].outbox[j], states[i].outbox[k];
            && (if first.message.Ack? then second.message.Result? && second.about == first.about
                else first.message.Result? && second.message.Ack? && second.about.value.serial > first.about.value.serial)
            && second.message.to == second.about.value.client && second.message.id == second.about.value.id
  {
    AcksAndResultsAlternate(states, actions, i);
    SaidNext(states[i].outbox, j, k);
  }
}
