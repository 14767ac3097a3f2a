/** The events about the driver link, as broadcast by the watchdog among everything else. */
module BridgeDriver {
  import opened SafetyEvents
  import opened BridgeNode
  import opened BridgeSystem

  predicate AboutDriver(m: Message) { m.Notice? && (m.event.DriverOk? || m.event.DriverLost?) }

  /** The driver events broadcast, in order. */
  function Announced(outbox: seq<Entry>): seq<Event> {
    if outbox == [] then []
    else
      var m := outbox[|outbox| - 1].message;
      Announced(outbox[..|outbox| - 1]) + if AboutDriver(m) then [m.event] else []
  }

  lemma AnnouncedSnoc(outbox: seq<Entry>, e: Entry)
    ensures Announced(outbox + [e]) == Announced(outbox) + if AboutDriver(e.message) then [e.message.event] else []
  {
    assert (outbox + [e])[..|outbox|] == outbox;
  }

  /** The verdict a further tick is compared with. */
  function Last(verdicts: seq<bool>): bool { verdicts != [] && verdicts[|verdicts| - 1] }

  lemma {:induction false} EventsSnoc(prev: bool, verdicts: seq<bool>, alive: bool)
    ensures var before := if verdicts == [] then prev else verdicts[|verdicts| - 1];
            DriverEvents(prev, verdicts + [alive]) ==
            DriverEvents(prev, verdicts) + if alive == before then [] else [if alive then DriverOk else DriverLost]
    decreases |verdicts|
  {
    if verdicts == [] {
      assert [alive][1..] == [] && [] + [alive] == [alive];
      assert DriverEvents(alive, []) == [];
    } else {
      assert (verdicts + [alive])[1..] == verdicts[1..] + [alive];
      EventsSnoc(verdicts[0], verdicts[1..], alive);
    }
  }

  ghost predicate Announcing(s: State) {
    Announced(s.outbox) == DriverEvents(false, s.driver.verdicts) && s.driver.alive == Last(s.driver.verdicts)
  }

  /** A step with nothing to say about the driver. */
  ghost predicate Mute(s: State, s': State) {
    && s'.driver == s.driver
    && (s'.outbox == s.outbox
        || (s'.outbox != [] && s'.outbox == s.outbox + [s'.outbox[|s'.outbox| - 1]] && !AboutDriver(s'.outbox[|s'.outbox| - 1].message)))
  }

  lemma MuteKeeps(s: State, s': State)
    requires Announcing(s) && Mute(s, s')
    ensures Announcing(s')
  {
    if s'.outbox != s.outbox { AnnouncedSnoc(s.outbox, s'.outbox[|s'.outbox| - 1]); }
    assert Announced(s.outbox) + [] == Announced(s.outbox);
    hide Announced, DriverEvents;
  }

  lemma MuteSections(s: State, t: Tid, c: ClientId, id: string, arg: string)
    ensures Mute(s, ClaimStep(s, t, c, id, arg)) && Mute(s, CancelStep(s, t, c, id, arg))
  {
    hide Claimed, CancelApplies;
  }

  lemma MuteDispatch(s: State, t: Tid, c: ClientId, line: Command, yes: bool)
    ensures Mute(s, DispatchStep(s, t, c, line, yes))
  {
    hide ClaimStep, CancelStep;
    if line.Motion? { MuteSections(s, t, c, line.id, line.cmd); }
    if line.Cancel? { MuteSections(s, t, c, line.id, line.target); }
  }

  lemma MuteIo(s: State, t: Tid, pc: Pc, yes: bool)
    requires IoPc(pc)
    ensures Mute(s, IoStep(s, t, pc, yes))
  {
    hide DispatchStep;
    if pc.Dispatch? { MuteDispatch(s, t, pc.from, pc.line, yes); }
  }

  lemma MuteStop(s: State, t: Tid, pc: Pc, yes: bool)
    requires StopPc(pc)
    ensures Mute(s, StopStep(s, t, pc, yes))
  {
    hide StopRequested;
  }

  lemma MuteAnswer(s: State, t: Tid, pc: Pc)
    requires AnswerPc(pc)
    ensures Mute(s, AnswerStep(s, t, pc))
  {}

  lemma MuteDeadman(s: State, t: Tid, pc: Pc, yes: bool)
    requires DeadmanPc(pc) && !pc.TickDriver?
    ensures Mute(s, DeadmanStep(s, t, pc, yes))
  {}

  lemma DriverKeeps(s: State, t: Tid, alive: bool)
    requires Announcing(s)
    ensures Announcing(DriverStep(s, t, alive))
  {
    var d := s.driver.verdicts;
    EventsSnoc(false, d, alive);
    AnnouncedSnoc(s.outbox, Entry(Notice(if alive then DriverOk else DriverLost), 0 in s.clients, None));
    assert DriverEvents(false, d) + [] == DriverEvents(false, d);
    hide Announced, DriverEvents;
  }

  lemma DoAnnounces(s: State, t: Tid, yes: bool)
    requires Announcing(s) && t in s.threads
    ensures Announcing(DoStep(s, t, yes))
  {
    hide IoStep, StopStep, AnswerStep, DriverStep, Announcing, Mute;
    var pc := s.threads[t];
    if pc.TickDriver? {
      DriverKeeps(s, t, pc.alive);
    } else {
      if IoPc(pc) { MuteIo(s, t, pc, yes); }
      else if StopPc(pc) { MuteStop(s, t, pc, yes); }
      else if AnswerPc(pc) { MuteAnswer(s, t, pc); }
      else { MuteDeadman(s, t, pc, yes); }
      hide DeadmanStep;
      MuteKeeps(s, DoStep(s, t, yes));
    }
  }

  lemma AnnouncingKept(s: State, a: Action)
    requires Announcing(s) && Enabled(s, a)
    ensures Announcing(Next(s, a))
  {
    hide DoStep, Tagged, Completed, Fed, Opened, Announcing;
    if a.Do? { DoAnnounces(s, a.t, a.yes); } else { MuteKeeps(s, Next(s, a)); }
  }

  /** In every interleaving the driver events broadcast are those of the watchdog's verdicts, one
      for each change from a link that starts lost; so they alternate, and the first is DRIVER_OK. */
  lemma {:induction false} DriverEventsBroadcast(states: seq<State>, actions: seq<Action>, i: nat)
    requires Run(states, actions) && i < |states|
    ensures Announcing(states[i])
    ensures Announced(states[i].outbox) == DriverEvents(false, states[i].driver.verdicts)
    ensures forall k :: 0 <= k < |Announced(states[i].outbox)| ==>
              Announced(states[i].outbox)[k] == if k % 2 == 0 then DriverOk else DriverLost
  {
    if i > 0 {
      DriverEventsBroadcast(states, actions, i - 1);
      var s, a := states[i - 1], actions[i - 1];
      assert Enabled(s, a) && states[(i - 1) + 1] == Next(s, a);
      AnnouncingKept(s, a);
    }
    var verdicts := states[i].driver.verdicts;
    assert Announcing(states[i]);
    hide Announced, DriverEvents, Next;
    forall k | 0 <= k < |DriverEvents(false, verdicts)|
      ensures DriverEvents(false, verdicts)[k] == if k % 2 == 0 then DriverOk else DriverLost
    {
      DriverEventsAlternate(verdicts, k);
    }
  }
}
