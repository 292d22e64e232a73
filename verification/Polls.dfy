/**
  What a pass of the loop makes of what poll reports, slot by slot (src/ftpsrv.c, lines 1440
  to 1515): who is cut off, whose control lines are read, and for whom the engine is called.
*/
module Polls {
  import opened CText
  import opened Session
  import opened Conduct
  import opened Server
  import opened Loop
  import opened Records
  import opened Receives
  import opened Readiness

  /** The client is gone: poll says so, or there is nothing to be received from it. */
  predicate Gone(q: SlotPoll) {
    q.hangup || (q.readable && q.control == [])
  }

  /** The text that has come in on the control connection. */
  function Incoming(q: SlotPoll): string {
    if q.readable then Loop.Received(q.control) else ""
  }

  /** What has come in is taken up to its first NUL, and no more of it than 65535 bytes. */
  lemma ReceivedExact(control: seq<byte>)
    ensures var text := Loop.Received(control);
            && text <= control && |text| <= 65535 && NUL !in text
            && (|text| < |control| ==> |text| == 65535 || control[|text|] == NUL)
  {
  }

  /** The server when the turn of slot `i` comes. */
  ghost function Due(c: Config, sv: Server, p: Poll, i: Slot): Server
    requires Shaped(sv)
  {
    Run(c, sv, AcceptEvents(sv, p) + ServeEvents(sv, p, i))
  }

  /**
    What the turn of a slot makes of its session `st`, given what poll reported: a client that
    is gone is cut off; otherwise all lines that came in are served, busy or not, and then
    the engine is called, if poll said so, a transfer ran at the poll, and one runs now.
  */
  ghost predicate Turned(c: Config, st: St, q: SlotPoll, s: Session, log: seq<Effect>) {
    if Gone(q) then s == BLANK && log != [] && log[|log| - 1] == HungUp
    else
      var u := ServeText(c, st, Incoming(q), q.ios);
      var r := if q.ready && st.s.Busy() && u.s.Busy() then Progress(c, u, q.io) else u;
      s == r.s && log == r.log
  }

  /** Behind the events of a slot come those of later slots. */
  lemma {:induction false} ServeSplit(sv: Server, p: Poll, i: nat, n: nat) returns (later: seq<(Slot, Event)>)
    requires Shaped(sv) && i <= n <= MAX_SESSIONS
    ensures ServeEvents(sv, p, n) == ServeEvents(sv, p, i) + later
    ensures forall e | e in later :: e.0 >= i
  {
    hide SlotEvents;
    if i == n {
      later := [];
    } else {
      later := ServeSplit(sv, p, i, n - 1);
      SlotEventsOwn(n - 1, Asked(sv.sessions[n - 1], p.slots(n - 1)));
      ConcatEvents(ServeEvents(sv, p, i), later, SlotEvents(n - 1, Asked(sv.sessions[n - 1], p.slots(n - 1))));
      later := later + SlotEvents(n - 1, Asked(sv.sessions[n - 1], p.slots(n - 1)));
    }
  }

  lemma ConcatEvents(a: seq<(Slot, Event)>, b: seq<(Slot, Event)>, d: seq<(Slot, Event)>)
    ensures (a + b) + d == a + (b + d)
  {
  }

  /** A client that is gone is cut off, whatever else was reported. */
  lemma CutOff(c: Config, t: Server, i: Slot, q: SlotPoll)
    requires Shaped(t) && t.sessions[i].active && Gone(q)
    ensures var r := Run(c, t, SlotEvents(i, Asked(t.sessions[i], q)));
            r.sessions[i] == BLANK && r.logs[i] != [] && r.logs[i][|r.logs[i]| - 1] == HungUp
  {
    hide Run, Step, Commands, Loop.Received;
    var a := Asked(t.sessions[i], q);
    var first: (Slot, Event) := (i, Disconnect(q.io));
    var second: seq<(Slot, Event)> := if a.ready then [(i, DataReady(q.io))] else [];
    assert ControlEvents(i, a) == [first];
    RunConcat(c, t, [first], second);
    RunOne(c, t, first);
    var u := At(c, t, i, first.1);
    ClosedStep(c, View(t, i), q.io);
    if a.ready {
      RunOne(c, u, (i, DataReady(q.io)));
      BlankDeaf(c, View(u, i), q.io);
    } else {
      RunNothing(c, u);
    }
  }

  lemma ClosedStep(c: Config, st: St, io: Io)
    requires st.s.active
    ensures var r := Step(c, st, Disconnect(io)); r.s == BLANK && r.log != [] && r.log[|r.log| - 1] == HungUp
  {
    hide TransferEnd;
  }

  lemma BlankDeaf(c: Config, st: St, io: Io)
    requires st.s == BLANK
    ensures Step(c, st, DataReady(io)) == st
  {
    hide Progress;
  }

  /** Otherwise its lines are served, and then the engine is called where it is due. */
  lemma Served(c: Config, t: Server, i: Slot, q: SlotPoll)
    requires SvGood(c, t) && t.sessions[i].active && !Gone(q)
    ensures var r := Run(c, t, SlotEvents(i, Asked(t.sessions[i], q)));
            Turned(c, View(t, i), q, r.sessions[i], r.logs[i])
  {
    hide SvGood, Run, Step, ServeText, Loop.Received, Commands;
    GoodShaped(c, t);
    var a := Asked(t.sessions[i], q);
    var lines := Commands(i, Incoming(q), q.ios);
    NoCommands(i, q.ios);
    assert ControlEvents(i, a) == lines;
    var u := Run(c, t, lines);
    ServeTextIsRun(c, t, i, Incoming(q), q.ios);
    var second: seq<(Slot, Event)> := if a.ready then [(i, DataReady(q.io))] else [];
    RunConcat(c, t, lines, second);
    if a.ready {
      RunOne(c, u, (i, DataReady(q.io)));
      RunGood(c, t, lines);
      SlotActive(c, u, i);
      EngineCalled(c, View(u, i), q.io);
    } else {
      RunNothing(c, u);
    }
  }

  lemma NoCommands(i: Slot, ios: seq<Io>)
    ensures Commands(i, "", ios) == []
  {
  }

  /** Accepting and the turns of earlier slots leave a slot as it was. */
  lemma StillDue(c: Config, sv: Server, p: Poll, i: Slot)
    requires SvGood(c, sv) && sv.sessions[i].active
    ensures var t := Due(c, sv, p, i);
            SvGood(c, t) && t.sessions[i] == sv.sessions[i] && t.logs[i] == sv.logs[i]
  {
    hide SvGood, Run, ServeEvents;
    GoodShaped(c, sv);
    var evs := AcceptEvents(sv, p) + ServeEvents(sv, p, i);
    ServeBelow(sv, p, i);
    forall e | e in evs ensures e.0 != i { }
    RunElsewhere(c, sv, evs, i);
    RunGood(c, sv, evs);
  }

  /**
    Every slot that was active at the poll is dealt with as poll reported it: when its turn
    comes it is as it was, and at the end of the pass it is as its turn has left it.  Its
    lines are those of the text that came in, each of them, busy or not.
  */
  lemma SlotDealtWith(c: Config, sv: Server, p: Poll, i: Slot)
    requires SvGood(c, sv) && !p.failed && !p.serverError && sv.sessions[i].active
    ensures var t := Due(c, sv, p, i);
            var r := Run(c, sv, PassEvents(sv, p));
            && t.sessions[i] == sv.sessions[i] && t.logs[i] == sv.logs[i]
            && Turned(c, View(t, i), p.slots(i), r.sessions[i], r.logs[i])
            && LinesOf(r.logs[i]) ==
               LinesOf(sv.logs[i]) + (if Gone(p.slots(i)) then [] else Lines(Incoming(p.slots(i))))
  {
    hide SvGood, Run, ServeEvents, SlotEvents, AcceptEvents, Turned, Lines, LinesOf, Incoming;
    GoodShaped(c, sv);
    StillDue(c, sv, p, i);
    var t := Due(c, sv, p, i);
    var own := SlotEvents(i, Asked(sv.sessions[i], p.slots(i)));
    TurnTaken(c, t, i, p.slots(i));
    TurnLines(c, t, i, p.slots(i));
    var later := ServeSplit(sv, p, i + 1, MAX_SESSIONS);
    NextTurn(sv, p, i);
    PassParts(AcceptEvents(sv, p), ServeEvents(sv, p, i), own, later);
    RunConcat(c, sv, AcceptEvents(sv, p) + ServeEvents(sv, p, i), own);
    RunConcat(c, sv, AcceptEvents(sv, p) + ServeEvents(sv, p, i) + own, later);
    RunElsewhere(c, Run(c, t, own), later, i);
  }

  lemma NextTurn(sv: Server, p: Poll, i: Slot)
    requires Shaped(sv)
    ensures ServeEvents(sv, p, i + 1) == ServeEvents(sv, p, i) + SlotEvents(i, Asked(sv.sessions[i], p.slots(i)))
  {
    hide SlotEvents;
  }

  lemma PassParts(a: seq<(Slot, Event)>, b: seq<(Slot, Event)>, d: seq<(Slot, Event)>, e: seq<(Slot, Event)>)
    ensures a + ((b + d) + e) == ((a + b) + d) + e
  {
  }

  lemma TurnTaken(c: Config, t: Server, i: Slot, q: SlotPoll)
    requires SvGood(c, t) && t.sessions[i].active
    ensures var r := Run(c, t, SlotEvents(i, Asked(t.sessions[i], q)));
            Turned(c, View(t, i), q, r.sessions[i], r.logs[i])
  {
    hide SvGood, Run, SlotEvents, ServeText, Incoming;
    GoodShaped(c, t);
    if Gone(q) { CutOff(c, t, i, q); } else { Served(c, t, i, q); }
  }

  /** The lines that a turn reads. */
  lemma TurnLines(c: Config, t: Server, i: Slot, q: SlotPoll)
    requires SvGood(c, t) && t.sessions[i].active
    ensures var r := Run(c, t, SlotEvents(i, Asked(t.sessions[i], q)));
            LinesOf(r.logs[i]) == LinesOf(t.logs[i]) + (if Gone(q) then [] else Lines(Incoming(q)))
  {
    hide SvGood, Run, SlotEvents, Step, Good, ServeText, Incoming, LinesOf, PortsOf, Lines, Turned, SessionClose;
    GoodShaped(c, t);
    SlotActive(c, t, i);
    if Gone(q) {
      GoneLines(c, t, i, q);
    } else {
      TurnTaken(c, t, i, q);
      ServedLines(c, View(t, i), q);
    }
  }

  lemma ServedLines(c: Config, st: St, q: SlotPoll)
    requires Good(c, st) && st.s.active && !Gone(q)
    ensures forall s, log | Turned(c, st, q, s, log) :: LinesOf(log) == LinesOf(st.log) + Lines(Incoming(q))
  {
    hide Good, ServeText, Incoming, LinesOf, PortsOf, Lines, Progress, Step;
    var u := ServeText(c, st, Incoming(q), q.ios);
    ServeTextReads(c, st, Incoming(q), q.ios);
    if u.s.Busy() {
      EngineCalled(c, u, q.io);
      StepRecords(c, u, DataReady(q.io));
      assert LinesOf(u.log) + [] == LinesOf(u.log);
    }
  }

  lemma GoneLines(c: Config, t: Server, i: Slot, q: SlotPoll)
    requires Shaped(t) && t.sessions[i].active && Gone(q)
    ensures LinesOf(Run(c, t, SlotEvents(i, Asked(t.sessions[i], q))).logs[i]) == LinesOf(t.logs[i]) + []
  {
    hide Run, Step, Commands, Loop.Received, LinesOf, PortsOf;
    var a := Asked(t.sessions[i], q);
    var first: (Slot, Event) := (i, Disconnect(q.io));
    var second: seq<(Slot, Event)> := if a.ready then [(i, DataReady(q.io))] else [];
    assert ControlEvents(i, a) == [first];
    RunConcat(c, t, [first], second);
    RunOne(c, t, first);
    var u := At(c, t, i, first.1);
    StepRecords(c, View(t, i), first.1);
    if a.ready {
      RunOne(c, u, (i, DataReady(q.io)));
      StepRecords(c, View(u, i), DataReady(q.io));
      assert LinesOf(u.logs[i]) + [] == LinesOf(u.logs[i]);
    } else {
      RunNothing(c, u);
    }
  }
}
