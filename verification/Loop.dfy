/**
  One pass of the server loop as a list of events: what poll and recv return decides the
  events, and the events decide everything else (src/ftpsrv.c, lines 1377 to 1515).
*/
module Loop {
  import opened CText
  import opened Session
  import opened Server
  import N = NxFile

  // ------------------------------------------------------------------ line splitting

  /** The complete lines of a received text, each with its CRLF. */
  function Lines(text: string): seq<string>
    decreases |text|
  {
    var n := FindCrlf(text);
    if n < |text| then [text[..n + 2]] + Lines(text[n + 2..]) else []
  }

  /** What is left behind the last CRLF; the next receive overwrites it. */
  function Remainder(text: string): string
    decreases |text|
  {
    var n := FindCrlf(text);
    if n < |text| then Remainder(text[n + 2..]) else text
  }

  /** The prefix of a text up to its first CRLF has that CRLF as its first, at its end. */
  lemma FirstLine(text: string)
    requires FindCrlf(text) < |text|
    ensures FindCrlf(text[..FindCrlf(text) + 2]) == FindCrlf(text)
  {
    var n := FindCrlf(text);
    var line := text[..n + 2];
    assert CrlfAt(line, n);
    assert forall k | 0 <= k < n :: CrlfAt(line, k) == CrlfAt(text, k);
  }

  /**
    Splitting loses nothing: lines and remainder give back the text, a line has its only
    CRLF at its end, and the remainder has none.
  */
  lemma SplitExact(text: string)
    ensures Flatten(Lines(text)) + Remainder(text) == text
    ensures forall l | l in Lines(text) :: |l| >= 2 && FindCrlf(l) == |l| - 2
    ensures FindCrlf(Remainder(text)) == |Remainder(text)|
  {
    hide FindCrlf, Flatten, Lines, Remainder;
    SplitConserves(text);
    SplitAtCrlf(text);
    RemainderUncut(text);
  }

  lemma {:induction false} SplitConserves(text: string)
    ensures Flatten(Lines(text)) + Remainder(text) == text
    decreases |text|
  {
    hide FindCrlf, Flatten, Lines, Remainder;
    var n := FindCrlf(text);
    SplitUnfold(text);
    if n < |text| {
      var line, rest := text[..n + 2], text[n + 2..];
      SplitConserves(rest);
      assert text == line + rest;
      SplitStep(line, rest, Lines(rest), Remainder(rest));
    } else {
      SplitNothing(text);
    }
  }

  lemma SplitUnfold(text: string)
    ensures var n := FindCrlf(text);
            if n < |text| then
              && Lines(text) == [text[..n + 2]] + Lines(text[n + 2..])
              && Remainder(text) == Remainder(text[n + 2..])
            else Lines(text) == [] && Remainder(text) == text
  {
    hide FindCrlf;
  }

  lemma {:induction false} SplitAtCrlf(text: string)
    ensures forall l | l in Lines(text) :: |l| >= 2 && FindCrlf(l) == |l| - 2
    decreases |text|
  {
    hide FindCrlf;
    var n := FindCrlf(text);
    if n < |text| {
      SplitAtCrlf(text[n + 2..]);
      FirstLine(text);
    }
  }

  lemma {:induction false} RemainderUncut(text: string)
    ensures FindCrlf(Remainder(text)) == |Remainder(text)|
    decreases |text|
  {
    hide FindCrlf;
    var n := FindCrlf(text);
    if n < |text| { RemainderUncut(text[n + 2..]); }
  }

  lemma SplitStep(line: string, rest: string, ls: seq<string>, r: string)
    requires Flatten(ls) + r == rest
    ensures Flatten([line] + ls) + r == line + rest
  {
    hide Flatten;
    FlattenCons(line, ls);
    ConcatAssociative(line, Flatten(ls), r);
  }

  lemma SplitNothing(text: string)
    ensures Flatten([]) + text == text
  {
  }

  // -------------------------------------------------------------------- a pass's events

  /** Answers for a command about which nothing is known: every call fails. */
  const NO_IO: Io := Io([], [], false, false, Missing, "", false, [], false, map[], 0, false, false, false,
                        [0, 0, 0, 0], N.ReadFail, [], RecvFails)

  function FirstIo(ios: seq<Io>): Io {
    if ios == [] then NO_IO else ios[0]
  }

  function RestIos(ios: seq<Io>): seq<Io> {
    if ios == [] then [] else ios[1..]
  }

  /** One command for each complete line; a handler sees the text from its line on. */
  function Commands(i: Slot, text: string, ios: seq<Io>): seq<(Slot, Event)>
    decreases |text|
  {
    var n := FindCrlf(text);
    if n < |text| then [(i, Command(text, FirstIo(ios)))] + Commands(i, text[n + 2..], RestIos(ios)) else []
  }

  /** What poll reports about a slot's two sockets, and what the calls made on them return. */
  datatype SlotPoll = SlotPoll(hangup: bool, readable: bool, control: seq<byte>, ios: seq<Io>, ready: bool, io: Io)

  datatype Poll = Poll(failed: bool, serverError: bool, incoming: bool, accept: Io, slots: Slot -> SlotPoll)

  /** The received text: at most a buffer less one byte, up to its first NUL. */
  function Received(control: seq<byte>): string {
    Text(if |control| < FILE_BUFFER_SIZE then control else control[..FILE_BUFFER_SIZE - 1])
  }

  /** poll reports nothing for sockets it was not asked about. */
  function Asked(s: Session, p: SlotPoll): SlotPoll {
    p.(hangup := p.hangup && s.active, readable := p.readable && s.active, ready := p.ready && s.active && s.Busy())
  }

  /** What poll is asked about for a session: nothing at all, for the data socket of an idle one. */
  function ControlFd(s: Session): int {
    if s.active then s.controlSock else -1
  }

  function DataFd(s: Session): int {
    if s.active && s.Busy() then s.dataSock else -1
  }

  /** Its sockets are real where it has any. */
  predicate Pollable(s: Session) {
    (s.active ==> s.controlSock > 0) && (s.Busy() ==> s.active && s.dataSock > 0)
  }

  function ControlEvents(i: Slot, p: SlotPoll): seq<(Slot, Event)> {
    if p.hangup || (p.readable && p.control == []) then [(i, Disconnect(p.io))]
    else if p.readable then Commands(i, Received(p.control), p.ios)
    else []
  }

  function SlotEvents(i: Slot, p: SlotPoll): seq<(Slot, Event)> {
    ControlEvents(i, p) + (if p.ready then [(i, DataReady(p.io))] else [])
  }

  /** The first slot at or after `i` that is free. */
  function FirstFree(ss: seq<Session>, i: nat): (k: nat)
    requires i <= |ss|
    ensures i <= k <= |ss|
    ensures k < |ss| ==> !ss[k].active
    ensures forall j | i <= j < k :: ss[j].active
    decreases |ss| - i
  {
    if i == |ss| || !ss[i].active then i else FirstFree(ss, i + 1)
  }

  function AcceptEvents(sv: Server, p: Poll): seq<(Slot, Event)>
    requires Shaped(sv)
  {
    var k := FirstFree(sv.sessions, 0);
    if p.incoming && k < MAX_SESSIONS then [(k, Connect(p.accept))] else []
  }

  /** The events of the slots below `n`, judged by the table as it was when poll was called. */
  function ServeEvents(sv: Server, p: Poll, n: nat): seq<(Slot, Event)>
    requires Shaped(sv) && n <= MAX_SESSIONS
  {
    if n == 0 then [] else ServeEvents(sv, p, n - 1) + SlotEvents(n - 1, Asked(sv.sessions[n - 1], p.slots(n - 1)))
  }

  /** The events of one pass; a failed poll or a broken server socket ends it at once. */
  function PassEvents(sv: Server, p: Poll): seq<(Slot, Event)>
    requires Shaped(sv)
  {
    if p.failed || p.serverError then [] else AcceptEvents(sv, p) + ServeEvents(sv, p, MAX_SESSIONS)
  }

  /** The commands of a received text on one session. */
  function ServeText(c: Config, st: St, text: string, ios: seq<Io>): St
    decreases |text|
  {
    var n := FindCrlf(text);
    if n < |text| then ServeText(c, Step(c, st, Command(text, FirstIo(ios))), text[n + 2..], RestIos(ios)) else st
  }

  /** What the run of a text's commands leaves of the server: slot `i` and the world. */
  predicate Serves(sv: Server, sv': Server, i: Slot, r: St)
    requires Shaped(sv)
  {
    sv' == Server(sv.sessions[i := r.s], sv.logs[i := r.log], r.w, sv.count)
  }

  /** Serving a text on a slot is the run of its commands. */
  lemma {:induction false} ServeTextIsRun(c: Config, sv: Server, i: Slot, text: string, ios: seq<Io>)
    requires Shaped(sv)
    ensures Serves(sv, Run(c, sv, Commands(i, text, ios)), i, ServeText(c, View(sv, i), text, ios))
    decreases |text|
  {
    hide Step, FindCrlf, Run, At;
    var n := FindCrlf(text);
    if n < |text| {
      var e := (i, Command(text, FirstIo(ios)));
      var u := At(c, sv, i, e.1);
      RunOne(c, sv, e);
      RunConcat(c, sv, [e], Commands(i, text[n + 2..], RestIos(ios)));
      CommandAt(c, sv, i, text, FirstIo(ios));
      ServeTextIsRun(c, u, i, text[n + 2..], RestIos(ios));
      var r := Step(c, View(sv, i), e.1);
      ServesThen(sv, u, Run(c, u, Commands(i, text[n + 2..], RestIos(ios))), i, r,
                 ServeText(c, r, text[n + 2..], RestIos(ios)));
    } else {
      ServesNothing(c, sv, i);
    }
  }

  lemma ServesThen(sv: Server, u: Server, sv': Server, i: Slot, r: St, r': St)
    requires Shaped(sv) && Serves(sv, u, i, r) && Serves(u, sv', i, r')
    ensures Serves(sv, sv', i, r')
  {
    assert sv.sessions[i := r.s][i := r'.s] == sv.sessions[i := r'.s];
    assert sv.logs[i := r.log][i := r'.log] == sv.logs[i := r'.log];
  }

  lemma ServesNothing(c: Config, sv: Server, i: Slot)
    requires Shaped(sv)
    ensures Serves(sv, Run(c, sv, []), i, View(sv, i))
  {
    assert sv.sessions[i := sv.sessions[i]] == sv.sessions;
    assert sv.logs[i := sv.logs[i]] == sv.logs;
  }

  lemma CommandAt(c: Config, sv: Server, i: Slot, text: string, io: Io)
    requires Shaped(sv)
    ensures var r := Step(c, View(sv, i), Command(text, io));
            var u := At(c, sv, i, Command(text, io));
            Shaped(u) && Serves(sv, u, i, r) && View(u, i) == r
  {
    hide Step;
  }

  lemma RunOne(c: Config, sv: Server, e: (Slot, Event))
    requires Shaped(sv)
    ensures Run(c, sv, [e]) == At(c, sv, e.0, e.1)
  {
    hide At;
    assert [e][..0] == [];
  }

  /** Any number of passes, one after the other. */
  function Passes(c: Config, sv: Server, ps: seq<Poll>): (sv': Server)
    requires Shaped(sv)
    ensures Shaped(sv')
  {
    if ps == [] then sv
    else
      var u := Passes(c, sv, ps[..|ps| - 1]);
      Run(c, u, PassEvents(u, ps[|ps| - 1]))
  }

  lemma {:induction false} RunConcat(c: Config, sv: Server, a: seq<(Slot, Event)>, b: seq<(Slot, Event)>)
    requires Shaped(sv)
    ensures Run(c, sv, a + b) == Run(c, Run(c, sv, a), b)
  {
    hide At;
    if b == [] {
      assert a + b == a;
    } else {
      var n := |b| - 1;
      assert (a + b)[..|a + b| - 1] == a + b[..n];
      RunConcat(c, sv, a, b[..n]);
    }
  }

  /** Everything proved of runs holds after any number of passes. */
  lemma {:induction false} PassesGood(c: Config, sv: Server, ps: seq<Poll>)
    requires SvGood(c, sv)
    ensures SvGood(c, Passes(c, sv, ps))
  {
    hide SvGood, PassEvents;
    GoodShaped(c, sv);
    if ps != [] {
      var u := Passes(c, sv, ps[..|ps| - 1]);
      PassesGood(c, sv, ps[..|ps| - 1]);
      RunGood(c, u, PassEvents(u, ps[|ps| - 1]));
    }
  }

  // --------------------------------------------------- the new slot is left in peace

  /** Events on other slots do not touch slot `k`. */
  lemma {:induction false} RunElsewhere(c: Config, sv: Server, evs: seq<(Slot, Event)>, k: Slot)
    requires Shaped(sv) && forall e | e in evs :: e.0 != k
    ensures var sv' := Run(c, sv, evs);
            sv'.sessions[k] == sv.sessions[k] && sv'.logs[k] == sv.logs[k]
  {
    hide Step;
    if evs != [] {
      var n := |evs| - 1;
      assert evs[n] in evs;
      RunElsewhere(c, sv, evs[..n], k);
    }
  }

  lemma {:induction false} ServeSkips(sv: Server, p: Poll, n: nat, k: Slot)
    requires Shaped(sv) && n <= MAX_SESSIONS && !sv.sessions[k].active
    ensures forall e | e in ServeEvents(sv, p, n) :: e.0 != k
  {
    hide SlotEvents;
    if n > 0 {
      ServeSkips(sv, p, n - 1, k);
      var i: Slot := n - 1;
      SlotEventsOwn(i, Asked(sv.sessions[i], p.slots(i)));
    }
  }

  lemma {:induction false} ServeBelow(sv: Server, p: Poll, n: nat)
    requires Shaped(sv) && n <= MAX_SESSIONS
    ensures forall e | e in ServeEvents(sv, p, n) :: e.0 < n
  {
    hide SlotEvents, Asked;
    if n > 0 {
      ServeBelow(sv, p, n - 1);
      SlotEventsOwn(n - 1, Asked(sv.sessions[n - 1], p.slots(n - 1)));
    }
  }

  /** Every session that was active in `sv` is in `u` as it was. */
  ghost predicate Kept(sv: Server, u: Server)
    requires Shaped(sv) && Shaped(u)
  {
    forall i: Slot | sv.sessions[i].active :: u.sessions[i] == sv.sessions[i]
  }

  /** Accepting a connection touches no slot in use. */
  lemma AcceptKeeps(c: Config, sv: Server, p: Poll)
    requires Shaped(sv)
    ensures Kept(sv, Run(c, sv, AcceptEvents(sv, p)))
  {
    hide Step, At, Run;
    forall i: Slot | sv.sessions[i].active
      ensures Run(c, sv, AcceptEvents(sv, p)).sessions[i] == sv.sessions[i]
    {
      RunElsewhere(c, sv, AcceptEvents(sv, p), i);
    }
  }

  /** When its turn comes, a slot that was active at the poll is still as it was. */
  lemma TurnUnchanged(c: Config, sv: Server, sv1: Server, p: Poll, i: Slot)
    requires Shaped(sv) && Shaped(sv1) && Kept(sv, sv1) && sv.sessions[i].active
    ensures Run(c, sv1, ServeEvents(sv, p, i)).sessions[i] == sv.sessions[i]
  {
    hide Run, ServeEvents;
    ServeBelow(sv, p, i);
    RunElsewhere(c, sv1, ServeEvents(sv, p, i), i);
  }

  lemma SlotEventsOwn(i: Slot, p: SlotPoll)
    ensures forall e | e in SlotEvents(i, p) :: e.0 == i
    ensures !p.hangup && !p.readable && !p.ready ==> SlotEvents(i, p) == []
  {
    CommandsOwn(i, Received(p.control), p.ios);
  }

  lemma {:induction false} CommandsOwn(i: Slot, text: string, ios: seq<Io>)
    ensures forall e | e in Commands(i, text, ios) :: e.0 == i
    decreases |text|
  {
    var n := FindCrlf(text);
    if n < |text| { CommandsOwn(i, text[n + 2..], RestIos(ios)); }
  }

  /**
    A slot filled by this pass is the first free one, whatever was in the other slots stays,
    and the results poll gave for the slot's previous sockets are not acted on: at the end
    of the pass the new session has been greeted and nothing more.
  */
  lemma AcceptedUnserved(c: Config, sv: Server, p: Poll)
    requires SvGood(c, sv) && !p.failed && !p.serverError && p.incoming
    requires FirstFree(sv.sessions, 0) < MAX_SESSIONS
    ensures var k: Slot := FirstFree(sv.sessions, 0);
            var sv' := Run(c, sv, PassEvents(sv, p));
            View(sv', k).s == SessionInit(View(sv, k), p.accept).st.s &&
            View(sv', k).log == SessionInit(View(sv, k), p.accept).st.log
  {
    var k: Slot := FirstFree(sv.sessions, 0);
    var first := AcceptEvents(sv, p);
    ServeSkips(sv, p, MAX_SESSIONS, k);
    var u := Run(c, sv, first);
    RunConcat(c, sv, first, ServeEvents(sv, p, MAX_SESSIONS));
    RunElsewhere(c, u, ServeEvents(sv, p, MAX_SESSIONS), k);
    assert first[..0] == [];
    assert u == At(c, sv, k, Connect(p.accept));
  }

  /** With every slot taken, a pending connection is left waiting and no session is lost. */
  lemma FullTableWaits(c: Config, sv: Server, p: Poll)
    requires SvGood(c, sv) && FirstFree(sv.sessions, 0) == MAX_SESSIONS
    ensures AcceptEvents(sv, p) == []
    ensures sv.count == MAX_SESSIONS
  {
    AllActive(sv.sessions);
  }

  lemma {:induction false} AllActive(ss: seq<Session>)
    requires forall s | s in ss :: s.active
    ensures Actives(ss) == |ss|
  {
    if ss != [] { AllActive(ss[..|ss| - 1]); }
  }
}
