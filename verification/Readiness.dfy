/**
  A slot's control lines are served before its data connection gets its turn, and that turn
  is judged by what poll said before any of them was read (src/ftpsrv.c, lines 1494 to 1511):
  when the answer is out of date, and an input on which it is.
*/
module Readiness {
  import opened CText
  import opened Session
  import opened Conduct
  import opened Frames
  import opened Transfers
  import opened Server
  import opened Deliveries
  import opened Completion
  import opened CommandLines
  import opened Dialogues
  import opened Loop
  import H = HostPort

  /** A line that ends the transfer of a busy session: ABOR without an argument. */
  ghost predicate CallsOff(text: string) {
    var n := FindCrlf(text);
    n < |text| && VerbOf(text) == H.Some(ABOR) && (VerbInsideLine(text, n + 2); ArgOf(text, n + 2, ABOR).None?)
  }

  ghost predicate AnyCallsOff(text: string)
    decreases |text|
  {
    var n := FindCrlf(text);
    n < |text| && (CallsOff(text) || AnyCallsOff(text[n + 2..]))
  }

  /** The transfer that runs at first runs on through all lines of a text. */
  ghost predicate RunsOn(c: Config, st: St, text: string, ios: seq<Io>)
    decreases |text|
  {
    var n := FindCrlf(text);
    st.s.Busy() && (n < |text| ==> RunsOn(c, Step(c, st, Command(text, FirstIo(ios))), text[n + 2..], RestIos(ios)))
  }

  lemma LineWhileBusy(c: Config, st: St, text: string, io: Io)
    requires Good(c, st) && st.s.active && st.s.Busy() && FindCrlf(text) < |text|
    ensures var r := Step(c, st, Command(text, io)).s;
            if CallsOff(text) then !r.Busy() else r == st.s
  {
    hide Step, VerbOf, ArgOf, LineStep, Good, FindCrlf;
    if VerbOf(text) != H.Some(ABOR) {
      BusyGate(c, st, text, io);
    } else {
      BusyConnected(c, st);
      AborWhileBusy(c, st, text, FindCrlf(text) + 2, io);
      CommandIsLine(c, st, text, io);
    }
  }

  lemma CommandIsLine(c: Config, st: St, text: string, io: Io)
    requires st.s.active && FindCrlf(text) < |text|
    ensures Step(c, st, Command(text, io)) == LineStep(c, st, text, FindCrlf(text) + 2, io)
  {
    hide LineStep, FindCrlf, SessionInit, SessionClose, Progress;
  }

  lemma AborWhileBusy(c: Config, st: St, text: string, len: nat, io: Io)
    requires IsLine(text, len) && VerbOf(text) == H.Some(ABOR) && st.s.Busy() && !st.s.conn.NoConnection?
    ensures |Name(ABOR)| <= len
    ensures var r := LineStep(c, st, text, len, io).s;
            if ArgOf(text, len, ABOR).None? then !r.Busy() else r == st.s
  {
    hide Execute, VerbOf, ArgOf, ScanLine, CmdAbor, FindCrlf, Name;
    var l := Emit(st, Line(text[..len]));
    VerbInsideLine(text, len);
    VerbGiven(text);
    AbortAnswers(c, l, io);
    ExecuteAbor(c, l, io);
  }

  lemma VerbGiven(text: string)
    requires VerbOf(text).Some?
    ensures ScanLine(text, 4) != ""
  {
    hide ScanLine, Name;
  }

  /** A transfer runs after the lines, and it is not the one that poll was asked about. */
  ghost predicate Outdated(c: Config, st: St, text: string, ios: seq<Io>) {
    ServeText(c, st, text, ios).s.Busy() && !RunsOn(c, st, text, ios)
  }

  /** Some line has the verb of a transfer. */
  ghost predicate AnyStarts(text: string)
    decreases |text|
  {
    var n := FindCrlf(text);
    n < |text| && ((VerbOf(text).Some? && IsTransferVerb(VerbOf(text).value)) || AnyStarts(text[n + 2..]))
  }

  /** Behind a line that calls a transfer off there is one with the verb of a transfer. */
  ghost predicate Restarts(text: string)
    decreases |text|
  {
    var n := FindCrlf(text);
    n < |text| && ((CallsOff(text) && AnyStarts(text[n + 2..])) || Restarts(text[n + 2..]))
  }

  /** What makes an idle session busy is the verb of a transfer. */
  lemma LineStarts(c: Config, st: St, text: string, io: Io)
    requires !st.s.Busy() && Step(c, st, Command(text, io)).s.Busy()
    ensures VerbOf(text).Some? && IsTransferVerb(VerbOf(text).value)
  {
    hide LineStep, VerbOf, FindCrlf, Execute;
    if st.s.active && FindCrlf(text) < |text| {
      var data := LineOutcome(c, st, text, FindCrlf(text) + 2, io);
      StartsItsOwn(c, Emit(st, Line(text[..FindCrlf(text) + 2])), VerbOf(text).value, data, io);
    }
  }

  lemma {:induction false} IdleUntilStarts(c: Config, st: St, text: string, ios: seq<Io>)
    requires !st.s.Busy() && ServeText(c, st, text, ios).s.Busy()
    ensures AnyStarts(text)
    decreases |text|
  {
    hide Step, FindCrlf, VerbOf;
    var n := FindCrlf(text);
    if n < |text| {
      var u := Step(c, st, Command(text, FirstIo(ios)));
      if u.s.Busy() {
        LineStarts(c, st, text, FirstIo(ios));
      } else {
        IdleUntilStarts(c, u, text[n + 2..], RestIos(ios));
      }
    }
  }

  /**
    A session was busy at the poll.  The transfer runs on through its lines if and only if
    none of them is an ABOR without argument, and then the session is as it was.  What poll
    said is about another transfer than the one that runs afterwards if and only if there is
    such a line and some transfer does run; then a line behind it has the verb of a transfer.
  */
  lemma {:induction false} DataTurn(c: Config, st: St, text: string, ios: seq<Io>)
    requires Good(c, st) && st.s.active && st.s.Busy()
    ensures RunsOn(c, st, text, ios) <==> !AnyCallsOff(text)
    ensures RunsOn(c, st, text, ios) ==> ServeText(c, st, text, ios).s == st.s
    ensures Outdated(c, st, text, ios) <==> AnyCallsOff(text) && ServeText(c, st, text, ios).s.Busy()
    ensures Outdated(c, st, text, ios) ==> Restarts(text)
    decreases |text|
  {
    hide Good, Step, FindCrlf, CallsOff, AnyStarts;
    var n := FindCrlf(text);
    if n < |text| {
      var u := Step(c, st, Command(text, FirstIo(ios)));
      LineWhileBusy(c, st, text, FirstIo(ios));
      StepGood(c, st, Command(text, FirstIo(ios)));
      if !CallsOff(text) {
        DataTurn(c, u, text[n + 2..], RestIos(ios));
      } else if ServeText(c, u, text[n + 2..], RestIos(ios)).s.Busy() {
        IdleUntilStarts(c, u, text[n + 2..], RestIos(ios));
      }
    }
  }

  /**
    The turn of a slot that was busy and is reported ready on both of its sockets.  The
    engine is called exactly if some transfer runs after the lines; it is called on an
    outdated answer exactly if one of the lines has called the old transfer off as well.
  */
  lemma SlotTurn(c: Config, sv: Server, i: Slot, q: SlotPoll)
    requires SvGood(c, sv) && sv.sessions[i].Busy()
    requires q.ready && q.readable && !q.hangup && q.control != []
    ensures var text := Loop.Received(q.control);
            var u := Run(c, sv, ControlEvents(i, q));
            && View(u, i) == ServeText(c, View(sv, i), text, q.ios)
            && View(Run(c, sv, SlotEvents(i, q)), i) ==
               (if u.sessions[i].Busy() then Progress(c, View(u, i), q.io) else View(u, i))
            && (Outdated(c, View(sv, i), text, q.ios) <==> u.sessions[i].Busy() && AnyCallsOff(text))
  {
    hide SvGood, Step, Run, ServeText, Loop.Received, Outdated, RunsOn, AnyCallsOff, Restarts, Commands;
    GoodShaped(c, sv);
    SlotActive(c, sv, i);
    var text := Loop.Received(q.control);
    var u := Run(c, sv, Commands(i, text, q.ios));
    ServeTextIsRun(c, sv, i, text, q.ios);
    DataTurn(c, View(sv, i), text, q.ios);
    RunConcat(c, sv, Commands(i, text, q.ios), [(i, DataReady(q.io))]);
    RunOne(c, u, (i, DataReady(q.io)));
    RunGood(c, sv, Commands(i, text, q.ios));
    SlotActive(c, u, i);
    EngineCalled(c, View(u, i), q.io);
  }

  lemma SlotActive(c: Config, sv: Server, i: Slot)
    requires SvGood(c, sv)
    ensures Good(c, View(sv, i)) && (sv.sessions[i].Busy() ==> sv.sessions[i].active)
  {
    assert Good(c, View(sv, i));
  }

  lemma EngineCalled(c: Config, st: St, io: Io)
    requires st.s.Busy() ==> st.s.active
    ensures Step(c, st, DataReady(io)) == if st.s.Busy() then Progress(c, st, io) else st
  {
    hide Progress;
  }

  // ------------------------------------------------------------------------- an input

  /** A spoken line is served first, then the rest of the text. */
  lemma ServeSpoken(c: Config, st: St, v: Verb, arg: H.Option<string>, rest: string, io: Io, ios: seq<Io>)
    requires Speakable(arg)
    ensures ServeText(c, st, Spoken(v, arg) + rest, [io] + ios) ==
            ServeText(c, Step(c, st, Command(Spoken(v, arg) + rest, io)), rest, ios)
  {
    hide Step, Spoken, FindCrlf;
    SpokenEnds(v, arg, rest);
    assert FirstIo([io] + ios) == io && RestIos([io] + ios) == ios;
  }

  /** A command without argument is the same whatever follows it. */
  lemma BareStep(c: Config, st: St, v: Verb, rest: string, io: Io)
    requires st.s.active && Args(v).NoArg?
    requires NeedsAuth(v) ==> st.s.auth == Valid
    requires st.s.Busy() ==> v == ABOR
    ensures Step(c, st, Command(Spoken(v, H.None) + rest, io)) == Step(c, st, Command(Spoken(v, H.None), io))
  {
    hide Step, Spoken, Execute, NeedsAuth;
    SpokenThen(c, st, v, H.None, rest, io);
    SpokenStep(c, st, v, H.None, io);
  }

  lemma AborCallsOff(rest: string)
    ensures AnyCallsOff(Spoken(ABOR, H.None) + rest)
  {
    hide Spoken, VerbOf, ArgOf, FindCrlf;
    SpokenEnds(ABOR, H.None, rest);
    SpokenVerb(ABOR, H.None, rest);
    SpokenArg(ABOR, H.None, rest);
  }

  /** ABOR, PASV and RETR in one text. */
  function Replacing(name: string): string {
    Spoken(ABOR, H.None) + (Spoken(PASV, H.None) + (Spoken(RETR, H.Some(name)) + ""))
  }

  lemma ServeReplacing(c: Config, st: St, name: string, abor: Io, pasv: Io, retr: Io)
    requires Speakable(H.Some(name)) && st.s.active && st.s.auth == Valid
    requires var st1 := Step(c, st, Command(Spoken(ABOR, H.None), abor));
             st1.s.active && st1.s.auth == Valid && !st1.s.Busy()
    ensures var st1 := Step(c, st, Command(Spoken(ABOR, H.None), abor));
            var st2 := Step(c, st1, Command(Spoken(PASV, H.None), pasv));
            ServeText(c, st, Replacing(name), [abor, pasv, retr])
            == Step(c, st2, Command(Spoken(RETR, H.Some(name)), retr))
  {
    hide Spoken, Step, FindCrlf, ServeText;
    var third := Spoken(RETR, H.Some(name)) + "";
    var second := Spoken(PASV, H.None) + third;
    var st1 := Step(c, st, Command(Spoken(ABOR, H.None), abor));
    var st2 := Step(c, st1, Command(Spoken(PASV, H.None), pasv));
    assert [abor, pasv, retr] == [abor] + [pasv, retr] && [pasv, retr] == [pasv] + [retr] && [retr] == [retr] + [];
    ServeSpoken(c, st, ABOR, H.None, second, abor, [pasv, retr]);
    BareStep(c, st, ABOR, second, abor);
    ServeSpoken(c, st1, PASV, H.None, third, pasv, [retr]);
    BareStep(c, st1, PASV, third, pasv);
    ServeSpoken(c, st2, RETR, H.Some(name), "", retr, []);
    assert third == Spoken(RETR, H.Some(name));
    ServeEmpty(c, Step(c, st2, Command(third, retr)));
  }

  lemma ServeEmpty(c: Config, st: St)
    ensures ServeText(c, st, "", []) == st
  {
  }

  lemma EngineRetr(c: Config, u: St, io: Io)
    requires Good(c, u) && u.s.transfer.mode == Retr
    ensures Step(c, u, DataReady(io)) == RetrStep(c, u, io)
  {
    hide RetrStep;
  }

  lemma SameMarker(s: Session, r: Session, io: Io)
    requires r.marker == s.marker && Readable(s, io)
    ensures Readable(r, io)
  {
  }

  /**
    Such a text leaves a busy session in a download that poll was never asked about, and the
    next call of the engine acts on it.
  */
  lemma OutdatedCall(c: Config, st: St, name: string, abor: Io, pasv: Io, retr: Io, io: Io)
    requires Good(c, st) && st.s.active && st.s.auth == Valid && st.s.Busy() && Readable(st.s, retr)
    requires Named(name) && Resolve(st.s, name).ok && PathOf(c, st.s, name) in st.w.files
    requires var st1 := Step(c, st, Command(Spoken(ABOR, H.None), abor));
             var st2 := Step(c, st1, Command(Spoken(PASV, H.None), pasv));
             Granted(st1.w, pasv.socket) && pasv.bindOk && pasv.listenOk && Reachable(st2, retr)
    ensures var u := ServeText(c, st, Replacing(name), [abor, pasv, retr]);
            && Outdated(c, st, Replacing(name), [abor, pasv, retr])
            && u.s.transfer.mode == Retr && u.s.transfer.file.path == PathOf(c, st.s, name)
            && Step(c, u, DataReady(io)) == RetrStep(c, u, io)
  {
    hide Spoken, Step, Good, Reachable, Resolve, PathOf, Readable, Speakable, RetrStep, Outdated, Orderly, Owed;
    hide AnyCallsOff;
    hide Answered;
    var st1 := Step(c, st, Command(Spoken(ABOR, H.None), abor));
    var st2 := Step(c, st1, Command(Spoken(PASV, H.None), pasv));
    AbortStays(c, st, abor);
    SameNames(c, st.s, st1.s, name);
    PasvSpoken(c, st1, pasv);
    SameNames(c, st1.s, st2.s, name);
    SameMarker(st.s, st2.s, retr);
    RetrSpokenStarts(c, st2, name, retr);
    ServeReplacing(c, st, name, abor, pasv, retr);
    AborCallsOff(Spoken(PASV, H.None) + (Spoken(RETR, H.Some(name)) + ""));
    DataTurn(c, st, Replacing(name), [abor, pasv, retr]);
    EngineRetr(c, Step(c, st2, Command(Spoken(RETR, H.Some(name)), retr)), io);
  }
}
