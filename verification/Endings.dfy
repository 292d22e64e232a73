/**
  However a transfer ends: at the end of its stream, on a failure, called off by its client,
  or because the client is gone.
*/
module Endings {
  import opened CText
  import opened Session
  import opened Conduct
  import opened Transfers
  import opened Server
  import opened Deliveries
  import opened CommandLines
  import opened Dialogues
  import opened Readiness
  import N = NxFile
  import H = HostPort

  /** What the client is told when the event ends its upload. */
  function EndCodes(ev: Event): seq<nat> {
    match ev
    case Command(_, _) => [426, 226]
    case DataReady(io) => if io.recv.Got? && Chunk(io.recv.data) == [] then [226] else [426]
    case Disconnect(_) => []
    case Connect(_) => []
  }

  /** A transfer end that brings nothing more leaves what was stored, if the close goes well. */
  lemma EndStores(c: Config, st: St, u: St, l: St, ev: Event, r: St)
    requires Uploaded(c, st, u) && u.s.Busy() && Brought(ev) == []
    requires l.w.files == u.w.files && l.s.transfer.file == u.s.transfer.file
    requires r.w.files == TransferEnd(c, l, ev.io.closing).w.files
    requires TrafficOf(r.log).received == TrafficOf(u.log).received
    ensures EndedBy(c, st, u, ev, r)
  {
    hide TransferEnd, TrafficOf, N.CloseKeeps, N.Close, N.Stored;
    var v := Closing(c, u, ev);
    StoredIgnoresFaults(v, []);
    N.CloseExact(c.build, v);
    EndFiles(c, l, ev.io.closing);
    MoreArrived(st, u, r, []);
    StoredUpTo(StoredAt(st), Arrived(st, u), []);
  }

  /** A busy session whose transfer is called off does what ABOR does. */
  lemma AborTaken(c: Config, u: St, text: string, io: Io)
    requires u.s.active && u.s.Busy() && CallsOff(text)
    ensures Step(c, u, Command(text, io)) == CmdAbor(c, Emit(u, Line(text[..FindCrlf(text) + 2])), io)
  {
    hide Step, Execute, VerbOf, ArgOf, FindCrlf, CmdAbor, Dispatch, ScanLine, Name;
    var len := FindCrlf(text) + 2;
    var l := Emit(u, Line(text[..len]));
    VerbInsideLine(text, len);
    VerbGiven(text);
    FirstLineStep(c, u, text, len, io);
    DispatchGates(c, l, text, len, ABOR, H.None, "", io);
    ExecuteAbor(c, l, io);
  }

  lemma AborEnds(c: Config, st: St, u: St, text: string, io: Io)
    requires Uploaded(c, st, u) && u.s.Busy() && u.s.active && Good(c, u) && CallsOff(text)
    ensures var r := Step(c, u, Command(text, io));
            && EndedBy(c, st, u, Command(text, io), r)
            && TrafficOf(r.log).replies == TrafficOf(u.log).replies + [426, 226]
  {
    hide Step, CmdAbor, TrafficOf, Uploaded, EndedBy, TransferEnd, FindCrlf, VerbOf, ArgOf;
    var line := text[..FindCrlf(text) + 2];
    var l := Emit(u, Line(line));
    AborTaken(c, u, text, io);
    BusyConnected(c, u);
    LineQuiet(u, line);
    AbortAnswers(c, l, io);
    AborFiles(c, l, io);
    EndStores(c, st, u, l, Command(text, io), CmdAbor(c, l, io));
  }

  lemma AborFiles(c: Config, st: St, io: Io)
    requires st.s.Busy() && !st.s.conn.NoConnection?
    ensures CmdAbor(c, st, io).w.files == TransferEnd(c, st, io.closing).w.files
  {
    hide TransferEnd;
  }

  lemma HangUpEnds(c: Config, st: St, u: St, io: Io)
    requires Uploaded(c, st, u) && u.s.Busy()
    ensures var r := SessionClose(c, u, io);
            EndedBy(c, st, u, Disconnect(io), r) && TrafficOf(r.log).replies == TrafficOf(u.log).replies
  {
    hide TransferEnd, TrafficOf, Uploaded, EndedBy;
    HangUpTraffic(c, u, io);
    EndStores(c, st, u, CloseControl(u), Disconnect(io), SessionClose(c, u, io));
  }

  lemma EngineCodes(c: Config, u: St, io: Io)
    requires Storing(c, u) && !StorStep(c, u, io).s.Busy()
    ensures TrafficOf(StorStep(c, u, io).log).replies == TrafficOf(u.log).replies + EndCodes(DataReady(io))
  {
    hide TrafficOf, Finish, N.Write, Storing;
    StoringMode(c, u);
    match io.recv
    case RecvBlocks =>
    case RecvFails => FinishTraffic(c, u, 426, io.closing);
    case Got(all) =>
      if Chunk(all) == [] {
        FinishTraffic(c, u, 226, io.closing);
      } else {
        ChunkRefused(c, u, io);
      }
  }

  lemma EventEnds(c: Config, st: St, u: St, ev: Event)
    requires Uploaded(c, st, u) && u.s.Busy() && u.s.active && Good(c, u) && !Step(c, u, ev).s.Busy()
    ensures EndedBy(c, st, u, ev, Step(c, u, ev))
    ensures TrafficOf(Step(c, u, ev).log).replies == TrafficOf(u.log).replies + EndCodes(ev)
  {
    hide EndedBy, TrafficOf, StoredAt, Storing, Good, StorStep, SessionClose, LineStep, CallsOff;
    match ev
    case Connect(io) =>
    case DataReady(io) =>
      StoringMode(c, u);
      EngineEnds(c, st, u, io);
      EngineCodes(c, u, io);
    case Command(text, io) =>
      if FindCrlf(text) < |text| {
        LineWhileBusy(c, u, text, io);
        AborEnds(c, st, u, text, io);
      }
    case Disconnect(io) =>
      HangUpEnds(c, st, u, io);
      assert TrafficOf(u.log).replies + [] == TrafficOf(u.log).replies;
  }

  /**
    After any run of the whole server in which an upload goes smoothly, by whatever event it
    ends: the client is told how, and the file holds what the upload started from and all
    that arrived, less a chunk that was refused, if and only if the calls of the close turn
    out well.
  */
  lemma UploadOver(c: Config, sv: Server, i: Slot, evs: seq<(Slot, Event)>, ev: Event)
    requires SvGood(c, sv) && Storing(c, View(sv, i)) && WrittenInPeace(c, sv, i, evs)
    requires var u := Run(c, sv, evs); u.sessions[i].Busy() && !At(c, u, i, ev).sessions[i].Busy()
    ensures var u := Run(c, sv, evs);
            var r := View(At(c, u, i, ev), i);
            && EndedBy(c, View(sv, i), View(u, i), ev, r)
            && TrafficOf(r.log).replies == TrafficOf(View(u, i).log).replies + EndCodes(ev)
  {
    hide SvGood, Run, Step, Uploaded, EndedBy, TrafficOf, Storing, WrittenInPeace;
    GoodShaped(c, sv);
    var u := Run(c, sv, evs);
    UploadExact(c, sv, i, evs);
    RunGood(c, sv, evs);
    SlotActive(c, u, i);
    assert View(At(c, u, i, ev), i) == Step(c, View(u, i), ev);
    EventEnds(c, View(sv, i), View(u, i), ev);
  }

  // ------------------------------------------------------------------------ downloads

  /** A download that began in `st` was still on in `u` and is over in `r`, by the event `ev`. */
  ghost predicate Stopped(c: Config, st: St, u: St, ev: Event, r: St) {
    var a, m, b := TrafficOf(st.log), TrafficOf(u.log), TrafficOf(r.log);
    && a.sent <= b.sent <= a.sent + Owed(c, st)
    && match ev
       case Command(_, _) => b.replies == m.replies + [426, 226] && b.sent == m.sent
       case Disconnect(_) => b.replies == m.replies && b.sent == m.sent
       case DataReady(_) =>
         || (b.replies == m.replies + [226] && b.sent == a.sent + Owed(c, st))
         || b.replies == m.replies + [426]
       case Connect(_) => false
  }

  /** Nothing more has gone out since `u`: what has is a prefix of what was owed. */
  lemma SentPrefix(c: Config, st: St, u: St, r: St)
    requires Delivered(c, st, u) && u.s.Busy() && TrafficOf(r.log).sent == TrafficOf(u.log).sent
    ensures TrafficOf(st.log).sent <= TrafficOf(r.log).sent <= TrafficOf(st.log).sent + Owed(c, st)
  {
    hide TrafficOf, Owed, Orderly;
  }

  lemma HangUpTraffic(c: Config, u: St, io: Io)
    ensures TrafficOf(SessionClose(c, u, io).log) == TrafficOf(u.log)
  {
    hide TransferEnd, TrafficOf;
    var l := CloseControl(u);
    TrafficEmit(u.(w := u.w.(fds := u.w.fds - {u.s.controlSock})), SocketClosed(u.s.controlSock));
    TransferEndTraffic(c, l, io.closing);
    TrafficEmit(TransferEnd(c, l, io.closing).(s := BLANK), HungUp);
  }

  lemma EngineStops(c: Config, st: St, u: St, io: Io)
    requires Delivered(c, st, u) && u.s.Busy() && !Progress(c, u, io).s.Busy()
    ensures Stopped(c, st, u, DataReady(io), Progress(c, u, io))
  {
    hide TrafficOf, Owed, Orderly, Progress;
    ProgressDelivers(c, u, io);
  }

  lemma AborStops(c: Config, st: St, u: St, text: string, io: Io)
    requires Delivered(c, st, u) && u.s.Busy() && u.s.active && Good(c, u) && CallsOff(text)
    ensures Stopped(c, st, u, Command(text, io), Step(c, u, Command(text, io)))
  {
    hide Step, CmdAbor, TrafficOf, Delivered, TransferEnd, FindCrlf, VerbOf, ArgOf, Owed;
    var line := text[..FindCrlf(text) + 2];
    AborTaken(c, u, text, io);
    BusyConnected(c, u);
    LineQuiet(u, line);
    AbortAnswers(c, Emit(u, Line(line)), io);
    SentPrefix(c, st, u, Step(c, u, Command(text, io)));
  }

  lemma EventStops(c: Config, st: St, u: St, ev: Event)
    requires Delivered(c, st, u) && u.s.Busy() && u.s.active && Good(c, u) && !Step(c, u, ev).s.Busy()
    ensures Stopped(c, st, u, ev, Step(c, u, ev))
  {
    hide Delivered, TrafficOf, Good, Progress, SessionClose, LineStep, CallsOff, Owed;
    match ev
    case Connect(io) =>
    case DataReady(io) => EngineStops(c, st, u, io);
    case Command(text, io) =>
      if FindCrlf(text) < |text| {
        LineWhileBusy(c, u, text, io);
        AborStops(c, st, u, text, io);
      }
    case Disconnect(io) =>
      HangUpTraffic(c, u, io);
      SentPrefix(c, st, u, SessionClose(c, u, io));
  }

  /** The same for a download: however it ends, a prefix of what was owed has been sent, and after a 226 all of it. */
  lemma DownloadOver(c: Config, sv: Server, i: Slot, evs: seq<(Slot, Event)>, ev: Event)
    requires SvGood(c, sv) && Downloading(sv.sessions[i]) && Orderly(c, View(sv, i)) && ReadInPeace(c, sv, i, evs)
    requires var u := Run(c, sv, evs); u.sessions[i].Busy() && !At(c, u, i, ev).sessions[i].Busy()
    ensures var u := Run(c, sv, evs);
            Stopped(c, View(sv, i), View(u, i), ev, View(At(c, u, i, ev), i))
  {
    hide SvGood, Run, Step, Delivered, Stopped, Orderly, ReadInPeace;
    GoodShaped(c, sv);
    var u := Run(c, sv, evs);
    DownloadExact(c, sv, i, evs);
    RunGood(c, sv, evs);
    SlotActive(c, u, i);
    assert View(At(c, u, i, ev), i) == Step(c, View(u, i), ev);
    EventStops(c, View(sv, i), View(u, i), ev);
  }
}
