/**
  Every descriptor is accounted for: what the process has open is the server's socket, what
  the sessions hold, and what was overwritten without being closed (src/ftpsrv.c, lines 426
  to 490, 739 to 803, 1289 to 1325).
*/
module Sockets {
  import opened CText
  import opened Session
  import opened Monitor
  import opened Conduct
  import opened Frames
  import opened Server
  import N = NxFile
  import H = HostPort

  /** What is open but not the session's. */
  function Foreign(st: St): set<int> {
    st.w.fds - Held(st.s)
  }

  /** An idle session that still has the socket of an active connection that was refused. */
  predicate Lingering(s: Session) {
    s.conn.Active? && s.dataSock > 0 && !s.Busy()
  }

  /** The descriptor that a control line makes the session forget: only a transfer command can. */
  function Overwritten(st: St, ev: Event, r: St): set<int> {
    if ev.Command? && VerbOf(ev.text).Some? && IsTransferVerb(VerbOf(ev.text).value) && Lingering(st.s)
       && r.s.dataSock != st.s.dataSock
    then {st.s.dataSock} else {}
  }

  // ---------------------------------------------------------------- transfer commands

  /** No socket was closed, and the data socket is the old one, or none, or one that was not open. */
  ghost predicate Dials(st: St, r: St) {
    && r.s.controlSock == st.s.controlSock && r.s.pasvSock == st.s.pasvSock
    && ((r.s.dataSock == st.s.dataSock && r.w.fds == st.w.fds)
        || (Own(r.s.dataSock) !! st.w.fds && r.w.fds == st.w.fds + Own(r.s.dataSock)))
  }

  lemma DialsAround(a: St, b: St, u: St, r: St)
    requires Calm(a, b) && Dials(b, u) && Calm(u, r)
    ensures Dials(a, r)
  {
  }

  lemma DataOpenDials(st: St, io: Io)
    ensures Dials(st, DataOpen(st, io).st)
  {
    hide Peer;
  }

  lemma RetrDials(c: Config, st: St, data: string, io: Io)
    ensures Dials(st, CmdRetr(c, st, data, io))
  {
    var path := FixedPath(c, Resolve(st.s, ScanLine(data, PATH_LIMIT)).path);
    VfsCalm(c, st, path, N.READ, io.faults);
    var o := VfsOpen(st, path, N.READ, io.faults);
    VfsCalm(c, Say(o.st, 550), path, N.READ, io.closing);
    RetrFromDials(c, o.st, io);
    var r := RetrFrom(c, o.st, io);
    DialsAround(st, o.st, r, r);
    hide RetrFrom, VfsOpen, VfsClose, Resolve, ScanLine;
  }

  lemma RetrFromDials(c: Config, st: St, io: Io)
    ensures Dials(st, RetrFrom(c, st, io))
  {
    var p := Positioned(st, io).st;
    var d := DataOpen(p, io).st;
    DataOpenDials(p, io);
    VfsCalm(c, Say(p, 550), "", N.READ, io.closing);
    VfsCalm(c, Say(d, 425), "", N.READ, io.closing);
    hide DataOpen, VfsClose;
  }

  lemma StorDials(c: Config, st0: St, data: string, io: Io)
    ensures Dials(st0, CmdStor(c, st0, data, io))
  {
    var append := st0.s.marker == -1;
    var st := if append then st0.(s := st0.s.(marker := 0)) else st0;
    var path := FixedPath(c, Resolve(st.s, ScanLine(data, PATH_LIMIT)).path);
    var mode := if append then N.APPEND else N.WRITE;
    VfsCalm(c, st, path, mode, io.faults);
    var o := VfsOpen(st, path, mode, io.faults).st;
    var d := DataOpen(o, io).st;
    DataOpenDials(o, io);
    VfsCalm(c, Say(d, 425), path, mode, io.closing);
    hide VfsOpen, VfsClose, DataOpen, Resolve, ScanLine;
  }

  lemma ListDials(c: Config, st: St, data: string, mode: Mode, io: Io)
    ensures Dials(st, CmdList(c, st, data, mode, io))
  {
    var b := ListPath(st.s, ScanLine(data, PATH_LIMIT));
    var st1 := st.(s := st.s.(tempPath := b.path));
    DataOpenDials(st1, io);
    ListFromDials(st1.(s := st1.s.(tempPath := FixedPath(c, b.path))), mode, io);
    hide DataOpen, ListFrom, ListPath, ScanLine;
  }

  lemma ListFromDials(st: St, mode: Mode, io: Io)
    ensures Dials(st, ListFrom(st, mode, io))
  {
    DataOpenDials(Emit(SetTransfer(st, st.s.transfer.(dir := Dir(true, io.entries))), DirOpened(st.s.tempPath)), io);
    DataOpenDials(SetTransfer(st, Build(st.s.transfer, io.line)), io);
    hide DataOpen, Fits;
  }

  lemma TransferVerbDials(c: Config, st: St, v: Verb, data: string, io: Io)
    requires IsTransferVerb(v)
    ensures Dials(st, Execute(c, st, v, data, io))
  {
    hide CmdRetr, CmdStor, CmdList;
    match v
    case RETR => RetrDials(c, st, data, io);
    case STOR => StorDials(c, st, data, io);
    case APPE => StorDials(c, st.(s := st.s.(marker := -1)), data, io);
    case LIST => ListDials(c, st, data, List, io);
    case NLST => ListDials(c, st, data, Nlst, io);
  }

  /** Dialling loses exactly a lingering socket, and that only if it is replaced. */
  lemma DialsForeign(st: St, r: St)
    requires SocketsSound(st.s, st.w.fds) && !st.s.Busy() && Dials(st, r)
    ensures Foreign(r) ==
            Foreign(st) + (if Lingering(st.s) && r.s.dataSock != st.s.dataSock then {st.s.dataSock} else {})
  {
  }

  // ------------------------------------------------------------- everything else keeps count

  lemma CalmForeign(st: St, r: St)
    requires Calm(st, r)
    ensures Foreign(r) == Foreign(st)
  {
  }

  lemma CloseConnectionForeign(st: St)
    ensures Foreign(CloseConnection(st)) == Foreign(st)
  {
    var a := CloseData(st);
    assert Foreign(a) == Foreign(st);
    assert Foreign(ClosePasv(a)) == Foreign(a);
    hide CloseData, ClosePasv, Foreign;
  }

  lemma EndForeign(c: Config, st: St, closing: seq<N.Fault>)
    ensures Foreign(TransferEnd(c, st, closing)) == Foreign(st)
  {
    CloseConnectionForeign(st);
    HandlesShut(c, CloseConnection(st), closing);
    hide CloseConnection, VfsClose, DirClose;
  }

  lemma FinishForeign(c: Config, st: St, code: nat, closing: seq<N.Fault>)
    ensures Foreign(Finish(c, st, code, closing)) == Foreign(st)
  {
    EndForeign(c, Say(st, code), closing);
    hide TransferEnd;
  }

  lemma PortForeign(c: Config, st: St, data: string, io: Io)
    ensures Foreign(CmdPort(c, st, data, io)) == Foreign(st)
    ensures Foreign(CmdAbor(c, st, io)) == Foreign(st)
  {
    EndForeign(c, st, io.closing);
    hide TransferEnd, H.ParsePort;
  }

  lemma PasvForeign(c: Config, st: St, io: Io)
    requires SocketsSound(st.s, st.w.fds)
    ensures Foreign(CmdPasv(c, st, io)) == Foreign(st)
  {
    EndForeign(c, st, io.closing);
    TransferEndSound(c, st, io.closing);
    hide TransferEnd, H.PassiveText;
  }

  lemma ExecuteForeign(c: Config, st: St, v: Verb, data: string, io: Io)
    requires SocketsSound(st.s, st.w.fds) && (st.s.Busy() ==> v == ABOR)
    ensures var r := Execute(c, st, v, data, io);
            Foreign(r) == Foreign(st) + (if IsTransferVerb(v) && Lingering(st.s) && r.s.dataSock != st.s.dataSock
                                         then {st.s.dataSock} else {})
  {
    hide CmdPort, CmdAbor, CmdPasv, Foreign;
    if IsTransferVerb(v) {
      hide Execute;
      TransferVerbDials(c, st, v, data, io);
      DialsForeign(st, Execute(c, st, v, data, io));
    } else if IsConnectionVerb(v) {
      PortForeign(c, st, data, io);
      PasvForeign(c, st, io);
    } else {
      hide Execute;
      QuickCalm(c, st, v, data, io);
      CalmForeign(st, Execute(c, st, v, data, io));
    }
  }

  lemma LineForeign(c: Config, st: St, text: string, len: nat, io: Io)
    requires IsLine(text, len) && SocketsSound(st.s, st.w.fds)
    ensures var r := LineStep(c, st, text, len, io);
            Foreign(r) == Foreign(st) + Overwritten(st, Command(text, io), r)
  {
    var st1 := Emit(st, Line(text[..len]));
    hide Execute, VerbOf, Dispatch, Foreign, SocketsSound, IsTransferVerb;
    CalmForeign(st, st1);
    var code, data := DispatchForks(c, st1, text, len, io);
    if Dispatch(c, st1, text, len, io) == Say(st1, code) {
      CalmForeign(st, Say(st1, code));
      NothingOverwritten(st, Command(text, io), Say(st1, code));
    } else {
      ExecuteForeign(c, st1, VerbOf(text).value, data, io);
    }
  }

  lemma RetrStepForeign(c: Config, st: St, io: Io)
    ensures Foreign(RetrStep(c, st, io)) == Foreign(st)
  {
    hide Finish, RetrSend, Foreign;
    FinishForeign(c, st, 426, io.closing);
    FinishForeign(c, st, 226, io.closing);
    if io.read.ReadUpTo? {
      var h := st.s.transfer.file;
      var n := N.ReadCount(|Content(st.w.files, h.path)|, h.off, FILE_BUFFER_SIZE, io.read);
      if n > 0 { RetrSendForeign(c, st, n, io); }
    }
  }

  lemma RetrSendForeign(c: Config, st: St, n: nat, io: Io)
    requires n > 0 && st.s.transfer.file.off + n <= |Content(st.w.files, st.s.transfer.file.path)|
    ensures Foreign(RetrSend(c, st, n, io)) == Foreign(st)
  {
    forall u: St, code | Calm(st, u) ensures Foreign(Finish(c, u, code, io.closing)) == Foreign(st) {
      FinishForeign(c, u, code, io.closing);
    }
    hide Finish;
  }

  lemma StorStepForeign(c: Config, st: St, io: Io)
    ensures Foreign(StorStep(c, st, io)) == Foreign(st)
  {
    forall u: St, code | Calm(st, u) ensures Foreign(Finish(c, u, code, io.closing)) == Foreign(st) {
      FinishForeign(c, u, code, io.closing);
    }
    hide Finish, N.Write;
  }

  lemma {:induction false} ListStepForeign(c: Config, st: St, sends: seq<SendAnswer>, closing: seq<N.Fault>)
    ensures Foreign(ListStep(c, st, sends, closing)) == Foreign(st)
    decreases LinesLeft(c, st.s.transfer), st.s.transfer.size
  {
    hide Finish, Examined, Fits;
    var t := st.s.transfer;
    if t.size > 0 {
      match NextSend(sends)
      case SendBlocks =>
      case SendFails => FinishForeign(c, st, 426, closing);
      case Took(count) =>
        var m := SendCount(count, t.size);
        var st1 := Emit(st, Sent(ListBytes(t.listBuf, t.offset, m)));
        if m == t.size {
          var st2 := SetTransfer(st1, Drained(t));
          if !t.dir.isValid && (!DeviceList(c, st.s.tempPath) || t.index == |c.devices|) {
            FinishForeign(c, st2, 226, closing);
          } else {
            ListStepForeign(c, st2, RestSends(sends), closing);
          }
        }
    } else if DeviceList(c, st.s.tempPath) {
      if t.index < |c.devices| {
        ListStepForeign(c, SetTransfer(st, NextDevice(c, t)),
                        sends, closing);
      }
    } else if t.dir.entries == [] {
      FinishForeign(c, st, 226, closing);
    } else {
      ListStepForeign(c, SetTransfer(st, NextEntry(t, st.s.tempPath)),
                      sends, closing);
    }
  }

  lemma CloseForeign(c: Config, st: St, io: Io)
    requires SocketsSound(st.s, st.w.fds)
    ensures Foreign(SessionClose(c, st, io)) == Foreign(st)
  {
    var a := CloseControl(st);
    assert SocketsSound(a.s, a.w.fds);
    assert Foreign(a) == Foreign(st);
    TransferEndSound(c, a, io.closing);
    EndForeign(c, a, io.closing);
    hide TransferEnd, CloseControl;
  }

  /**
    Conservation: whatever the event and whatever the environment answers, what is open
    without being the session's stays as it was, plus a lingering socket that a transfer
    command replaces.
  */
  lemma StepForeign(c: Config, st: St, ev: Event)
    requires Good(c, st)
    ensures var r := Step(c, st, ev);
            Foreign(r) == Foreign(st) + Overwritten(st, ev, r)
  {
    hide LineStep, RetrStep, StorStep, ListStep, SessionClose, Foreign, Overwritten;
    match ev
    case Connect(io) => ConnectForeign(c, st, io);
    case Command(text, io) =>
      if st.s.active && FindCrlf(text) < |text| { LineForeign(c, st, text, FindCrlf(text) + 2, io); }
      else { NothingOverwritten(st, ev, st); }
    case DataReady(io) =>
      RetrStepForeign(c, st, io);
      StorStepForeign(c, st, io);
      ListStepForeign(c, st, io.sends, io.closing);
      NothingOverwritten(st, ev, Step(c, st, ev));
    case Disconnect(io) =>
      CloseForeign(c, st, io);
      NothingOverwritten(st, ev, Step(c, st, ev));
  }

  lemma NothingOverwritten(st: St, ev: Event, r: St)
    requires !ev.Command? || r.s == st.s
    ensures Overwritten(st, ev, r) == {}
  {
  }

  lemma ConnectForeign(c: Config, st: St, io: Io)
    requires Good(c, st)
    ensures var r := Step(c, st, Connect(io));
            Foreign(r) == Foreign(st) && Overwritten(st, Connect(io), r) == {}
  {
    hide Tracks;
  }

  // -------------------------------------------------------------------- the whole server

  ghost predicate HeldBySome(sv: Server, fd: int)
    requires Shaped(sv)
  {
    exists i: Slot :: fd in Held(sv.sessions[i])
  }

  /** Open is what some session holds, and what is in `others`, which no session holds. */
  ghost predicate Accounted(sv: Server, others: set<int>)
    requires Shaped(sv)
  {
    forall fd :: && (fd in sv.w.fds <==> fd in others || HeldBySome(sv, fd))
                 && !(fd in others && HeldBySome(sv, fd))
  }

  /** Only slot `i` has changed, and of its descriptors `lost` are no longer anybody's. */
  ghost predicate Changed(sv: Server, sv': Server, i: Slot, lost: set<int>)
    requires Shaped(sv) && Shaped(sv')
  {
    && (forall j: Slot | j != i :: sv'.sessions[j] == sv.sessions[j])
    && (forall j: Slot | j != i :: Held(sv.sessions[i]) !! Held(sv.sessions[j]))
    && (forall j: Slot | j != i :: Held(sv'.sessions[i]) !! Held(sv.sessions[j]))
    && Foreign(View(sv', i)) == Foreign(View(sv, i)) + lost
    && lost <= Held(sv.sessions[i]) && lost !! Held(sv'.sessions[i])
    && Held(sv'.sessions[i]) <= sv'.w.fds && Held(sv.sessions[i]) <= sv.w.fds
    && FdFrame(View(sv, i), View(sv', i))
  }

  lemma AtChanges(c: Config, sv: Server, i: Slot, ev: Event)
    requires SvGood(c, sv)
    ensures Changed(sv, At(c, sv, i, ev), i, Overwritten(View(sv, i), ev, Step(c, View(sv, i), ev)))
  {
    assert Shaped(sv);
    AtSlotsGood(c, sv, i, ev);
    SlotHeld(c, sv, i);
    hide Step, SvGood, Good, Held, Overwritten, Foreign, FdFrame;
    StepForeign(c, View(sv, i), ev);
    StepFrame(c, View(sv, i), ev);
    OverwrittenOwn(c, View(sv, i), ev);
    HeldOpen(c, View(At(c, sv, i, ev), i));
  }

  lemma SlotHeld(c: Config, sv: Server, i: Slot)
    requires SvGood(c, sv)
    ensures Good(c, View(sv, i)) && Held(sv.sessions[i]) <= sv.w.fds
    ensures forall j: Slot | j != i :: Held(sv.sessions[i]) !! Held(sv.sessions[j])
  {
    hide Good, Held, Actives;
    HeldOpen(c, View(sv, i));
  }

  lemma AtAccounted(c: Config, sv: Server, i: Slot, ev: Event, others: set<int>)
    requires SvGood(c, sv) && Accounted(sv, others)
    ensures Accounted(At(c, sv, i, ev), others + Overwritten(View(sv, i), ev, Step(c, View(sv, i), ev)))
  {
    hide Step, SvGood, At, Overwritten, HeldBySome, Changed;
    GoodShaped(c, sv);
    var sv' := At(c, sv, i, ev);
    var lost := Overwritten(View(sv, i), ev, Step(c, View(sv, i), ev));
    AtChanges(c, sv, i, ev);
    forall fd
      ensures && (fd in sv'.w.fds <==> fd in others + lost || HeldBySome(sv', fd))
              && !(fd in others + lost && HeldBySome(sv', fd))
    {
      FdAccounted(sv, sv', i, others, lost, fd);
    }
  }

  lemma OverwrittenOwn(c: Config, st: St, ev: Event)
    requires Good(c, st)
    ensures var r := Step(c, st, ev);
            var lost := Overwritten(st, ev, r);
            lost <= Held(st.s) && lost !! Held(r.s)
  {
    StepGood(c, st, ev);
    StepForeign(c, st, ev);
    HeldOpen(c, Step(c, st, ev));
    hide Step, Tracks, VerbOf, IsTransferVerb;
  }

  /** The account of one descriptor after slot `i` has changed. */
  lemma FdAccounted(sv: Server, sv': Server, i: Slot, others: set<int>, lost: set<int>, fd: int)
    requires Shaped(sv) && Shaped(sv') && Accounted(sv, others) && Changed(sv, sv', i, lost)
    ensures fd in sv'.w.fds <==> fd in others + lost || HeldBySome(sv', fd)
    ensures !(fd in others + lost && HeldBySome(sv', fd))
  {
    hide Held;
    assert fd in Held(sv'.sessions[i]) ==> HeldBySome(sv', fd);
    assert fd in Held(sv.sessions[i]) ==> HeldBySome(sv, fd);
    forall j: Slot | j != i && fd in Held(sv.sessions[j])
      ensures HeldBySome(sv, fd) && HeldBySome(sv', fd)
    {
      assert fd in Held(sv'.sessions[j]);
    }
  }

  /** The descriptors overwritten in the course of a run. */
  function Lost(c: Config, sv: Server, evs: seq<(Slot, Event)>): set<int>
    requires Shaped(sv)
  {
    if evs == [] then {}
    else
      var n := |evs| - 1;
      var st := View(Run(c, sv, evs[..n]), evs[n].0);
      Lost(c, sv, evs[..n]) + Overwritten(st, evs[n].1, Step(c, st, evs[n].1))
  }

  /** One more event: what it makes its session forget is lost as well. */
  lemma LostSnoc(c: Config, sv: Server, evs: seq<(Slot, Event)>, i: Slot, ev: Event)
    requires Shaped(sv)
    ensures var u := Run(c, sv, evs);
            && Run(c, sv, evs + [(i, ev)]) == At(c, u, i, ev)
            && Lost(c, sv, evs + [(i, ev)]) == Lost(c, sv, evs) + Overwritten(View(u, i), ev, Step(c, View(u, i), ev))
  {
    hide At, Step, Overwritten;
    assert (evs + [(i, ev)])[..|evs|] == evs;
  }

  lemma {:induction false} RunAccounted(c: Config, sv: Server, evs: seq<(Slot, Event)>, others: set<int>)
    requires SvGood(c, sv) && Accounted(sv, others)
    ensures Accounted(Run(c, sv, evs), others + Lost(c, sv, evs))
  {
    hide SvGood, Accounted, Overwritten, Step, At;
    GoodShaped(c, sv);
    if evs != [] {
      var n := |evs| - 1;
      var u := Run(c, sv, evs[..n]);
      RunAccounted(c, sv, evs[..n], others);
      RunGood(c, sv, evs[..n]);
      AtAccounted(c, u, evs[n].0, evs[n].1, others + Lost(c, sv, evs[..n]));
      var st := View(u, evs[n].0);
      UnionAssociative(others, Lost(c, sv, evs[..n]), Overwritten(st, evs[n].1, Step(c, st, evs[n].1)));
    } else {
      assert others + {} == others;
    }
  }

  lemma UnionAssociative(a: set<int>, b: set<int>, d: set<int>)
    ensures a + b + d == a + (b + d)
  {
  }

  /**
    No descriptor is ever lost track of: in every reachable state, what is open is the
    server's own socket, what the sessions hold, and what was overwritten on the way.
  */
  lemma ReachableSockets(c: Config, files: Files, sock: int, evs: seq<(Slot, Event)>)
    ensures var sv := Boot(files, sock);
            Accounted(Run(c, sv, evs), Own(sock) + Lost(c, sv, evs))
  {
    var sv := Boot(files, sock);
    BootGood(c, files, sock);
    assert forall i: Slot :: sv.sessions[i] == BLANK;
    hide SvGood, Run, Lost;
    RunAccounted(c, sv, evs, Own(sock));
  }

  /** What gets overwritten was a session's: the server's own socket, or whatever else was set apart, never is. */
  lemma {:induction false} LostElsewhere(c: Config, sv: Server, evs: seq<(Slot, Event)>, others: set<int>)
    requires SvGood(c, sv) && Accounted(sv, others)
    ensures others !! Lost(c, sv, evs)
  {
    hide SvGood, Overwritten, Step, At;
    GoodShaped(c, sv);
    if evs != [] {
      var n := |evs| - 1;
      var u := Run(c, sv, evs[..n]);
      LostElsewhere(c, sv, evs[..n], others);
      RunAccounted(c, sv, evs[..n], others);
      RunGood(c, sv, evs[..n]);
      LostHeld(c, u, evs[n].0, evs[n].1, others + Lost(c, sv, evs[..n]));
    }
  }

  lemma LostHeld(c: Config, u: Server, i: Slot, ev: Event, others: set<int>)
    requires SvGood(c, u) && Accounted(u, others)
    ensures others !! Overwritten(View(u, i), ev, Step(c, View(u, i), ev))
  {
    assert Good(c, View(u, i));
    hide Step, Overwritten, Good;
    OverwrittenOwn(c, View(u, i), ev);
    forall fd | fd in Held(u.sessions[i]) ensures fd !in others {
      assert HeldBySome(u, fd);
    }
  }

  /** After the exit nothing is left open but what was overwritten on the way, and that is not the server's socket. */
  lemma ExitClosesSockets(c: Config, files: Files, sock: int, evs: seq<(Slot, Event)>, ios: Slot -> Io)
    ensures var sv := Run(c, Boot(files, sock), evs);
            var lost := Lost(c, Boot(files, sock), evs);
            Exit(c, sv, sock, ios).w.fds == lost && (sock > 0 ==> sock !in lost)
  {
    var boot := Boot(files, sock);
    BootGood(c, files, sock);
    BootAccounted(files, sock);
    hide SvGood, Accounted, Run, Lost, ExitEvents;
    RunGood(c, boot, evs);
    ReachableSockets(c, files, sock, evs);
    LostElsewhere(c, boot, evs, Own(sock));
    ExitClosesHeld(c, Run(c, boot, evs), ios, Own(sock) + Lost(c, boot, evs));
  }

  lemma BootAccounted(files: Files, sock: int)
    ensures Accounted(Boot(files, sock), Own(sock))
  {
    assert forall i: Slot :: Boot(files, sock).sessions[i] == BLANK;
  }

  lemma ExitClosesHeld(c: Config, sv: Server, ios: Slot -> Io, others: set<int>)
    requires SvGood(c, sv) && Accounted(sv, others)
    ensures Run(c, sv, ExitEvents(ios, MAX_SESSIONS)).w.fds == others
  {
    hide SvGood, Accounted, Run, Lost, ExitEvents;
    GoodShaped(c, sv);
    RunAccounted(c, sv, ExitEvents(ios, MAX_SESSIONS), others);
    ExitLosesNothing(c, sv, ios, MAX_SESSIONS);
    ExitBlanks(c, sv, ios);
    NothingMore(others);
    NothingHeld(Run(c, sv, ExitEvents(ios, MAX_SESSIONS)), others);
  }

  lemma NothingMore(s: set<int>)
    ensures s + {} == s
  {
  }

  lemma NothingHeld(sv: Server, others: set<int>)
    requires Shaped(sv) && Accounted(sv, others)
    requires forall i: Slot :: sv.sessions[i] == BLANK
    ensures sv.w.fds == others
  {
    assert Held(BLANK) == {};
    forall fd
      ensures fd in sv.w.fds <==> fd in others
    {
      assert !HeldBySome(sv, fd);
    }
  }

  lemma {:induction false} ExitLosesNothing(c: Config, sv: Server, ios: Slot -> Io, n: nat)
    requires Shaped(sv) && n <= MAX_SESSIONS
    ensures Lost(c, sv, ExitEvents(ios, n)) == {}
  {
    hide Run, Step;
    if n > 0 {
      var evs := ExitEvents(ios, n);
      assert evs[..|evs| - 1] == ExitEvents(ios, n - 1);
      ExitLosesNothing(c, sv, ios, n - 1);
    }
  }
}
