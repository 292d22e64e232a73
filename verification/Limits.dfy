/**
  Where the program's promises end: for each, the exact condition under which it is kept,
  and an input on which it is not.
*/
module Limits {
  import opened CText
  import opened Session
  import opened Monitor
  import opened Conduct
  import opened Frames
  import opened Transfers
  import opened Server
  import opened Deliveries
  import opened Completion
  import opened CommandLines
  import opened Dialogues
  import opened Sockets
  import P = Pathname
  import N = NxFile
  import H = HostPort
  import D = Devices

  // ------------------------------------------------- leftovers of transfers that failed

  /** Nothing is left over from an earlier transfer. */
  predicate Settled(s: Session) {
    !s.Busy() ==> s.transfer.offset == 0 && s.transfer.size == 0
  }

  lemma TransferEndSettles(c: Config, st: St, closing: seq<N.Fault>)
    ensures Settled(TransferEnd(c, st, closing).s)
  {
  }

  lemma FinishSettles(c: Config, st: St, code: nat, closing: seq<N.Fault>)
    ensures Settled(Finish(c, st, code, closing).s)
  {
    TransferEndSettles(c, Say(st, code), closing);
    hide TransferEnd;
  }

  lemma StorSettled(c: Config, st0: St, data: string, io: Io)
    requires Settled(st0.s) && !st0.s.Busy()
    ensures Settled(CmdStor(c, st0, data, io).s)
  {
    hide Resolve, ScanLine, FixedPath;
    var append := st0.s.marker == -1;
    var st := if append then st0.(s := st0.s.(marker := 0)) else st0;
    var path := FixedPath(c, Resolve(st.s, ScanLine(data, PATH_LIMIT)).path);
    var mode := if append then N.APPEND else N.WRITE;
    VfsKeepsMarks(c, st, path, mode, io.faults);
    var o := VfsOpen(st, path, mode, io.faults);
    hide VfsOpen;
    DataOpenTraffic(o.st, io);
    var d := DataOpen(o.st, io);
    hide DataOpen;
    VfsKeepsMarks(c, Say(d.st, 425), path, mode, io.closing);
    hide VfsClose;
  }

  lemma ConnectionSettled(c: Config, st: St, data: string, io: Io)
    requires Settled(st.s)
    ensures Settled(CmdPort(c, st, data, io).s) && Settled(CmdPasv(c, st, io).s) && Settled(CmdAbor(c, st, io).s)
  {
    TransferEndSettles(c, st, io.closing);
    hide TransferEnd, H.ParsePort, H.PassiveText;
  }

  /** A listing that does not start leaves nothing behind, unless it is the LIST of one file. */
  lemma ListSettled(c: Config, st: St, data: string, mode: Mode, io: Io)
    requires Settled(st.s) && !st.s.Busy() && (mode == Nlst || (mode == List && !io.entry.IsFile?))
    ensures Settled(CmdList(c, st, data, mode, io).s)
  {
    hide ListPath, ScanLine, FixedPath, DataOpen, DeviceList, Build, TrafficOf;
    var b := ListPath(st.s, ScanLine(data, PATH_LIMIT));
    var st1 := st.(s := st.s.(tempPath := b.path));
    var st2 := st1.(s := st1.s.(tempPath := FixedPath(c, b.path)));
    DataOpenTraffic(st1, io);
    var st3 := SetTransfer(st2, st2.s.transfer.(dir := Dir(true, io.entries)));
    DataOpenTraffic(Emit(st3, DirOpened(st2.s.tempPath)), io);
  }

  /** The commands that can leave an offset or a size behind: RETR, and LIST of one file. */
  predicate Leaves(v: Verb, io: Io) {
    v == RETR || (v == LIST && io.entry.IsFile?)
  }

  lemma TransferVerbSettled(c: Config, st: St, v: Verb, data: string, io: Io)
    requires Settled(st.s) && !st.s.Busy() && IsTransferVerb(v) && !Leaves(v, io)
    ensures Settled(Execute(c, st, v, data, io).s)
  {
    hide CmdUser, CmdPass, CmdCwd, CmdCdup, CmdCode, CmdRest, CmdRnfr, CmdRnto, CmdTree, CmdSize;
    hide CmdRetr, CmdStor, CmdList, CmdPort, CmdPasv, CmdAbor, Settled;
    match v
    case STOR => StorSettled(c, st, data, io);
    case APPE =>
      MarkerSettled(st.s);
      StorSettled(c, st.(s := st.s.(marker := -1)), data, io);
    case LIST => ListSettled(c, st, data, List, io);
    case NLST => ListSettled(c, st, data, Nlst, io);
  }

  lemma MarkerSettled(s: Session)
    requires Settled(s)
    ensures Settled(s.(marker := -1))
  {
  }

  lemma ConnectionVerbSettled(c: Config, st: St, v: Verb, data: string, io: Io)
    requires Settled(st.s) && IsConnectionVerb(v)
    ensures Settled(Execute(c, st, v, data, io).s)
  {
    hide CmdUser, CmdPass, CmdCwd, CmdCdup, CmdCode, CmdRest, CmdRnfr, CmdRnto, CmdTree, CmdSize;
    hide CmdRetr, CmdStor, CmdList, CmdPort, CmdPasv, CmdAbor, Settled;
    ConnectionSettled(c, st, data, io);
  }

  lemma ExecuteSettled(c: Config, st: St, v: Verb, data: string, io: Io)
    requires Settled(st.s) && (st.s.Busy() ==> v == ABOR)
    requires !Leaves(v, io)
    ensures Settled(Execute(c, st, v, data, io).s)
  {
    hide Execute, Leaves;
    if IsTransferVerb(v) {
      TransferVerbSettled(c, st, v, data, io);
    } else if IsConnectionVerb(v) {
      ConnectionVerbSettled(c, st, v, data, io);
    } else {
      QuickCalm(c, st, v, data, io);
    }
  }

  lemma {:induction false} ListStepSettles(c: Config, st: St, sends: seq<SendAnswer>, closing: seq<N.Fault>)
    requires st.s.Busy()
    ensures Settled(ListStep(c, st, sends, closing).s)
    decreases LinesLeft(c, st.s.transfer), st.s.transfer.size
  {
    hide Finish, Examined, Fits, DeviceLine, Terminated, Overlay, ListBytes;
    var t := st.s.transfer;
    if t.size > 0 {
      match NextSend(sends)
      case SendBlocks =>
      case SendFails => FinishSettles(c, st, 426, closing);
      case Took(count) =>
        var m := SendCount(count, t.size);
        var st2 := SetTransfer(Emit(st, Sent(ListBytes(t.listBuf, t.offset, m))), Drained(t));
        FinishSettles(c, st2, 226, closing);
        if m == t.size { ListStepSettles(c, st2, RestSends(sends), closing); }
    } else if DeviceList(c, st.s.tempPath) {
      if t.index < |c.devices| {
        ListStepSettles(c, SetTransfer(st, NextDevice(c, t)), sends, closing);
      }
    } else if t.dir.entries == [] {
      FinishSettles(c, st, 226, closing);
    } else {
      ListStepSettles(c, SetTransfer(st, NextEntry(t, st.s.tempPath)), sends, closing);
    }
  }

  lemma ProgressSettles(c: Config, st: St, io: Io)
    requires st.s.Busy()
    ensures Settled(Progress(c, st, io).s)
  {
    hide Finish, ListStep, N.Write;
    forall u: St, code ensures Settled(Finish(c, u, code, io.closing).s) {
      FinishSettles(c, u, code, io.closing);
    }
    ListStepSettles(c, st, io.sends, io.closing);
  }

  /**
    A session stays settled through every event but a RETR, or a LIST of one file, that does
    not get its transfer going; so only those leave something over.
  */
  lemma SettledKept(c: Config, st: St, ev: Event)
    requires Good(c, st) && Settled(st.s)
    ensures var r := Step(c, st, ev);
            Settled(r.s) || (ev.Command? && VerbOf(ev.text).Some? && Leaves(VerbOf(ev.text).value, ev.io))
  {
    hide LineStep, Progress, TransferEnd, VerbOf, Sound, Tracks;
    match ev
    case Connect(io) =>
    case DataReady(io) => if st.s.active && st.s.Busy() { ProgressSettles(c, st, io); }
    case Disconnect(io) =>
    case Command(text, io) =>
      if st.s.active && FindCrlf(text) < |text| {
        var len := FindCrlf(text) + 2;
        if LineStep(c, st, text, len, io).s != st.s {
          var data := LineOutcome(c, st, text, len, io);
          GatePassed(c, st, text, len, io);
          if !Leaves(VerbOf(text).value, io) {
            ExecuteSettled(c, Emit(st, Line(text[..len])), VerbOf(text).value, data, io);
          }
        }
      }
  }

  /** What changes a busy session is an ABOR. */
  lemma GatePassed(c: Config, st: St, text: string, len: nat, io: Io)
    requires IsLine(text, len) && LineStep(c, st, text, len, io).s != st.s
    ensures st.s.Busy() ==> VerbOf(text) == H.Some(ABOR)
  {
    hide Execute, VerbOf, ScanLine, ArgOf;
  }

  // ------------------------------------------------------------------------ listings

  /**
    What a client gets that asks for a listing of a directory or of the devices: after the
    226 it has been sent what an earlier transfer left pending, and the lines of all listed
    entries, in order.  That is the listing, neither more nor less, if and only if nothing
    was left pending and a left-over offset does no harm.
  */
  lemma ListingExact(c: Config, sv: Server, i: Slot, text: string, io: Io, evs: seq<(Slot, Event)>)
    requires SvGood(c, sv) && !sv.sessions[i].Busy()
    requires var sv' := At(c, sv, i, Command(text, io));
             var s := sv'.sessions[i];
             && Listing(s) && (s.transfer.dir.isValid || DeviceList(c, s.tempPath))
             && ReadInPeace(c, sv', i, evs) && Concluded(View(Run(c, sv', evs), i), 226)
    ensures var sv' := At(c, sv, i, Command(text, io));
            var s := sv'.sessions[i];
            var t := sv.sessions[i].transfer;
            var lines := AllLines(c, s.tempPath, io.entries, s.transfer.mode);
            var before, after := TrafficOf(sv'.logs[i]).sent, TrafficOf(Run(c, sv', evs).logs[i]).sent;
            && after == before + Promised(t, lines)
            && (after == before + Render(lines) <==> Clean(t, lines))
  {
    var sv' := At(c, sv, i, Command(text, io));
    assert Good(c, View(sv, i));
    AtGood(c, sv, i, Command(text, io));
    hide Good;
    ListLine(c, View(sv, i), text, io);
    assert View(sv', i) == Step(c, View(sv, i), Command(text, io));
    hide Step, At, Run, SvGood, Orderly, Owed, Render, Promised, Clean, AllLines, TrafficOf, ReadInPeace, Concluded;
    DownloadedFile(c, sv', i, evs);
    var s := sv'.sessions[i];
    SameEnd(TrafficOf(sv'.logs[i]).sent, Owed(c, View(sv', i)),
            Render(AllLines(c, s.tempPath, io.entries, s.transfer.mode)));
  }

  /** The three lines, and what the listing then owes. */
  lemma StaleDialogue(c: Config, st: St, a: H.Address, name: string, io1: Io, io2: Io, io3: Io)
    requires Ready(c, st) && st.s.marker <= 0
    requires H.ValidAddress(a)
    requires Named(name) && Resolve(st.s, name).ok && Content(st.w.files, PathOf(c, st.s, name)) != []
    requires var st1 := Step(c, st, Command(Spoken(PORT, H.Some(H.PassiveText(a))), io1));
             var st2 := Step(c, st1, Command(Spoken(RETR, H.Some(name)), io2));
             && Readable(st.s, io2) && !Reachable(st1, io2) && Reachable(st2, io3) && Listable(c, st.s, io3)
    ensures var st1 := Step(c, st, Command(Spoken(PORT, H.Some(H.PassiveText(a))), io1));
            var st2 := Step(c, st1, Command(Spoken(RETR, H.Some(name)), io2));
            var st3 := Step(c, st2, Command(Spoken(LIST, H.None), io3));
            && Answered(st, st3, [200, 150, 425, 150])
            && Downloading(st3.s) && Orderly(c, st3)
            && Owed(c, st3) == ListBytes(st.s.transfer.listBuf, 0, |Content(st.w.files, PathOf(c, st.s, name))|)
                               + Render(AllLines(c, st3.s.tempPath, io3.entries, List))
  {
    hide Spoken, Step, Good, TrafficOf, Orderly, Owed, H.PassiveText, H.ValidAddress;
    hide Reachable, Render, AllLines, ListBytes, Resolve, FixedPath, DeviceList;
    var port, retr, list := Spoken(PORT, H.Some(H.PassiveText(a))), Spoken(RETR, H.Some(name)), Spoken(LIST, H.None);
    var st1 := Step(c, st, Command(port, io1));
    var st2 := Step(c, st1, Command(retr, io2));
    var st3 := Step(c, st2, Command(list, io3));
    PortSpoken(c, st, a, io1);
    SameNames(c, st.s, st1.s, name);
    RetrSpoken(c, st1, name, io2);
    AnsweredThen(st, st1, st2, [200], [150, 425]);
    ListSpoken(c, st2, LIST, io3);
    AnsweredThen(st, st2, st3, [200, 150, 425], [150]);
    ListLine(c, st2, list, io3);
    StalePromise(st2.s.transfer, AllLines(c, st3.s.tempPath, io3.entries, List));
  }

  lemma StalePromise(t: Transfer, lines: seq<CString>)
    requires t.size > 0 && t.offset == 0
    ensures Promised(t, lines) == ListBytes(t.listBuf, 0, t.size) + Render(lines)
  {
  }

  /**
    A client announces its address, is refused the connection for a file with a 425, and
    asks for the listing of its directory.  It is sent as many bytes as that file is long,
    whatever list_buf and the memory behind it hold, then the listing, and a 226.
  */
  lemma StaleListing(c: Config, sv: Server, i: Slot, a: H.Address, name: string, io1: Io, io2: Io, io3: Io, reader: Io)
    returns (evs: seq<(Slot, Event)>)
    requires SvGood(c, sv) && Ready(c, View(sv, i)) && sv.sessions[i].marker <= 0
    requires H.ValidAddress(a) && Named(name) && Resolve(sv.sessions[i], name).ok
    requires Content(sv.w.files, PathOf(c, sv.sessions[i], name)) != [] && Cooperative(reader)
    requires var sv1 := At(c, sv, i, Command(Spoken(PORT, H.Some(H.PassiveText(a))), io1));
             var sv2 := At(c, sv1, i, Command(Spoken(RETR, H.Some(name)), io2));
             && Readable(sv.sessions[i], io2) && !Reachable(View(sv1, i), io2)
             && Reachable(View(sv2, i), io3) && Listable(c, sv.sessions[i], io3)
    ensures var sv1 := At(c, sv, i, Command(Spoken(PORT, H.Some(H.PassiveText(a))), io1));
            var sv2 := At(c, sv1, i, Command(Spoken(RETR, H.Some(name)), io2));
            var sv3 := At(c, sv2, i, Command(Spoken(LIST, H.None), io3));
            var s := sv3.sessions[i];
            var n := |Content(sv.w.files, PathOf(c, sv.sessions[i], name))|;
            var listing := Render(AllLines(c, s.tempPath, io3.entries, List));
            var before, after := TrafficOf(sv.logs[i]).sent, TrafficOf(Run(c, sv3, evs).logs[i]).sent;
            && Answered(View(sv, i), View(sv3, i), [200, 150, 425, 150])
            && ReadInPeace(c, sv3, i, evs) && Concluded(View(Run(c, sv3, evs), i), 226)
            && after == before + ListBytes(sv.sessions[i].transfer.listBuf, 0, n) + listing
            && after != before + listing
  {
    hide Spoken, Step, Run, Good, SvGood, TrafficOf, Orderly, Owed, ReadInPeace, Concluded, H.PassiveText;
    hide H.ValidAddress;
    hide Readable, Reachable, Listable, Cooperative, Render, AllLines, ListBytes, Resolve, FixedPath;
    GoodShaped(c, sv);
    var port, retr, list := Spoken(PORT, H.Some(H.PassiveText(a))), Spoken(RETR, H.Some(name)), Spoken(LIST, H.None);
    hide At;
    ThreeLines(c, sv, i, Command(port, io1), Command(retr, io2), Command(list, io3));
    StaleDialogue(c, View(sv, i), a, name, io1, io2, io3);
    var sv3 := At(c, At(c, At(c, sv, i, Command(port, io1)), i, Command(retr, io2)), i, Command(list, io3));
    evs := DownloadRuns(c, sv3, i, reader);
    DownloadedFile(c, sv3, i, evs);
    StrayBytes(TrafficOf(sv.logs[i]).sent,
               ListBytes(sv.sessions[i].transfer.listBuf, 0, |Content(sv.w.files, PathOf(c, sv.sessions[i], name))|),
               Render(AllLines(c, sv3.sessions[i].tempPath, io3.entries, List)));
  }

  /** Events on one slot are steps of its session. */
  lemma ThreeLines(c: Config, sv: Server, i: Slot, e1: Event, e2: Event, e3: Event)
    requires SvGood(c, sv)
    ensures var sv1 := At(c, sv, i, e1);
            var sv2 := At(c, sv1, i, e2);
            var sv3 := At(c, sv2, i, e3);
            && SvGood(c, sv2) && SvGood(c, sv3)
            && View(sv1, i) == Step(c, View(sv, i), e1)
            && View(sv2, i) == Step(c, View(sv1, i), e2)
            && View(sv3, i) == Step(c, View(sv2, i), e3)
  {
    hide SvGood, Step;
    GoodShaped(c, sv);
    AtGood(c, sv, i, e1);
    AtGood(c, At(c, sv, i, e1), i, e2);
    AtGood(c, At(c, At(c, sv, i, e1), i, e2), i, e3);
  }

  lemma StrayBytes(sent: seq<byte>, stray: seq<byte>, listing: seq<byte>)
    requires stray != []
    ensures sent + (stray + listing) == sent + stray + listing != sent + listing
  {
    assert |sent + stray + listing| != |sent + listing|;
  }

  /** What a control line that starts a listing leaves owed. */
  ghost predicate ListingStarted(c: Config, t: Transfer, r: St, entries: seq<DirEntry>) {
    var lines := AllLines(c, r.s.tempPath, entries, r.s.transfer.mode);
    && Orderly(c, r)
    && Owed(c, r) == Promised(t, lines)
    && (Owed(c, r) == Render(lines) <==> Clean(t, lines))
  }

  lemma ListLine(c: Config, st: St, text: string, io: Io)
    requires Good(c, st) && !st.s.Busy()
    requires var s := Step(c, st, Command(text, io)).s;
             Listing(s) && (s.transfer.dir.isValid || DeviceList(c, s.tempPath))
    ensures ListingStarted(c, st.s.transfer, Step(c, st, Command(text, io)), io.entries)
  {
    hide LineStep, ListingStarted, VerbOf;
    if st.s.active && FindCrlf(text) < |text| {
      var len := FindCrlf(text) + 2;
      var data := LineOutcome(c, st, text, len, io);
      ExecuteList(c, Emit(st, Line(text[..len])), VerbOf(text).value, data, io);
    }
  }

  lemma ExecuteList(c: Config, st: St, v: Verb, data: string, io: Io)
    requires !st.s.Busy() && !st.s.transfer.dir.isValid
    requires var s := Execute(c, st, v, data, io).s;
             Listing(s) && (s.transfer.dir.isValid || DeviceList(c, s.tempPath))
    ensures ListingStarted(c, st.s.transfer, Execute(c, st, v, data, io), io.entries)
  {
    hide CmdUser, CmdPass, CmdCwd, CmdCdup, CmdCode, CmdRest, CmdRnfr, CmdRnto, CmdTree, CmdSize;
    hide CmdRetr, CmdStor, CmdList, CmdPort, CmdPasv, CmdAbor, ListingStarted;
    if v == LIST || v == NLST {
      ListCommandOwes(c, st, data, if v == LIST then List else Nlst, io);
    } else {
      StartsItsOwn(c, st, v, data, io);
      hide Execute;
    }
  }

  lemma ListCommandOwes(c: Config, st: St, data: string, mode: Mode, io: Io)
    requires !st.s.Busy() && !st.s.transfer.dir.isValid && (mode == List || mode == Nlst)
    requires var s := CmdList(c, st, data, mode, io).s;
             Listing(s) && (s.transfer.dir.isValid || DeviceList(c, s.tempPath))
    ensures ListingStarted(c, st.s.transfer, CmdList(c, st, data, mode, io), io.entries)
  {
    hide ListPath, Orderly, Owed, AllLines, Promised, Clean, Render, ScanLine;
    var b := ListPath(st.s, ScanLine(data, PATH_LIMIT));
    var st1 := st.(s := st.s.(tempPath := b.path));
    if DeviceList(c, b.path) {
      ListOwes(c, st1, mode, io);
      DataOpenTraffic(st1, io);
      hide DataOpen, TrafficOf;
    } else {
      NotTheDeviceList(c, b.path);
      var st2 := st1.(s := st1.s.(tempPath := FixedPath(c, b.path)));
      ListOwes(c, st2, mode, io);
      ListFromShape(st2, mode, io);
      hide ListDir, ListFile, FixedPath, TrafficOf;
    }
  }

  lemma ListFromShape(st: St, mode: Mode, io: Io)
    requires !st.s.Busy() && !st.s.transfer.dir.isValid
    ensures ListDir(st, mode, io).s.tempPath == st.s.tempPath
    ensures ListDir(st, mode, io).s.Busy() ==> ListDir(st, mode, io).s.transfer.mode == mode
    ensures ListFile(st, io).s.tempPath == st.s.tempPath && !ListFile(st, io).s.transfer.dir.isValid
  {
    DataOpenTraffic(Emit(SetTransfer(st, st.s.transfer.(dir := Dir(true, io.entries))), DirOpened(st.s.tempPath)), io);
    DataOpenTraffic(SetTransfer(st, Build(st.s.transfer, io.line)), io);
    hide DataOpen;
  }

  /** A line of exactly 1024 characters passes the size check and is sent without its last. */
  lemma LongLine(line: CString)
    requires |line| == LIST_BUF_SIZE
    ensures Fits(line) && Render([line]) == line[..LIST_BUF_SIZE - 1] + [NUL]
  {
    assert Printed(line) + [] == Printed(line);
    assert [line][1..] == [];
  }

  /**
    NLST of a directory whose only entry has a name of 1022 characters: the client gets the
    name, CR, and a NUL in the place of LF, and then its 226.
  */
  lemma LongLineCut(c: Config, sv: Server, i: Slot, name: CString, io: Io, reader: Io)
    returns (evs: seq<(Slot, Event)>)
    requires SvGood(c, sv) && Ready(c, View(sv, i)) && Settled(sv.sessions[i])
    requires |name| == LIST_BUF_SIZE - 2 && io.entries == [DirEntry(name, true, io.line)]
    requires !DeviceList(c, sv.sessions[i].pwd) && Examined(io.entries[0], FixedPath(c, sv.sessions[i].pwd))
    requires Reachable(View(sv, i), io) && io.entry.IsDir? && io.dirOk && Cooperative(reader)
    ensures var sv' := At(c, sv, i, Command(Spoken(NLST, H.None), io));
            var u := Run(c, sv', evs);
            && Concluded(View(u, i), 226)
            && TrafficOf(u.logs[i]).sent == TrafficOf(sv.logs[i]).sent + name + ['\r', NUL]
  {
    hide Spoken, Step, Run, At, SvGood, TrafficOf, Orderly, Owed, Cooperative, Concluded, Reachable, FixedPath;
    hide Examined, Ready;
    hide AllLines, Promised, Clean, Render, ReadInPeace;
    GoodShaped(c, sv);
    var line := Command(Spoken(NLST, H.None), io);
    var sv' := At(c, sv, i, line);
    ReadySettled(c, View(sv, i));
    ListSpoken(c, View(sv, i), NLST, io);
    OneLine(c, sv, i, line);
    AtGood(c, sv, i, line);
    NotDevices(c, sv.sessions[i].pwd);
    OneEntry(c, sv'.sessions[i].tempPath, name, io, sv.sessions[i].transfer);
    ListLine(c, View(sv, i), Spoken(NLST, H.None), io);
    evs := DownloadRuns(c, sv', i, reader);
    DownloadedFile(c, sv', i, evs);
    ConcatAssociative(TrafficOf(sv.logs[i]).sent, name, ['\r', NUL]);
  }

  lemma ReadySettled(c: Config, st: St)
    requires Ready(c, st) && Settled(st.s)
    ensures Good(c, st) && !st.s.Busy() && st.s.transfer.offset == 0 && st.s.transfer.size == 0
  {
  }

  lemma OneLine(c: Config, sv: Server, i: Slot, ev: Event)
    requires Shaped(sv)
    ensures View(At(c, sv, i, ev), i) == Step(c, View(sv, i), ev)
  {
    hide Step;
  }

  lemma NotDevices(c: Config, path: string)
    requires !DeviceList(c, path)
    ensures !DeviceList(c, FixedPath(c, path))
  {
    NotTheDeviceList(c, path);
  }

  lemma OneEntry(c: Config, path: string, name: CString, io: Io, t: Transfer)
    requires |name| == LIST_BUF_SIZE - 2 && io.entries == [DirEntry(name, true, io.line)]
    requires !DeviceList(c, path) && Examined(io.entries[0], path) && t.offset == 0 && t.size == 0
    ensures Promised(t, AllLines(c, path, io.entries, Nlst)) == name + ['\r', NUL]
  {
    var line: CString := name + CRLF;
    hide Examined, DeviceList;
    assert io.entries[1..] == [];
    assert [line] + [] == [line];
    assert EntryLines([], path, true) == [];
    assert EntryLine(io.entries[0], true) == line;
    assert AllLines(c, path, io.entries, Nlst) == [line];
    LongLine(line);
    hide Render;
    assert line[..LIST_BUF_SIZE - 1] == name + ['\r'];
    assert (name + ['\r']) + [NUL] == name + ['\r', NUL];
  }

  // ------------------------------------------------------------------------- uploads

  lemma DataStep(c: Config, st: St, io: Io)
    requires st.s.active && st.s.transfer.mode == Stor
    ensures Step(c, st, DataReady(io)) == StorStep(c, st, io)
  {
    hide StorStep;
  }

  lemma BegunMode(c: Config, st: St, r: St, path: string, base: seq<byte>)
    requires Begun(c, st, r, path, base)
    ensures r.s.transfer.mode == Stor && path in r.w.files && Storing(c, r)
  {
  }

  /**
    APPE to a file with contents, and then a receive that would block: the engine forgets
    what the file was opened with.  When the client closes, the chunked build shrinks the
    file to nothing, with a 226.
  */
  lemma BlockedAppend(c: Config, st: St, name: string, io: Io, blocked: Io, last: Io)
    requires Ready(c, st) && Settled(st.s) && Named(name) && Resolve(st.s, name).ok
    requires Reachable(st, io) && io.faults == []
    requires blocked.recv.RecvBlocks? && last.recv == Got([]) && last.closing == []
    ensures var path := PathOf(c, st.s, name);
            var before := Content(st.w.files, path);
            var u := Step(c, st, Command(Spoken(APPE, H.Some(name)), io));
            var v := Step(c, u, DataReady(blocked));
            var r := Step(c, v, DataReady(last));
            && StoredAt(u) == before && StoredAt(v) == []
            && Answered(st, r, [150, 226])
            && Content(r.w.files, path) == if c.build.Chunked? then [] else before
  {
    hide Spoken, Step, Resolve, FixedPath, Good, Sturdy, TrafficOf, StorStep;
    var path := PathOf(c, st.s, name);
    var u := Step(c, st, Command(Spoken(APPE, H.Some(name)), io));
    StorSpoken(c, st, APPE, name, io);
    BegunMode(c, st, u, path, Content(st.w.files, path));
    BlockedThenClosed(c, u, blocked, last);
    DataStep(c, u, blocked);
    DataStep(c, StorStep(c, u, blocked), last);
  }

  lemma BlockedThenClosed(c: Config, u: St, blocked: Io, last: Io)
    requires u.s.active && u.s.transfer.mode == Stor && u.s.transfer.offset == 0 && u.s.transfer.file.path in u.w.files
    requires var h := u.s.transfer.file; var n := |Content(u.w.files, h.path)|; h == Handle(h.path, true, n, n, [])
    requires blocked.recv.RecvBlocks? && last.recv == Got([]) && last.closing == []
    ensures var v := StorStep(c, u, blocked);
            var r := StorStep(c, v, last);
            var before := Content(u.w.files, u.s.transfer.file.path);
            && v.s.active && v.s.transfer.mode == Stor && StoredAt(v) == []
            && TrafficOf(r.log) == Count(TrafficOf(u.log), Reply(226, ""))
            && Content(r.w.files, u.s.transfer.file.path) == if c.build.Chunked? then [] else before
  {
    hide Finish, TrafficOf;
    var v := StorStep(c, u, blocked);
    FinishTraffic(c, v, 226, last.closing);
    FinishFiles(c, v, 226, last.closing);
  }

  /**
    APPE with nothing behind its space is refused with a 501, and the next STOR appends: it
    starts from the contents that it should have replaced.
  */
  lemma BadAppend(c: Config, st: St, name: string, bad: Io, io: Io)
    requires Ready(c, st) && Named(name) && Resolve(st.s, name).ok && io.faults == []
    requires Reachable(Step(c, st, Command(Spoken(APPE, H.Some("")), bad)), io)
    ensures var u := Step(c, st, Command(Spoken(APPE, H.Some("")), bad));
            var r := Step(c, u, Command(Spoken(STOR, H.Some(name)), io));
            && u.s == st.s.(marker := -1)
            && Answered(st, r, [501, 150]) && r.s.transfer.mode == Stor
            && StoredAt(r) == Content(st.w.files, PathOf(c, st.s, name))
  {
    hide Spoken, Step, Execute, CmdStor, Resolve, FixedPath, Good, Sturdy, TrafficOf, StoredAt, Storing, Reachable;
    hide ScanLine;
    var line := Spoken(APPE, H.Some(""));
    var l := Emit(st, Line(line));
    var u := Step(c, st, Command(line, bad));
    SpokenStep(c, st, APPE, H.Some(""), bad);
    StepGood(c, st, Command(line, bad));
    StorExecutes(c, l, "" + CRLF, bad);
    ScanSpoken("", PATH_LIMIT);
    RefusedStor(c, l.(s := l.s.(marker := -1)), "" + CRLF, bad);
    LineQuiet(st, line);
    SayAnswers(l, 501, "");
    SameLog(u, Say(l, 501));
    SameNames(c, st.s, u.s, name);
    StorSpoken(c, u, STOR, name, io);
    var r := Step(c, u, Command(Spoken(STOR, H.Some(name)), io));
    BegunMode(c, u, r, PathOf(c, st.s, name), Content(st.w.files, PathOf(c, st.s, name)));
    AnsweredThen(st, u, r, [501], [150]);
  }

  lemma RefusedStor(c: Config, st: St, data: string, io: Io)
    requires ScanLine(data, PATH_LIMIT) == ""
    ensures CmdStor(c, st, data, io) == Say(st, 501)
  {
    hide ScanLine;
  }

  /**
    A RETR from a restart marker that is refused leaves its offset to the next STOR: the
    first receive that would block makes the engine skip so many bytes, and zeros stand there.
  */
  lemma LeftoverStor(c: Config, st: St, file: string, name: string, refused: Io, io: Io, blocked: Io)
    requires Ready(c, st) && st.s.marker > 0
    requires Named(file) && Resolve(st.s, file).ok && PathOf(c, st.s, file) in st.w.files
    requires Readable(st.s, refused) && !Reachable(st, refused)
    requires Named(name) && Resolve(st.s, name).ok && io.faults == []
    requires Reachable(Step(c, st, Command(Spoken(RETR, H.Some(file)), refused)), io)
    requires blocked.recv.RecvBlocks?
    ensures var st1 := Step(c, st, Command(Spoken(RETR, H.Some(file)), refused));
            var u := Step(c, st1, Command(Spoken(STOR, H.Some(name)), io));
            && Answered(st, u, [150, 425, 150])
            && StoredAt(u) == []
            && StoredAt(Step(c, u, DataReady(blocked))) == seq(st.s.marker, _ => NUL)
  {
    hide Spoken, Step, FixedPath, Good, Sturdy, TrafficOf, StorStep, StoredAt;
    var path := PathOf(c, st.s, name);
    var st1 := Step(c, st, Command(Spoken(RETR, H.Some(file)), refused));
    var u := Step(c, st1, Command(Spoken(STOR, H.Some(name)), io));
    RetrSpoken(c, st, file, refused);
    StorSpoken(c, st1, STOR, name, io);
    BegunMode(c, st1, u, path, []);
    DataStep(c, u, blocked);
    SkippedZeros(c, u, blocked);
  }

  lemma SkippedZeros(c: Config, u: St, blocked: Io)
    requires u.s.transfer.mode == Stor && blocked.recv.RecvBlocks?
    requires var h := u.s.transfer.file; Content(u.w.files, h.path) == [] && h.buf == []
    ensures StoredAt(StorStep(c, u, blocked)) == seq(u.s.transfer.offset, _ => NUL)
  {
  }

  /**
    A chunk arrives and waits in the write buffer; the client closes and gets its 226; then
    both flushes of the close fail, and the file stays empty.
  */
  lemma CloseCanLose(c: Config, st: St, name: string, io: Io, chunk: Io, last: Io)
    requires c.build.Buffered? && Ready(c, st) && st.s.marker != -1
    requires Named(name) && Resolve(st.s, name).ok && Reachable(st, io) && io.faults == []
    requires chunk.recv.Got? && 0 < |chunk.recv.data| <= FILE_BUFFER_SIZE
    requires last.recv == Got([]) && last.closing == [N.Fail(0), N.Fail(0)]
    ensures var u := Step(c, st, Command(Spoken(STOR, H.Some(name)), io));
            var v := Step(c, u, DataReady(chunk));
            var r := Step(c, v, DataReady(last));
            && StoredAt(v) == chunk.recv.data
            && TrafficOf(r.log) == TrafficOf(st.log).(received := TrafficOf(st.log).received + chunk.recv.data,
                                                      replies := TrafficOf(st.log).replies + [150, 226])
            && Content(r.w.files, PathOf(c, st.s, name)) == []
  {
    hide Spoken, Step, Resolve, FixedPath, Good, Sturdy, TrafficOf, StorStep, StoredAt;
    var path := PathOf(c, st.s, name);
    var u := Step(c, st, Command(Spoken(STOR, H.Some(name)), io));
    StorSpoken(c, st, STOR, name, io);
    BegunMode(c, st, u, path, []);
    DataStep(c, u, chunk);
    ChunkWaits(c, u, chunk);
    DataStep(c, StorStep(c, u, chunk), last);
    WaitingLost(c, StorStep(c, u, chunk), last);
  }

  lemma ChunkWaits(c: Config, u: St, io: Io)
    requires c.build.Buffered? && u.s.active && u.s.transfer.mode == Stor && u.s.transfer.file.path in u.w.files
    requires var h := u.s.transfer.file; h == Handle(h.path, true, 0, 0, []) && Content(u.w.files, h.path) == []
    requires io.recv.Got? && 0 < |io.recv.data| <= FILE_BUFFER_SIZE
    ensures var v := StorStep(c, u, io);
            var h := u.s.transfer.file;
            && v.s.active && v.s.transfer.mode == Stor
            && v.s.transfer.file == Handle(h.path, true, 0, 0, io.recv.data) && v.w.files == u.w.files
            && StoredAt(v) == io.recv.data
            && TrafficOf(v.log) == Count(TrafficOf(u.log), Received(io.recv.data))
  {
    hide Finish, TrafficOf;
    var b := io.recv.data;
    TrafficEmit(u, Received(b));
    var w := N.WriteBuffered(Mounted(u.w, u.s.transfer.file, io.faults), b);
    assert [] + b == b;
    assert w.ok && w.v.buf == b && w.v.data == [] && w.v.off == 0;
    assert u.w.files[u.s.transfer.file.path := []] == u.w.files;
  }

  lemma WaitingLost(c: Config, v: St, last: Io)
    requires c.build.Buffered? && v.s.active && v.s.transfer.mode == Stor && v.s.transfer.file.path in v.w.files
    requires var h := v.s.transfer.file;
             h == Handle(h.path, true, 0, 0, h.buf) && h.buf != [] && Content(v.w.files, h.path) == []
    requires last.recv == Got([]) && last.closing == [N.Fail(0), N.Fail(0)]
    ensures var r := StorStep(c, v, last);
            && TrafficOf(r.log) == Count(TrafficOf(v.log), Reply(226, ""))
            && Content(r.w.files, v.s.transfer.file.path) == []
  {
    hide Finish, TrafficOf;
    FinishTraffic(c, v, 226, last.closing);
    FinishFiles(c, v, 226, last.closing);
    assert last.closing[1..] == [N.Fail(0)];
  }

  // ------------------------------------------------------------- active data sockets

  /** Some descriptor of the session is open after a step but no longer the session's. */
  ghost predicate Strays(st: St, r: St) {
    exists fd :: fd in Held(st.s) && fd in r.w.fds && fd !in Held(r.s)
  }

  /**
    Opening a data connection loses a descriptor exactly if one is still there from an
    active connection that was refused: its number is overwritten.
  */
  lemma DataSocketStrays(st: St, io: Io)
    requires SocketsSound(st.s, st.w.fds) && !st.s.Busy()
    ensures Strays(st, DataOpen(st, io).st) <==> st.s.conn.Active? && st.s.dataSock > 0
  {
    var r := DataOpen(st, io).st;
    if st.s.conn.Active? && st.s.dataSock > 0 {
      assert st.s.dataSock in Held(st.s) && st.s.dataSock in r.w.fds && st.s.dataSock !in Held(r.s);
    }
  }

  /**
    A client announces its address, is refused the connection for a file, and asks for a
    listing: the socket of the refused connection is open from then on, and nobody's.
  */
  lemma SocketLost(c: Config, sv: Server, i: Slot, a: H.Address, name: string, io1: Io, io2: Io, io3: Io)
    requires SvGood(c, sv) && Ready(c, View(sv, i)) && H.ValidAddress(a)
    requires Named(name) && Resolve(sv.sessions[i], name).ok && PathOf(c, sv.sessions[i], name) in sv.w.files
    requires var sv1 := At(c, sv, i, Command(Spoken(PORT, H.Some(H.PassiveText(a))), io1));
             var sv2 := At(c, sv1, i, Command(Spoken(RETR, H.Some(name)), io2));
             && Readable(sv.sessions[i], io2) && Granted(sv1.w, io2.socket) && !io2.connectOk
             && Reachable(View(sv2, i), io3) && Listable(c, sv.sessions[i], io3)
    ensures var evs := [(i, Command(Spoken(PORT, H.Some(H.PassiveText(a))), io1)),
                        (i, Command(Spoken(RETR, H.Some(name)), io2)),
                        (i, Command(Spoken(LIST, H.None), io3))];
            var u := Run(c, sv, evs);
            && SvGood(c, u) && io2.socket in Lost(c, sv, evs)
            && io2.socket in u.w.fds && !HeldBySome(u, io2.socket)
  {
    hide Spoken, Step, At, Run, SvGood, Answered, H.PassiveText, H.ValidAddress, Readable, Listable, Resolve, PathOf;
    hide Ready;
    hide Overwritten, Reachable, HeldBySome;
    var e1 := Command(Spoken(PORT, H.Some(H.PassiveText(a))), io1);
    var e2 := Command(Spoken(RETR, H.Some(name)), io2);
    var e3 := Command(Spoken(LIST, H.None), io3);
    GoodShaped(c, sv);
    ThreeLines(c, sv, i, e1, e2, e3);
    SocketDialogue(c, View(sv, i), a, name, io1, io2, io3);
    ThreeRun(c, sv, i, e1, e2, e3);
    OverwrittenStays(c, At(c, At(c, sv, i, e1), i, e2), i, e3, io2.socket);
  }

  /** In the last of the three lines the session forgets the socket of the second. */
  lemma SocketDialogue(c: Config, st: St, a: H.Address, name: string, io1: Io, io2: Io, io3: Io)
    requires Ready(c, st) && H.ValidAddress(a)
    requires Named(name) && Resolve(st.s, name).ok && PathOf(c, st.s, name) in st.w.files
    requires var st1 := Step(c, st, Command(Spoken(PORT, H.Some(H.PassiveText(a))), io1));
             var st2 := Step(c, st1, Command(Spoken(RETR, H.Some(name)), io2));
             && Readable(st.s, io2) && Granted(st1.w, io2.socket) && !io2.connectOk
             && Reachable(st2, io3) && Listable(c, st.s, io3)
    ensures var st1 := Step(c, st, Command(Spoken(PORT, H.Some(H.PassiveText(a))), io1));
            var st2 := Step(c, st1, Command(Spoken(RETR, H.Some(name)), io2));
            var list := Command(Spoken(LIST, H.None), io3);
            && Good(c, st2) && Overwritten(st2, list, Step(c, st2, list)) == {io2.socket}
  {
    hide Spoken, Step, Good, TrafficOf, H.PassiveText, H.ValidAddress, Resolve, FixedPath, DeviceList, VerbOf;
    var st1 := Step(c, st, Command(Spoken(PORT, H.Some(H.PassiveText(a))), io1));
    var st2 := Step(c, st1, Command(Spoken(RETR, H.Some(name)), io2));
    PortSpoken(c, st, a, io1);
    SameNames(c, st.s, st1.s, name);
    RetrSpoken(c, st1, name, io2);
    ListSpoken(c, st2, LIST, io3);
    SpokenVerb(LIST, H.None, "");
    assert Spoken(LIST, H.None) + "" == Spoken(LIST, H.None);
  }

  /** What a session forgets stays open, and nobody holds it. */
  lemma OverwrittenStays(c: Config, sv: Server, i: Slot, ev: Event, fd: int)
    requires SvGood(c, sv) && fd in Overwritten(View(sv, i), ev, Step(c, View(sv, i), ev))
    ensures fd in At(c, sv, i, ev).w.fds && !HeldBySome(At(c, sv, i, ev), fd)
  {
    hide SvGood, Step, Held, Overwritten, FdFrame;
    GoodShaped(c, sv);
    AtChanges(c, sv, i, ev);
    var sv' := At(c, sv, i, ev);
    var lost := Overwritten(View(sv, i), ev, Step(c, View(sv, i), ev));
    assert fd in Foreign(View(sv', i));
    forall j: Slot ensures fd !in Held(sv'.sessions[j]) {
      assert fd in Held(sv.sessions[i]);
    }
  }

  lemma ThreeRun(c: Config, sv: Server, i: Slot, e1: Event, e2: Event, e3: Event)
    requires Shaped(sv)
    ensures var evs := [(i, e1), (i, e2), (i, e3)];
            var sv2 := At(c, At(c, sv, i, e1), i, e2);
            && Run(c, sv, evs) == At(c, sv2, i, e3)
            && Overwritten(View(sv2, i), e3, Step(c, View(sv2, i), e3)) <= Lost(c, sv, evs)
  {
    hide At, Step, Overwritten, Run, Lost;
    var none: seq<(Slot, Event)> := [];
    var one, two := none + [(i, e1)], none + [(i, e1)] + [(i, e2)];
    assert two + [(i, e3)] == [(i, e1), (i, e2), (i, e3)];
    RunNothing(c, sv);
    LostSnoc(c, sv, none, i, e1);
    LostSnoc(c, sv, one, i, e2);
    LostSnoc(c, sv, two, i, e3);
  }

  // -------------------------------------------------------------------------- long paths

  /** A canonical absolute argument is resolved to itself. */
  lemma ArgumentItself(s: Session, arg: string)
    requires P.CanonicalAbsolute(arg) && s.pwd != ""
    ensures Resolve(s, arg) == P.Built(true, arg)
  {
    P.NormaliseFixpoint(arg);
    hide P.Normalise;
  }

  /** DELE hands such an argument to the back end, less the slash in front of a device. */
  lemma DeleteSpoken(c: Config, st: St, arg: string, io: Io)
    requires Ready(c, st) && P.CanonicalAbsolute(arg) && Named(arg) && io.vfsOk
    ensures var r := Step(c, st, Command(Spoken(DELE, H.Some(arg)), io));
            && |r.log| == |st.log| + 3
            && r.log[|st.log| + 1] == TreeChanged(Unlink, FixedPath(c, arg), "")
            && r.log[|st.log| + 2] == Reply(250, "")
  {
    hide Spoken, Step, Good, FixedPath, ScanLine, Resolve, P.CanonicalAbsolute, Speakable;
    var l := Emit(st, Line(Spoken(DELE, H.Some(arg))));
    SpokenStep(c, st, DELE, H.Some(arg), io);
    ScanSpoken(arg, PATH_LIMIT);
    ReadyDirectory(c, st);
    ArgumentItself(l.s, arg);
    DeleteExecutes(c, l, arg + CRLF, io);
  }

  lemma DeleteExecutes(c: Config, st: St, data: string, io: Io)
    ensures Execute(c, st, DELE, data, io) == CmdTree(c, st, data, io, Unlink)
  {
    hide CmdTree;
  }

  lemma ReadyDirectory(c: Config, st: St)
    requires Ready(c, st)
    ensures st.s.pwd != ""
  {
    hide Tracks;
  }

  /** There are such arguments, of any length up to the limit. */
  lemma LongArgument(arg: string, n: nat)
    requires 0 < n <= PATH_LIMIT - 7 && arg == "/sdmc:/" + seq(n, _ => 'a')
    ensures P.CanonicalAbsolute(arg) && Named(arg) && ':' in arg && |arg| == n + 7
  {
    var word := seq(n, _ => 'a');
    var cs := ["sdmc:", word];
    assert P.IsWord("sdmc:") && P.IsWord(word);
    assert cs[..1] == ["sdmc:"];
    assert P.Join(cs) == P.Join(["sdmc:"]) + "/" + word == "sdmc:" + "/" + word;
    assert arg == P.Render(true, cs);
    P.RenderIsCanonical(true, cs);
    assert arg[5] == ':';
    forall x | x in arg ensures !EndsScan(x) {
      assert x in "/sdmc:/" || x in word;
    }
  }

  /** DELE of a path on a device that is longer than 769 characters: it runs past the buffer it is copied to. */
  lemma LongDelete(c: Config, st: St, arg: string, io: Io, es: seq<D.Entry>)
    requires Ready(c, st) && io.vfsOk
    requires P.CanonicalAbsolute(arg) && Named(arg) && ':' in arg && |arg| > D.FS_MAX_PATH
    ensures var r := Step(c, st, Command(Spoken(DELE, H.Some(arg)), io));
            |r.log| == |st.log| + 3 &&
            var e := r.log[|st.log| + 1];
            e.TreeChanged? && e.op == Unlink && D.Translate(es, e.path) == D.Overflows
  {
    hide Spoken, Step, Ready, P.CanonicalAbsolute, D.Translate, Named, P.FixForDevice;
    DeleteSpoken(c, st, arg, io);
    D.OverflowExact(es, arg, c.devices != []);
  }

  /** CWD into a directory by its canonical path, and PWD: the reply has room for 4088 characters of it. */
  lemma LongDirectory(c: Config, st: St, arg: string, io: Io, io': Io)
    requires Ready(c, st) && io.entry.IsDir?
    requires P.CanonicalAbsolute(arg) && Named(arg) && |arg| > SHOWN_SIZE
    ensures var u := Step(c, st, Command(Spoken(CWD, H.Some(arg)), io));
            var r := Step(c, u, Command(Spoken(PWD, H.None), io'));
            u.s.pwd == arg && r.log == u.log + [Line(Spoken(PWD, H.None)), Reply(257, arg[..SHOWN_SIZE])]
  {
    hide Spoken, Step, Good, Execute, ScanLine, Resolve, P.CanonicalAbsolute, P.BuildFullpath;
    var l := Emit(st, Line(Spoken(CWD, H.Some(arg))));
    SpokenStep(c, st, CWD, H.Some(arg), io);
    ScanSpoken(arg, PATH_LIMIT);
    ReadyDirectory(c, st);
    ArgumentItself(l.s, arg);
    DirectoryExecutes(c, l, arg + CRLF, io);
    var u := Step(c, st, Command(Spoken(CWD, H.Some(arg)), io));
    SpokenStep(c, u, PWD, H.None, io');
    DirectoryExecutes(c, Emit(u, Line(Spoken(PWD, H.None))), "", io');
    assert Shown(arg) == arg[..SHOWN_SIZE];
  }

  lemma DirectoryExecutes(c: Config, st: St, data: string, io: Io)
    ensures Execute(c, st, CWD, data, io) == CmdCwd(st, data, io)
    ensures Execute(c, st, PWD, data, io) == Emit(st, Reply(257, Shown(st.s.pwd)))
  {
    hide CmdCwd;
  }

  // ------------------------------------------------------------ numbers and their lines

  lemma RestStep(c: Config, st: St, arg: string, rest: string, io: Io)
    requires Ready(c, st) && Speakable(H.Some(arg))
    ensures Step(c, st, Command(Spoken(REST, H.Some(arg)) + rest, io)) ==
            CmdRest(Emit(st, Line(Spoken(REST, H.Some(arg)))), arg + CRLF + rest)
  {
    hide Spoken, Step, Execute, CmdRest, Good, Speakable;
    SpokenThen(c, st, REST, H.Some(arg), rest, io);
    RestExecutes(c, Emit(st, Line(Spoken(REST, H.Some(arg)))), arg + CRLF + rest, io);
  }

  lemma RestExecutes(c: Config, st: St, data: string, io: Io)
    ensures Execute(c, st, REST, data, io) == CmdRest(st, data)
    ensures Execute(c, st, PORT, data, io) == CmdPort(c, st, data, io)
  {
    hide CmdRest, CmdPort;
  }

  /** The step of a REST depends on its own line alone if and only if there is more than white space behind its name. */
  lemma RestLocal(c: Config, st: St, arg: string, io: Io)
    requires Ready(c, st) && Speakable(H.Some(arg))
    ensures var line := Spoken(REST, H.Some(arg));
            (forall rest :: Step(c, st, Command(line + rest, io)) == Step(c, st, Command(line + "", io)))
            <==> !H.Blank(arg)
  {
    hide Spoken, Step, Good, Speakable, H.ScanInt, H.Blank;
    var line := Spoken(REST, H.Some(arg));
    var l := Emit(st, Line(line));
    H.IntLocal(arg);
    RestStep(c, st, arg, "", io);
    assert arg + CRLF + "" == arg + CRLF;
    if H.Blank(arg) {
      RestStep(c, st, arg, "7" + CRLF, io);
      assert CmdRest(l, arg + CRLF).s.marker == st.s.marker && CmdRest(l, arg + CRLF) == Say(l, 501);
      assert CmdRest(l, arg + CRLF + ("7" + CRLF)).log == Say(l, 350).log;
      assert Say(l, 350).log[|l.log|] != Say(l, 501).log[|l.log|];
    } else {
      forall rest: string ensures Step(c, st, Command(line + rest, io)) == Step(c, st, Command(line + "", io)) {
        RestStep(c, st, arg, rest, io);
        assert H.ScanInt(arg + CRLF + rest) == H.ScanInt(arg + CRLF);
      }
    }
  }

  /** REST with nothing behind its space takes the number of the next line for its own. */
  lemma RestReadsOn(c: Config, st: St, io: Io)
    requires Ready(c, st)
    ensures var line := Spoken(REST, H.Some(""));
            && Step(c, st, Command(line + "", io)).s == st.s
            && Step(c, st, Command(line + ("7" + CRLF), io)).s == st.s.(marker := 7)
  {
    hide Spoken, Step, Good, H.ScanInt;
    H.IntLocal("");
    RestStep(c, st, "", "", io);
    RestStep(c, st, "", "7" + CRLF, io);
    assert "" + CRLF + "" == "" + CRLF;
  }

  lemma PortStep(c: Config, st: St, arg: string, rest: string, io: Io)
    requires Ready(c, st) && Speakable(H.Some(arg))
    ensures Step(c, st, Command(Spoken(PORT, H.Some(arg)) + rest, io)) ==
            CmdPort(c, Emit(st, Line(Spoken(PORT, H.Some(arg)))), arg + CRLF + rest, io)
  {
    hide Spoken, Step, Execute, CmdPort, Good, Speakable;
    SpokenThen(c, st, PORT, H.Some(arg), rest, io);
    RestExecutes(c, Emit(st, Line(Spoken(PORT, H.Some(arg)))), arg + CRLF + rest, io);
  }

  /** So does that of a PORT, if and only if its line does not end where a number should begin. */
  lemma PortLocal(c: Config, st: St, arg: string, io: Io)
    requires Ready(c, st) && Speakable(H.Some(arg))
    ensures var line := Spoken(PORT, H.Some(arg));
            (forall rest :: Step(c, st, Command(line + rest, io)) == Step(c, st, Command(line + "", io)))
            <==> !H.RunsOver(arg, 6)
  {
    hide Spoken, Step, Good, Speakable, H.ParsePort, H.RunsOver, TransferEnd;
    var line := Spoken(PORT, H.Some(arg));
    var e := TransferEnd(c, Emit(st, Line(line)), io.closing);
    H.PortLocal(arg, e.s.dataAddr);
    PortStep(c, st, arg, "", io);
    assert arg + CRLF + "" == arg + CRLF;
    if H.RunsOver(arg, 6) {
      var rest :| H.ParsePort(arg + CRLF + rest, e.s.dataAddr) != H.ParsePort(arg + CRLF, e.s.dataAddr);
      PortStep(c, st, arg, rest, io);
      assert Say(e, 200).log[|e.log|] != Say(e, 501).log[|e.log|];
    } else {
      forall rest: string ensures Step(c, st, Command(line + rest, io)) == Step(c, st, Command(line + "", io)) {
        PortStep(c, st, arg, rest, io);
        assert H.ParsePort(arg + CRLF + rest, e.s.dataAddr) == H.ParsePort(arg + CRLF, e.s.dataAddr);
      }
    }
  }
}
