/**
  What the logs record of the lines a server has read and of the ports it has listened on.
*/
module Records {
  import opened CText
  import opened Session
  import opened Conduct
  import opened Frames
  import opened Server
  import N = NxFile
  import H = HostPort

  // ------------------------------------------------------------- lines and ports of a log

  /** The control lines of a log, in order. */
  function LinesOf(log: seq<Effect>): seq<string> {
    if log == [] then []
    else
      var e := log[|log| - 1];
      LinesOf(log[..|log| - 1]) + if e.Line? then [e.text] else []
  }

  /** The ports of its listeners, in order. */
  function PortsOf(log: seq<Effect>): seq<nat> {
    if log == [] then []
    else
      var e := log[|log| - 1];
      PortsOf(log[..|log| - 1]) + if e.Listener? then [e.port] else []
  }

  /** A reply to PASV: what it says, and the port last listened on before it. */
  datatype Announcement = Announcement(port: H.Option<nat>, text: string)

  function LastPort(ports: seq<nat>): H.Option<nat> {
    if ports == [] then H.None else H.Some(ports[|ports| - 1])
  }

  predicate Announces(e: Effect) {
    e.Reply? && e.code == 227
  }

  /** The announcements of a log, in order. */
  function Announced(log: seq<Effect>): seq<Announcement> {
    if log == [] then []
    else
      var n := |log| - 1;
      Announced(log[..n])
      + if Announces(log[n]) then [Announcement(LastPort(PortsOf(log[..n])), log[n].text)] else []
  }

  lemma EmitRecords(st: St, e: Effect)
    ensures LinesOf(Emit(st, e).log) == LinesOf(st.log) + if e.Line? then [e.text] else []
    ensures PortsOf(Emit(st, e).log) == PortsOf(st.log) + if e.Listener? then [e.port] else []
    ensures Announced(Emit(st, e).log) ==
            Announced(st.log) + if Announces(e) then [Announcement(LastPort(PortsOf(st.log)), e.text)] else []
  {
    assert (st.log + [e])[..|st.log|] == st.log;
  }

  /** From `st` to `r` no line was read, no port was taken, and no address announced. */
  ghost predicate Unrecorded(st: St, r: St) {
    && LinesOf(r.log) == LinesOf(st.log) && PortsOf(r.log) == PortsOf(st.log)
    && Announced(r.log) == Announced(st.log) && r.w.port == st.w.port
  }

  lemma EmitUnrecorded(st: St, e: Effect)
    requires !e.Line? && !e.Listener? && !Announces(e)
    ensures Unrecorded(st, Emit(st, e))
  {
    EmitRecords(st, e);
    assert LinesOf(st.log) + [] == LinesOf(st.log);
    assert PortsOf(st.log) + [] == PortsOf(st.log);
    assert Announced(st.log) + [] == Announced(st.log);
  }

  lemma UnrecordedThen(st: St, u: St, r: St)
    requires Unrecorded(st, u) && Unrecorded(u, r)
    ensures Unrecorded(st, r)
  {
  }

  // ------------------------------------------------------------------------ primitives

  lemma CloseConnectionUnrecorded(st: St)
    ensures Unrecorded(st, CloseConnection(st))
  {
    EmitUnrecorded(st, SocketClosed(st.s.dataSock));
    EmitUnrecorded(CloseData(st), SocketClosed(st.s.pasvSock));
    hide LinesOf, PortsOf, Announced;
  }

  lemma HandlesUnrecorded(c: Config, st: St, closing: seq<N.Fault>)
    ensures Unrecorded(st, VfsClose(c, st, closing))
    ensures Unrecorded(st, DirClose(st))
  {
    EmitUnrecorded(st, FileClosed);
    EmitUnrecorded(st, DirClosed);
    hide LinesOf, PortsOf, Announced;
  }

  lemma EndUnrecorded(c: Config, st: St, closing: seq<N.Fault>)
    ensures Unrecorded(st, TransferEnd(c, st, closing))
  {
    var a := CloseConnection(st);
    CloseConnectionUnrecorded(st);
    HandlesUnrecorded(c, a, closing);
    HandlesUnrecorded(c, VfsClose(c, a, closing), closing);
    hide CloseConnection, VfsClose, DirClose, LinesOf, PortsOf, Announced;
  }

  lemma SayUnrecorded(st: St, code: nat)
    requires code != 227
    ensures Unrecorded(st, Say(st, code))
  {
    EmitUnrecorded(st, Reply(code, ""));
    hide LinesOf, PortsOf, Announced;
  }

  lemma FinishUnrecorded(c: Config, st: St, code: nat, closing: seq<N.Fault>)
    requires code != 227
    ensures Unrecorded(st, Finish(c, st, code, closing))
  {
    SayUnrecorded(st, code);
    EndUnrecorded(c, Say(st, code), closing);
    hide TransferEnd, LinesOf, PortsOf, Announced;
  }

  lemma DataOpenUnrecorded(st: St, io: Io)
    ensures Unrecorded(st, DataOpen(st, io).st)
  {
    SayUnrecorded(st, 150);
    EmitUnrecorded(Say(st, 150), DataSocket(io.socket, Peer(st.s)));
    hide LinesOf, PortsOf, Announced, Peer;
  }

  lemma VfsOpenUnrecorded(st: St, path: string, mode: N.OpenMode, faults: seq<N.Fault>)
    ensures Unrecorded(st, VfsOpen(st, path, mode, faults).st)
  {
    EmitUnrecorded(st, FileOpened(path, mode));
    hide LinesOf, PortsOf, Announced;
  }

  // -------------------------------------------------------------------------- commands

  lemma RetrUnrecorded(c: Config, st: St, data: string, io: Io)
    ensures Unrecorded(st, CmdRetr(c, st, data, io))
  {
    hide RetrFrom, VfsOpen, VfsClose, Resolve, ScanLine, LinesOf, PortsOf, Announced, Say, Unrecorded;
    var path := FixedPath(c, Resolve(st.s, ScanLine(data, PATH_LIMIT)).path);
    var o := VfsOpen(st, path, N.READ, io.faults).st;
    SayUnrecorded(st, 550);
    SayUnrecorded(st, 501);
    VfsOpenUnrecorded(st, path, N.READ, io.faults);
    SayUnrecorded(o, 550);
    UnrecordedThen(st, o, Say(o, 550));
    HandlesUnrecorded(c, Say(o, 550), io.closing);
    UnrecordedThen(st, Say(o, 550), VfsClose(c, Say(o, 550), io.closing));
    RetrFromUnrecorded(c, o, io);
    UnrecordedThen(st, o, RetrFrom(c, o, io));
  }

  lemma RetrFromUnrecorded(c: Config, st: St, io: Io)
    ensures Unrecorded(st, RetrFrom(c, st, io))
  {
    var p := Positioned(st, io).st;
    var d := DataOpen(p, io).st;
    DataOpenUnrecorded(p, io);
    SayUnrecorded(p, 550);
    SayUnrecorded(d, 425);
    HandlesUnrecorded(c, Say(p, 550), io.closing);
    HandlesUnrecorded(c, Say(d, 425), io.closing);
    hide DataOpen, VfsClose, LinesOf, PortsOf, Announced, Say;
  }

  lemma StorUnrecorded(c: Config, st0: St, data: string, io: Io)
    ensures Unrecorded(st0, CmdStor(c, st0, data, io))
  {
    var append := st0.s.marker == -1;
    var st := if append then st0.(s := st0.s.(marker := 0)) else st0;
    var path := FixedPath(c, Resolve(st.s, ScanLine(data, PATH_LIMIT)).path);
    var mode := if append then N.APPEND else N.WRITE;
    var o := VfsOpen(st, path, mode, io.faults).st;
    var d := DataOpen(o, io).st;
    VfsOpenUnrecorded(st, path, mode, io.faults);
    DataOpenUnrecorded(o, io);
    SayUnrecorded(st0, 501);
    SayUnrecorded(st, 551);
    SayUnrecorded(o, 551);
    SayUnrecorded(d, 425);
    HandlesUnrecorded(c, Say(d, 425), io.closing);
    hide DataOpen, VfsOpen, VfsClose, Resolve, ScanLine, LinesOf, PortsOf, Announced, Say;
  }

  lemma ListUnrecorded(c: Config, st: St, data: string, mode: Mode, io: Io)
    ensures Unrecorded(st, CmdList(c, st, data, mode, io))
  {
    var b := ListPath(st.s, ScanLine(data, PATH_LIMIT));
    var st1 := st.(s := st.s.(tempPath := b.path));
    SayUnrecorded(st1, 501);
    ListFromUnrecorded(st1, mode, io);
    ListFromUnrecorded(st1.(s := st1.s.(tempPath := FixedPath(c, b.path))), mode, io);
    hide ListFrom, ListDevices, ListPath, ScanLine, LinesOf, PortsOf, Announced, Say;
  }

  lemma ListFromUnrecorded(st: St, mode: Mode, io: Io)
    ensures Unrecorded(st, ListFrom(st, mode, io))
    ensures Unrecorded(st, ListDevices(st, mode, io))
  {
    hide DataOpen, ListDir, ListFile, ListDevices, Say, Unrecorded;
    SayUnrecorded(st, 450);
    ListDirUnrecorded(st, mode, io);
    ListFileUnrecorded(st, io);
    ListDevicesUnrecorded(st, mode, io);
  }

  lemma ListDevicesUnrecorded(st: St, mode: Mode, io: Io)
    ensures Unrecorded(st, ListDevices(st, mode, io))
  {
    hide DataOpen, LinesOf, PortsOf, Announced, Say;
    DataOpenUnrecorded(st, io);
    SayUnrecorded(DataOpen(st, io).st, 425);
  }

  lemma ListDirUnrecorded(st: St, mode: Mode, io: Io)
    ensures Unrecorded(st, ListDir(st, mode, io))
  {
    var u := SetTransfer(st, st.s.transfer.(dir := Dir(true, io.entries)));
    var o := Emit(u, DirOpened(st.s.tempPath));
    EmitUnrecorded(u, DirOpened(st.s.tempPath));
    DataOpenUnrecorded(o, io);
    var d := DataOpen(o, io).st;
    SayUnrecorded(d, 425);
    EmitUnrecorded(Say(d, 425), DirClosed);
    hide DataOpen, LinesOf, PortsOf, Announced, Say;
  }

  lemma ListFileUnrecorded(st: St, io: Io)
    ensures Unrecorded(st, ListFile(st, io))
  {
    var u := SetTransfer(st, Build(st.s.transfer, io.line));
    SayUnrecorded(u, 450);
    DataOpenUnrecorded(u, io);
    SayUnrecorded(DataOpen(u, io).st, 425);
    hide DataOpen, LinesOf, PortsOf, Announced, Say, Build;
  }

  lemma PortUnrecorded(c: Config, st: St, data: string, io: Io)
    ensures Unrecorded(st, CmdPort(c, st, data, io))
    ensures Unrecorded(st, CmdAbor(c, st, io))
  {
    EndUnrecorded(c, st, io.closing);
    var e := TransferEnd(c, st, io.closing);
    SayUnrecorded(st, 226);
    SayUnrecorded(e, 501);
    SayUnrecorded(e, 200);
    SayUnrecorded(e, 225);
    SayUnrecorded(e, 426);
    SayUnrecorded(Say(e, 426), 226);
    hide TransferEnd, H.ParsePort, LinesOf, PortsOf, Announced;
  }

  /** The address PASV announces when it listens. */
  function Listening(st: St): H.Address {
    H.Address(st.s.host, st.w.port)
  }

  /** PASV takes the next port, if it gets a socket, and announces it, if it can listen on it. */
  ghost predicate TakesPort(st: St, r: St) {
    || Unrecorded(st, r)
    || (LinesOf(r.log) == LinesOf(st.log) && PortsOf(r.log) == PortsOf(st.log) + [st.w.port]
        && r.w.port == H.NextPort(st.w.port)
        && (|| Announced(r.log) == Announced(st.log)
            || Announced(r.log) == Announced(st.log)
                                   + [Announcement(H.Some(st.w.port), H.PassiveText(Listening(st)))]))
  }

  lemma PasvTakesPort(c: Config, st: St, io: Io)
    ensures TakesPort(st, CmdPasv(c, st, io))
  {
    hide TransferEnd, PasvFrom, LinesOf, PortsOf, Announced;
    EndUnrecorded(c, st, io.closing);
    EndHost(c, st, io.closing);
    PasvFromTakesPort(TransferEnd(c, st, io.closing), io);
  }

  lemma PasvFromTakesPort(e: St, io: Io)
    ensures TakesPort(e, PasvFrom(e, io))
  {
    SayUnrecorded(e.(s := e.s.(pasvSock := -1)), 501);
    var l := Opened(e, io.socket);
    EmitRecords(e.(s := e.s.(pasvSock := io.socket),
                   w := e.w.(fds := e.w.fds + {io.socket}, port := H.NextPort(e.w.port))),
                Listener(io.socket, e.w.port));
    EmitRecords(l.(s := l.s.(conn := Passive)), Reply(227, H.PassiveText(H.Address(l.s.host, e.w.port))));
    SayUnrecorded(l, 501);
    EmitUnrecorded(Say(l, 501), SocketClosed(io.socket));
    assert LinesOf(e.log) + [] == LinesOf(e.log);
    assert PortsOf(l.log) + [] == PortsOf(l.log);
    assert Announced(e.log) + [] == Announced(e.log);
    hide H.PassiveText, LinesOf, PortsOf, Announced;
  }

  lemma EndHost(c: Config, st: St, closing: seq<N.Fault>)
    ensures TransferEnd(c, st, closing).s.host == st.s.host
  {
    TransferEndFrame(c, st, closing);
    hide TransferEnd;
  }

  /** A command that only answers, after it has changed some fields of the session. */
  lemma LoginUnrecorded(c: Config, st: St, data: string)
    ensures Unrecorded(st, CmdUser(c, st, data)) && Unrecorded(st, CmdPass(c, st, data))
  {
    hide ScanLine, LinesOf, PortsOf, Announced;
    forall u: St, code | u.log == st.log && u.w == st.w && code != 227 ensures Unrecorded(st, Say(u, code)) {
      SayUnrecorded(u, code);
    }
    hide Say;
  }

  lemma ParameterUnrecorded(st: St, data: string, known: set<char>)
    ensures Unrecorded(st, CmdCode(st, data, known)) && Unrecorded(st, CmdRest(st, data))
  {
    hide H.ScanInt, LinesOf, PortsOf, Announced;
    forall u: St, code | u.log == st.log && u.w == st.w && code != 227 ensures Unrecorded(st, Say(u, code)) {
      SayUnrecorded(u, code);
    }
    hide Say;
  }

  lemma DirectoryUnrecorded(st: St, data: string, io: Io)
    ensures Unrecorded(st, CmdCwd(st, data, io)) && Unrecorded(st, CmdCdup(st, io))
  {
    hide Resolve, ScanLine, LinesOf, PortsOf, Announced;
    forall u: St, code | u.log == st.log && u.w == st.w && code != 227 ensures Unrecorded(st, Say(u, code)) {
      SayUnrecorded(u, code);
    }
    hide Say;
  }

  lemma RenameUnrecorded(st: St, data: string, io: Io)
    ensures Unrecorded(st, CmdRnfr(st, data)) && Unrecorded(st, CmdRnto(st, data, io))
  {
    hide Resolve, ScanLine, LinesOf, PortsOf, Announced;
    forall u: St, code | u.log == st.log && u.w == st.w && code != 227 ensures Unrecorded(st, Say(u, code)) {
      SayUnrecorded(u, code);
    }
    var x := Resolve(st.s, ScanLine(data, PATH_LIMIT)).path;
    var t := ChangeTree(st, io, Rename, st.s.tempPath, x);
    TreeUnrecorded(st, io, Rename, st.s.tempPath, x);
    SayUnrecorded(t, 250);
    UnrecordedThen(st, t, Say(t, 250));
    hide Say, ChangeTree;
  }

  lemma TreeUnrecorded(st: St, io: Io, op: TreeOp, path: string, to: string)
    ensures Unrecorded(st, ChangeTree(st, io, op, path, to))
  {
    EmitUnrecorded(st.(w := st.w.(files := io.tree)), TreeChanged(op, path, to));
    hide LinesOf, PortsOf, Announced;
  }

  lemma CmdTreeUnrecorded(c: Config, st: St, data: string, io: Io, op: TreeOp)
    ensures Unrecorded(st, CmdTree(c, st, data, io, op)) && Unrecorded(st, CmdSize(st, data, io))
  {
    hide Resolve, ScanLine, FixedPath, LinesOf, PortsOf, Announced;
    forall code | code != 227 ensures Unrecorded(st, Say(st, code)) { SayUnrecorded(st, code); }
    var b := Resolve(st.s, ScanLine(data, PATH_LIMIT));
    var u := ChangeTree(st, io, op, FixedPath(c, b.path), "");
    TreeUnrecorded(st, io, op, FixedPath(c, b.path), "");
    EmitUnrecorded(u, Reply(257, Shown(b.path)));
    UnrecordedThen(st, u, Emit(u, Reply(257, Shown(b.path))));
    SayUnrecorded(u, 250);
    UnrecordedThen(st, u, Say(u, 250));
    hide Say, ChangeTree, Emit;
  }

  lemma QuickUnrecorded(c: Config, st: St, v: Verb, data: string, io: Io)
    requires !IsTransferVerb(v) && !IsConnectionVerb(v)
    ensures Unrecorded(st, Execute(c, st, v, data, io))
  {
    hide CmdUser, CmdPass, CmdCwd, CmdCdup, CmdCode, CmdRest, CmdRnfr, CmdRnto, CmdTree, CmdSize, LinesOf, PortsOf;
    hide Announced;
    hide Unrecorded;
    LoginUnrecorded(c, st, data);
    ParameterUnrecorded(st, data, {'A', 'I'});
    ParameterUnrecorded(st, data, {'F'});
    ParameterUnrecorded(st, data, {'S'});
    DirectoryUnrecorded(st, data, io);
    RenameUnrecorded(st, data, io);
    CmdTreeUnrecorded(c, st, data, io, Unlink);
    CmdTreeUnrecorded(c, st, data, io, Rmdir);
    CmdTreeUnrecorded(c, st, data, io, Mkdir);
    forall code | code != 227 ensures Unrecorded(st, Say(st, code)) { SayUnrecorded(st, code); }
    EmitUnrecorded(st, Reply(257, Shown(st.s.pwd)));
    hide Say, Emit;
  }

  lemma TransferVerbUnrecorded(c: Config, st: St, v: Verb, data: string, io: Io)
    requires IsTransferVerb(v)
    ensures Unrecorded(st, Execute(c, st, v, data, io))
  {
    hide CmdRetr, CmdStor, CmdList, LinesOf, PortsOf, Announced;
    match v
    case RETR => RetrUnrecorded(c, st, data, io);
    case STOR => StorUnrecorded(c, st, data, io);
    case APPE => StorUnrecorded(c, st.(s := st.s.(marker := -1)), data, io);
    case LIST => ListUnrecorded(c, st, data, List, io);
    case NLST => ListUnrecorded(c, st, data, Nlst, io);
  }

  lemma ExecuteRecords(c: Config, st: St, v: Verb, data: string, io: Io)
    ensures TakesPort(st, Execute(c, st, v, data, io))
  {
    hide CmdPort, CmdAbor, CmdPasv, Unrecorded, LinesOf, PortsOf, Announced;
    if IsTransferVerb(v) {
      hide Execute;
      TransferVerbUnrecorded(c, st, v, data, io);
    } else if IsConnectionVerb(v) {
      PortUnrecorded(c, st, data, io);
      PasvTakesPort(c, st, io);
    } else {
      hide Execute;
      QuickUnrecorded(c, st, v, data, io);
    }
  }

  // ----------------------------------------------------------------- the data connection

  lemma RetrStepUnrecorded(c: Config, st: St, io: Io)
    ensures Unrecorded(st, RetrStep(c, st, io))
  {
    hide Finish, RetrSend, LinesOf, PortsOf, Announced;
    FinishUnrecorded(c, st, 426, io.closing);
    FinishUnrecorded(c, st, 226, io.closing);
    if io.read.ReadUpTo? {
      var h := st.s.transfer.file;
      var n := N.ReadCount(|Content(st.w.files, h.path)|, h.off, FILE_BUFFER_SIZE, io.read);
      if n > 0 { RetrSendUnrecorded(c, st, n, io); }
    }
  }

  lemma RetrSendUnrecorded(c: Config, st: St, n: nat, io: Io)
    requires n > 0 && st.s.transfer.file.off + n <= |Content(st.w.files, st.s.transfer.file.path)|
    ensures Unrecorded(st, RetrSend(c, st, n, io))
  {
    hide LinesOf, PortsOf, Announced;
    forall d ensures Unrecorded(st, Emit(st, Sent(d))) { EmitUnrecorded(st, Sent(d)); }
    forall u: St, code | Unrecorded(st, u) && code != 227 ensures Unrecorded(st, Finish(c, u, code, io.closing)) {
      FinishUnrecorded(c, u, code, io.closing);
    }
    hide Finish, Emit;
  }

  lemma StorStepUnrecorded(c: Config, st: St, io: Io)
    ensures Unrecorded(st, StorStep(c, st, io))
  {
    hide LinesOf, PortsOf, Announced, N.Write;
    forall d ensures Unrecorded(st, Emit(st, Received(d))) { EmitUnrecorded(st, Received(d)); }
    forall u: St, code | Unrecorded(st, u) && code != 227 ensures Unrecorded(st, Finish(c, u, code, io.closing)) {
      FinishUnrecorded(c, u, code, io.closing);
    }
    hide Finish, Emit;
  }

  lemma {:induction false} ListStepUnrecorded(c: Config, st: St, sends: seq<SendAnswer>, closing: seq<N.Fault>)
    ensures Unrecorded(st, ListStep(c, st, sends, closing))
    decreases LinesLeft(c, st.s.transfer), st.s.transfer.size
  {
    hide Finish, Examined, Fits, LinesOf, PortsOf, Announced, DeviceLine, Terminated, Overlay, ListBytes;
    var t := st.s.transfer;
    if t.size > 0 {
      match NextSend(sends)
      case SendBlocks =>
      case SendFails => FinishUnrecorded(c, st, 426, closing);
      case Took(count) =>
        var m := SendCount(count, t.size);
        var st1 := Emit(st, Sent(ListBytes(t.listBuf, t.offset, m)));
        EmitUnrecorded(st, Sent(ListBytes(t.listBuf, t.offset, m)));
        if m == t.size {
          var st2 := SetTransfer(st1, Drained(t));
          FinishUnrecorded(c, st2, 226, closing);
          if t.dir.isValid || (DeviceList(c, st.s.tempPath) && t.index != |c.devices|) {
            ListStepUnrecorded(c, st2, RestSends(sends), closing);
          }
        }
    } else if DeviceList(c, st.s.tempPath) {
      if t.index < |c.devices| {
        ListStepUnrecorded(c, SetTransfer(st, NextDevice(c, t)),
                           sends, closing);
      }
    } else if t.dir.entries == [] {
      FinishUnrecorded(c, st, 226, closing);
    } else {
      ListStepUnrecorded(c, SetTransfer(st, NextEntry(t, st.s.tempPath)),
                         sends, closing);
    }
  }

  lemma CloseUnrecorded(c: Config, st: St, io: Io)
    ensures Unrecorded(st, SessionClose(c, st, io))
  {
    hide LinesOf, PortsOf, Announced;
    var a := CloseControl(st);
    EmitUnrecorded(st, SocketClosed(st.s.controlSock));
    EndUnrecorded(c, a, io.closing);
    var e := TransferEnd(c, a, io.closing);
    EmitUnrecorded(e.(s := BLANK), HungUp);
    hide TransferEnd;
  }

  lemma InitUnrecorded(st: St, io: Io)
    ensures Unrecorded(st, SessionInit(st, io).st)
  {
    hide LinesOf, PortsOf, Announced;
    var u := St(BLANK.(active := true, controlSock := io.socket, host := io.host, pwd := "/"),
                st.w.(fds := st.w.fds + {io.socket}), st.log);
    EmitUnrecorded(u, Accepted(io.socket));
    SayUnrecorded(Emit(u, Accepted(io.socket)), 220);
  }

  // --------------------------------------------------------------------------- events

  /** The line an event has a session read. */
  function LineRead(st: St, ev: Event): seq<string> {
    match ev
    case Command(text, _) => if st.s.active && FindCrlf(text) < |text| then [text[..FindCrlf(text) + 2]] else []
    case _ => []
  }

  lemma LineRecords(c: Config, st: St, text: string, len: nat, io: Io)
    requires IsLine(text, len)
    ensures var r := LineStep(c, st, text, len, io);
            var st1 := Emit(st, Line(text[..len]));
            TakesPort(st1, r) && LinesOf(st1.log) == LinesOf(st.log) + [text[..len]]
            && PortsOf(st1.log) == PortsOf(st.log) && Announced(st1.log) == Announced(st.log)
  {
    hide Execute, VerbOf, Dispatch, LinesOf, PortsOf, Announced;
    var st1 := Emit(st, Line(text[..len]));
    EmitRecords(st, Line(text[..len]));
    assert PortsOf(st.log) + [] == PortsOf(st.log);
    assert Announced(st.log) + [] == Announced(st.log);
    var code, data := DispatchForks(c, st1, text, len, io);
    if Dispatch(c, st1, text, len, io) == Say(st1, code) {
      SayUnrecorded(st1, code);
    } else {
      ExecuteRecords(c, st1, VerbOf(text).value, data, io);
    }
    hide TakesPort;
  }

  /** What one event adds to the records: the line it has read, and the next port if it has taken one. */
  ghost predicate Recorded(st: St, lines: seq<string>, r: St) {
    && LinesOf(r.log) == LinesOf(st.log) + lines
    && ((PortsOf(r.log) == PortsOf(st.log) && r.w.port == st.w.port)
        || (PortsOf(r.log) == PortsOf(st.log) + [st.w.port] && r.w.port == H.NextPort(st.w.port)))
    && (|| Announced(r.log) == Announced(st.log)
        || Announced(r.log) == Announced(st.log)
                               + [Announcement(H.Some(st.w.port), H.PassiveText(Listening(st)))])
  }

  lemma StepRecords(c: Config, st: St, ev: Event)
    ensures Recorded(st, LineRead(st, ev), Step(c, st, ev))
  {
    hide LineStep, RetrStep, StorStep, ListStep, SessionClose, SessionInit, LinesOf, PortsOf, Announced;
    assert LinesOf(st.log) + [] == LinesOf(st.log);
    match ev
    case Connect(io) => InitUnrecorded(st, io);
    case Command(text, io) =>
      if st.s.active && FindCrlf(text) < |text| { LineRecords(c, st, text, FindCrlf(text) + 2, io); }
    case DataReady(io) =>
      RetrStepUnrecorded(c, st, io);
      StorStepUnrecorded(c, st, io);
      ListStepUnrecorded(c, st, io.sends, io.closing);
    case Disconnect(io) => CloseUnrecorded(c, st, io);
  }

  // --------------------------------------------------------------- ports over whole runs

  /** What `b` has behind `a`, if it begins with it. */
  function Behind(a: seq<nat>, b: seq<nat>): seq<nat> {
    if |a| <= |b| then b[|a|..] else []
  }

  /** The ports a run listens on, on whatever slots, in order. */
  function PortsTaken(c: Config, sv: Server, evs: seq<(Slot, Event)>): seq<nat>
    requires Shaped(sv)
  {
    if evs == [] then []
    else
      var n := |evs| - 1;
      var st := View(Run(c, sv, evs[..n]), evs[n].0);
      PortsTaken(c, sv, evs[..n]) + Behind(PortsOf(st.log), PortsOf(Step(c, st, evs[n].1).log))
  }

  /** The first `k` ports that the counter picks. */
  function Picks(k: nat): seq<nat> {
    if k == 0 then [] else Picks(k - 1) + [H.Pick(k - 1)]
  }

  /**
    Whatever slots listen, and however often: the ports listened on since the start are the
    picks of the counter, each once, in order.
  */
  lemma {:induction false} PortsArePicks(c: Config, files: Files, sock: int, evs: seq<(Slot, Event)>)
    ensures var ports := PortsTaken(c, Boot(files, sock), evs);
            ports == Picks(|ports|) && Run(c, Boot(files, sock), evs).w.port == H.Pick(|ports|)
  {
    hide Step, PortsOf, LinesOf, Announced;
    var sv := Boot(files, sock);
    if evs != [] {
      var n := |evs| - 1;
      var st := View(Run(c, sv, evs[..n]), evs[n].0);
      PortsArePicks(c, files, sock, evs[..n]);
      StepRecords(c, st, evs[n].1);
      var ports := PortsTaken(c, sv, evs[..n]);
      hide Run, H.Pick, H.NextPort;
      PortNext(ports, PortsOf(st.log), PortsOf(Step(c, st, evs[n].1).log), st.w.port, Step(c, st, evs[n].1).w.port);
      RunLast(c, sv, evs);
    }
  }

  lemma RunLast(c: Config, sv: Server, evs: seq<(Slot, Event)>)
    requires Shaped(sv) && evs != []
    ensures var n := |evs| - 1;
            var u := Run(c, sv, evs[..n]);
            Run(c, sv, evs).w == Step(c, View(u, evs[n].0), evs[n].1).w
  {
    hide Step;
  }

  lemma PortNext(ports: seq<nat>, a: seq<nat>, b: seq<nat>, port: nat, port': nat)
    requires ports == Picks(|ports|) && port == H.Pick(|ports|)
    requires (b == a && port' == port) || (b == a + [port] && port' == H.NextPort(port))
    ensures var all := ports + Behind(a, b);
            all == Picks(|all|) && port' == H.Pick(|all|)
  {
    if b == a {
      assert Behind(a, b) == [];
      assert ports + [] == ports;
    } else {
      assert Behind(a, b) == [port];
    }
  }
}
