/**
  The invariant of a session, and the proof that every event keeps it together with the
  agreement between the session and the monitors of its log.
*/
module Conduct {
  import opened CText
  import opened Session
  import opened Monitor
  import P = Pathname
  import N = NxFile
  import H = HostPort

  // ------------------------------------------------------------------ the invariant

  /**
    A session holds at most one descriptor of each kind, all different and all open.  A
    listener exists exactly in passive mode, and nothing is held without a connection mode.
  */
  ghost predicate SocketsSound(s: Session, fds: set<int>) {
    && Distinct(s)
    && Own(s.controlSock) + Own(s.dataSock) + Own(s.pasvSock) <= fds
    && (s.conn.NoConnection? ==> s.dataSock <= 0)
    && (s.pasvSock > 0 <==> s.conn.Passive?)
    && (s.conn.Passive? && !s.Busy() ==> s.dataSock <= 0)
    && (s.Busy() ==> s.dataSock > 0)
  }

  /** Which handles are open follows from the mode of the transfer. */
  ghost predicate HandlesSound(c: Config, s: Session) {
    var t := s.transfer;
    match t.mode
    case Idle => !t.file.isValid && !t.dir.isValid
    case Retr => t.file.isValid && !t.dir.isValid && t.file.buf == [] && t.file.chunkSize == 0
    case Stor => t.file.isValid && !t.dir.isValid
    case List => !t.file.isValid && ListingSound(c, s)
    case Nlst => !t.file.isValid && ListingSound(c, s)
  }

  /** A listing has a source: devices left, an open directory, or one line still pending. */
  ghost predicate ListingSound(c: Config, s: Session) {
    var t := s.transfer;
    if DeviceList(c, s.tempPath)
    then !t.dir.isValid && t.index <= |c.devices| && (t.size == 0 ==> t.index < |c.devices|)
    else t.dir.isValid || t.size > 0
  }

  ghost predicate PwdSound(s: Session) {
    P.CanonicalAbsolute(s.pwd) && |s.pwd| < P.PATHNAME_SIZE
  }

  ghost predicate Sound(c: Config, s: Session, fds: set<int>) {
    && (!s.active ==> s == BLANK)
    && (s.active ==> PwdSound(s) && s.controlSock > 0)
    && (s.Busy() ==> s.auth == Valid)
    && SocketsSound(s, fds)
    && HandlesSound(c, s)
  }

  /** Between two events nothing is half done: every line is answered, and a 150 is owed iff busy. */
  ghost predicate Good(c: Config, st: St) {
    Sound(c, st.s, st.w.fds) && Tracks(c, st, Quiet(st.s.Busy()))
  }

  /** In the middle of a control line of the verb `v`. */
  ghost predicate Serving(c: Config, st: St, v: Verb) {
    && st.s.active && Sound(c, st.s, st.w.fds)
    && (NeedsAuth(v) ==> st.s.auth == Valid)
    && (st.s.Busy() ==> v == ABOR)
    && Tracks(c, st, Answering(st.s.Busy(), v == ABOR))
  }

  // ----------------------------------------------------------------- primitive steps

  lemma CloseConnectionSound(st: St)
    requires SocketsSound(st.s, st.w.fds)
    ensures var e := CloseConnection(st);
            && e.s == st.s.(dataSock := e.s.dataSock, pasvSock := e.s.pasvSock)
            && e.s.dataSock <= 0 && e.s.pasvSock <= 0
            && e.w == st.w.(fds := st.w.fds - Own(st.s.dataSock) - Own(st.s.pasvSock))
  {
  }

  lemma HandlesShut(c: Config, st: St, closing: seq<N.Fault>)
    ensures var e := DirClose(VfsClose(c, st, closing));
            && e.s == st.s.(transfer := e.s.transfer)
            && e.s.transfer.mode == st.s.transfer.mode
            && !e.s.transfer.file.isValid && !e.s.transfer.dir.isValid
            && e.w == st.w.(files := e.w.files)
  {
  }

  lemma TransferEndSound(c: Config, st: St, closing: seq<N.Fault>)
    requires SocketsSound(st.s, st.w.fds)
    ensures var e := TransferEnd(c, st, closing);
            && e.s == st.s.(tempPath := "", conn := NoConnection, transfer := e.s.transfer,
                            dataSock := e.s.dataSock, pasvSock := e.s.pasvSock)
            && e.s.dataSock <= 0 && e.s.pasvSock <= 0
            && !e.s.Busy() && !e.s.transfer.file.isValid && !e.s.transfer.dir.isValid
            && e.w.fds == st.w.fds - Own(st.s.dataSock) - Own(st.s.pasvSock)
            && e.w.port == st.w.port
  {
    CloseConnectionSound(st);
    HandlesShut(c, CloseConnection(st), closing);
  }

  lemma EndGood(c: Config, st: St, d: Dialog, closing: seq<N.Fault>)
    requires st.s.active && Sound(c, st.s, st.w.fds) && Tracks(c, st, d)
    ensures var e := TransferEnd(c, st, closing);
            && e.s.active && Sound(c, e.s, e.w.fds) && Tracks(c, e, d)
            && !e.s.Busy() && e.s.conn.NoConnection? && e.s.auth == st.s.auth
  {
    TransferEndSound(c, st, closing);
    TransferEndTracks(c, st, d, closing);
  }

  lemma FinishGood(c: Config, st: St, code: nat, closing: seq<N.Fault>)
    requires st.s.active && Sound(c, st.s, st.w.fds) && Tracks(c, st, Quiet(true))
    requires code == 226 || code == 426
    ensures Good(c, Finish(c, st, code, closing))
  {
    hide TransferEnd;
    SayTracks(c, st, Quiet(true), code, "");
    EndGood(c, Say(st, code), Quiet(false), closing);
  }

  // ------------------------------------------------------------------ simple handlers

  /** Fields that most commands change, none of which the rest of the invariant depends on. */
  ghost predicate Minor(s: Session, s': Session) {
    s' == s.(auth := s'.auth, marker := s'.marker, tempPath := s'.tempPath, pwd := s'.pwd, dataAddr := s'.dataAddr)
  }

  lemma MinorSound(c: Config, s: Session, s': Session, fds: set<int>)
    requires Sound(c, s, fds) && s.active && !s.Busy() && Minor(s, s') && PwdSound(s')
    ensures Sound(c, s', fds)
  {
  }

  /** Codes that answer a line without starting or completing a transfer. */
  predicate Plain(code: nat) {
    code != 150 && code != 226 && code != 425 && code != 426 && code != 220
  }

  /** One plain answer to a line ends the serving of it. */
  lemma ReplyGood(c: Config, st: St, r: St, v: Verb, code: nat, text: string)
    requires Serving(c, st, v) && !st.s.Busy() && Plain(code)
    requires Minor(st.s, r.s) && PwdSound(r.s) && r.w.fds == st.w.fds
    requires LoginFollows(c, r.s, Observe(c, st.log).login)
    requires r.log == st.log + [Reply(code, text)]
    ensures Good(c, r)
  {
    MinorSound(c, st.s, r.s, st.w.fds);
    var u := r.(log := st.log);
    assert Tracks(c, u, Answering(false, v == ABOR));
    SayTracks(c, u, Answering(false, v == ABOR), code, text);
    assert r == Emit(u, Reply(code, text));
  }

  lemma UserGood(c: Config, st: St, data: string)
    requires Serving(c, st, USER)
    requires ScanLine(data, NAME_SIZE) == (if c.anon then "anonymous" else c.user) ==>
               var l := Observe(c, st.log).login; l.named && (c.anon ==> l.entered)
    ensures Good(c, CmdUser(c, st, data))
  {
    hide Good, Observe, HandlesSound, SocketsSound;
    var r := CmdUser(c, st, data);
    ReplyGood(c, st, r, USER, r.log[|st.log|].code, "");
  }

  lemma PassGood(c: Config, st: St, data: string)
    requires Serving(c, st, PASS)
    requires st.s.auth == NeedPass && ScanLine(data, NAME_SIZE) == c.pass ==> Observe(c, st.log).login.entered
    ensures Good(c, CmdPass(c, st, data))
  {
    hide Good, Observe, HandlesSound, SocketsSound;
    var r := CmdPass(c, st, data);
    ReplyGood(c, st, r, PASS, r.log[|st.log|].code, "");
  }

  lemma SetDirectoryGood(c: Config, st: St, v: Verb, arg: string, io: Io)
    requires Serving(c, st, v) && v != ABOR && arg != "" && |arg| < P.PATHNAME_SIZE
    ensures Good(c, SetDirectory(st, arg, io))
  {
    hide Good, Observe, HandlesSound, SocketsSound;
    P.BuildFullpathCanonical(st.s.pwd, arg);
    var r := SetDirectory(st, arg, io);
    ReplyGood(c, st, r, v, r.log[|st.log|].code, "");
  }

  lemma RestGood(c: Config, st: St, data: string)
    requires Serving(c, st, REST)
    ensures Good(c, CmdRest(st, data))
  {
    hide Good, Observe, HandlesSound, SocketsSound;
    var r := CmdRest(st, data);
    ReplyGood(c, st, r, REST, r.log[|st.log|].code, "");
  }

  lemma RnfrGood(c: Config, st: St, data: string)
    requires Serving(c, st, RNFR)
    ensures Good(c, CmdRnfr(st, data))
  {
    hide Good, Observe, HandlesSound, SocketsSound;
    var r := CmdRnfr(st, data);
    ReplyGood(c, st, r, RNFR, r.log[|st.log|].code, "");
  }

  /** A change to the tree, which only a session that has logged in makes. */
  lemma TreeServing(c: Config, st: St, v: Verb, io: Io, op: TreeOp, path: string, to: string)
    requires Serving(c, st, v) && st.s.auth == Valid
    ensures Serving(c, ChangeTree(st, io, op, path, to), v)
  {
    var u := st.(w := st.w.(files := io.tree));
    ObserveEmit(c, u, TreeChanged(op, path, to));
  }

  lemma RntoGood(c: Config, st: St, data: string, io: Io)
    requires Serving(c, st, RNTO)
    ensures Good(c, CmdRnto(st, data, io))
  {
    var r := CmdRnto(st, data, io);
    var b := Resolve(st.s, ScanLine(data, PATH_LIMIT));
    hide Good, Observe, HandlesSound, SocketsSound, Resolve, ScanLine;
    if r.w == st.w && |r.log| == |st.log| + 1 {
      ReplyGood(c, st, r, RNTO, r.log[|st.log|].code, "");
    } else {
      var u := ChangeTree(st, io, Rename, st.s.tempPath, b.path);
      TreeServing(c, st, RNTO, io, Rename, st.s.tempPath, b.path);
      ReplyGood(c, u, r, RNTO, 250, "");
    }
  }

  lemma TreeGood(c: Config, st: St, v: Verb, data: string, io: Io, op: TreeOp)
    requires Serving(c, st, v) && !st.s.Busy() && st.s.auth == Valid
    ensures Good(c, CmdTree(c, st, data, io, op))
  {
    var r := CmdTree(c, st, data, io, op);
    var b := Resolve(st.s, ScanLine(data, PATH_LIMIT));
    hide Good, Observe, HandlesSound, SocketsSound, Resolve, ScanLine;
    if r.w == st.w && |r.log| == |st.log| + 1 {
      ReplyGood(c, st, r, v, r.log[|st.log|].code, "");
    } else {
      var u := ChangeTree(st, io, op, FixedPath(c, b.path), "");
      TreeServing(c, st, v, io, op, FixedPath(c, b.path), "");
      ReplyGood(c, u, r, v, if op == Mkdir then 257 else 250, if op == Mkdir then Shown(b.path) else "");
    }
  }

  lemma SizeGood(c: Config, st: St, data: string, io: Io)
    requires Serving(c, st, SIZE)
    ensures Good(c, CmdSize(st, data, io))
  {
    hide Good, Observe, HandlesSound, SocketsSound;
    var r := CmdSize(st, data, io);
    ReplyGood(c, st, r, SIZE, r.log[|st.log|].code, "");
  }

  lemma CodeGood(c: Config, st: St, v: Verb, data: string, known: set<char>)
    requires Serving(c, st, v) && !st.s.Busy()
    ensures Good(c, CmdCode(st, data, known))
  {
    hide Good, Observe, HandlesSound, SocketsSound;
    var r := CmdCode(st, data, known);
    ReplyGood(c, st, r, v, r.log[|st.log|].code, "");
  }

  // ---------------------------------------------------- PORT, PASV and ABOR

  /** Ending what was going on keeps the serving of the line going. */
  lemma EndServing(c: Config, st: St, v: Verb, closing: seq<N.Fault>)
    requires Serving(c, st, v) && !st.s.Busy()
    ensures var e := TransferEnd(c, st, closing);
            Serving(c, e, v) && !e.s.Busy() && e.s.conn.NoConnection?
  {
    hide TransferEnd;
    EndGood(c, st, Answering(false, v == ABOR), closing);
  }

  lemma PortGood(c: Config, st: St, data: string, io: Io)
    requires Serving(c, st, PORT)
    ensures Good(c, CmdPort(c, st, data, io))
  {
    hide TransferEnd;
    EndServing(c, st, PORT, io.closing);
    var e := TransferEnd(c, st, io.closing);
    match H.ParsePort(data, e.s.dataAddr)
    case None =>
      ReplyGood(c, e, Say(e, 501), PORT, 501, "");
    case Some(a) =>
      var u := e.(s := e.s.(dataAddr := a));
      ReplyGood(c, e, Say(u, 200), PORT, 200, "");
      ActiveGood(c, Say(u, 200));
  }

  lemma ActiveGood(c: Config, st: St)
    requires Good(c, st) && st.s.active && !st.s.Busy() && st.s.conn.NoConnection?
    ensures Good(c, st.(s := st.s.(conn := Active)))
  {
  }

  lemma PasvGood(c: Config, st: St, io: Io)
    requires Serving(c, st, PASV)
    ensures Good(c, CmdPasv(c, st, io))
  {
    hide TransferEnd;
    EndServing(c, st, PASV, io.closing);
    var e := TransferEnd(c, st, io.closing);
    if !Granted(e.w, io.socket) {
      var u := e.(s := e.s.(pasvSock := -1));
      assert Serving(c, u, PASV);
      ReplyGood(c, u, Say(u, 501), PASV, 501, "");
    } else {
      ListenGood(c, e, io);
    }
  }

  /** The state right after the listening socket has been opened and bound to the next port. */
  function Opened(e: St, sock: int): St {
    Emit(e.(s := e.s.(pasvSock := sock),
            w := e.w.(fds := e.w.fds + {sock}, port := H.NextPort(e.w.port))),
         Listener(sock, e.w.port))
  }

  lemma OpenedTracks(c: Config, e: St, sock: int)
    requires Serving(c, e, PASV) && e.s.conn.NoConnection? && Granted(e.w, sock)
    ensures Tracks(c, Opened(e, sock), Answering(false, false))
  {
    ObserveEmit(c, e.(s := e.s.(pasvSock := sock),
                      w := e.w.(fds := e.w.fds + {sock}, port := H.NextPort(e.w.port))),
                Listener(sock, e.w.port));
    hide Observe, PwdSound, HandlesSound;
  }

  lemma ListenGood(c: Config, e: St, io: Io)
    requires Serving(c, e, PASV) && e.s.conn.NoConnection? && Granted(e.w, io.socket)
    ensures var l := Opened(e, io.socket);
            Good(c, if io.bindOk && io.listenOk
                    then Emit(l.(s := l.s.(conn := Passive)), Reply(227, H.PassiveText(H.Address(l.s.host, e.w.port))))
                    else ClosePasv(Say(l, 501)))
  {
    hide Good, Serving, Opened, H.PassiveText, ClosePasv;
    if io.bindOk && io.listenOk { ListensGood(c, e, io.socket); } else { DeafGood(c, e, io.socket); }
  }

  lemma ListensGood(c: Config, e: St, sock: int)
    requires Serving(c, e, PASV) && e.s.conn.NoConnection? && Granted(e.w, sock)
    ensures var l := Opened(e, sock);
            Good(c, Emit(l.(s := l.s.(conn := Passive)), Reply(227, H.PassiveText(H.Address(l.s.host, e.w.port)))))
  {
    hide Observe, P.CanonicalAbsolute, H.PassiveText;
    var l := Opened(e, sock);
    OpenedTracks(c, e, sock);
    SayTracks(c, l.(s := l.s.(conn := Passive)), Answering(false, false), 227,
              H.PassiveText(H.Address(l.s.host, e.w.port)));
  }

  lemma DeafGood(c: Config, e: St, sock: int)
    requires Serving(c, e, PASV) && e.s.conn.NoConnection? && Granted(e.w, sock)
    ensures Good(c, ClosePasv(Say(Opened(e, sock), 501)))
  {
    hide Observe, P.CanonicalAbsolute;
    var l := Opened(e, sock);
    OpenedTracks(c, e, sock);
    SayTracks(c, l, Answering(false, false), 501, "");
    ClosePasvTracks(c, Say(l, 501), Quiet(false));
  }

  lemma AbortedGood(c: Config, e: St, busy: bool)
    requires e.s.active && Sound(c, e.s, e.w.fds) && !e.s.Busy()
    requires Tracks(c, e, Answering(busy, true))
    ensures Good(c, if busy then Say(Say(e, 426), 226) else Say(e, 225))
  {
    if busy {
      SayTracks(c, e, Answering(true, true), 426, "");
      SayTracks(c, Say(e, 426), Answering(false, true), 226, "");
    } else {
      SayTracks(c, e, Answering(false, true), 225, "");
    }
  }

  lemma AborGood(c: Config, st: St, io: Io)
    requires Serving(c, st, ABOR)
    ensures Good(c, CmdAbor(c, st, io))
  {
    hide TransferEnd;
    if st.s.conn.NoConnection? {
      SayTracks(c, st, Answering(false, true), 226, "");
    } else {
      EndGood(c, st, Answering(st.s.Busy(), true), io.closing);
      AbortedGood(c, TransferEnd(c, st, io.closing), st.s.Busy());
    }
  }

  // ------------------------------------------------------------- starting a transfer

  /** An idle session, except that a handle may be open for the transfer about to start. */
  ghost predicate Starting(c: Config, st: St, d: Dialog) {
    var s := st.s;
    && s.active && PwdSound(s) && s.controlSock > 0 && s.auth == Valid
    && SocketsSound(s, st.w.fds) && !s.Busy()
    && !(s.transfer.file.isValid && s.transfer.dir.isValid)
    && Tracks(c, st, d)
  }

  /** Without a data connection a 425 follows the 150, and the session is idle again. */
  lemma DataOpenFails(c: Config, st: St, io: Io)
    requires Starting(c, st, Answering(false, false)) && !DataOpen(st, io).ok
    ensures var d := DataOpen(st, io).st;
            Starting(c, Say(d, 425), Quiet(false)) && d.s == st.s.(dataSock := d.s.dataSock)
  {
    DataOpenTracks(c, st, io);
    SayTracks(c, DataOpen(st, io).st, Quiet(true), 425, "");
  }

  /** With one the transfer begins, provided its handles suit its mode. */
  lemma DataOpenWorks(c: Config, st: St, io: Io, t: Transfer)
    requires Starting(c, st, Answering(false, false)) && DataOpen(st, io).ok
    requires t.mode != Idle
    requires t.file.isValid == st.s.transfer.file.isValid && t.dir.isValid == st.s.transfer.dir.isValid
    requires HandlesSound(c, st.s.(transfer := t))
    ensures DataOpen(st, io).st.s.transfer == st.s.transfer
    ensures Good(c, SetTransfer(DataOpen(st, io).st, t))
  {
    DataOpenTracks(c, st, io);
    var d := DataOpen(st, io).st;
    var u := SetTransfer(d, t);
    assert SocketsSound(u.s, u.w.fds);
    assert HandlesSound(c, u.s);
  }

  /** Closing the handles of a transfer that did not start leaves an idle session. */
  lemma CloseFileGood(c: Config, st: St, closing: seq<N.Fault>)
    requires Starting(c, st, Quiet(false)) && !st.s.transfer.dir.isValid
    ensures Good(c, VfsClose(c, st, closing))
  {
    VfsCloseTracks(c, st, Quiet(false), closing);
    HandlesShut(c, st, closing);
  }

  lemma CloseDirGood(c: Config, st: St)
    requires Starting(c, st, Quiet(false)) && !st.s.transfer.file.isValid
    ensures Good(c, DirClose(st))
  {
    DirCloseTracks(c, st, Quiet(false));
  }

  lemma OpenFileStarts(c: Config, st: St, path: string, mode: N.OpenMode, faults: seq<N.Fault>)
    requires Starting(c, st, Answering(false, false))
    requires !st.s.transfer.file.isValid && !st.s.transfer.dir.isValid
    ensures var o := VfsOpen(st, path, mode, faults);
            && Starting(c, o.st, Answering(false, false))
            && o.st.s == st.s.(transfer := st.s.transfer.(file := o.st.s.transfer.file))
            && (o.ok <==> o.st.s.transfer.file.isValid)
            && (o.ok ==> var h := o.st.s.transfer.file; h.path == path && h.buf == [])
            && (o.ok && mode == N.READ ==> o.st.s.transfer.file.chunkSize == 0)
  {
    VfsOpenTracks(c, st, Answering(false, false), path, mode, faults);
  }

  /** A plain refusal before the 150. */
  lemma RefuseStarts(c: Config, st: St, code: nat)
    requires Starting(c, st, Answering(false, false)) && Plain(code)
    ensures Starting(c, Say(st, code), Quiet(false))
    ensures !st.s.transfer.file.isValid && !st.s.transfer.dir.isValid ==> Good(c, Say(st, code))
  {
    SayTracks(c, st, Answering(false, false), code, "");
  }

  lemma PositionedStarts(c: Config, st: St, io: Io)
    requires Starting(c, st, Answering(false, false))
    ensures var p := Positioned(st, io).st;
            && Starting(c, p, Answering(false, false))
            && p.s.transfer.file == st.s.transfer.file.(off := p.s.transfer.file.off)
            && p.s.transfer.dir == st.s.transfer.dir
  {
  }

  lemma RetrGood(c: Config, st: St, data: string, io: Io)
    requires Serving(c, st, RETR)
    ensures Good(c, CmdRetr(c, st, data, io))
  {
    hide VfsOpen, VfsClose, RetrFrom, Resolve;
    var arg := ScanLine(data, PATH_LIMIT);
    var b := Resolve(st.s, arg);
    if arg == "" || !b.ok {
      RefuseStarts(c, st, if arg == "" then 501 else 550);
    } else {
      var path := FixedPath(c, b.path);
      OpenFileStarts(c, st, path, N.READ, io.faults);
      var o := VfsOpen(st, path, N.READ, io.faults);
      if !o.ok {
        RefuseStarts(c, o.st, 550);
      } else if !io.fstatOk {
        RefuseStarts(c, o.st, 550);
        CloseFileGood(c, Say(o.st, 550), io.closing);
      } else {
        PositionedStarts(c, o.st, io);
        RetrOpens(c, o.st, io);
      }
    }
  }

  lemma RetrOpens(c: Config, st: St, io: Io)
    requires Starting(c, st, Answering(false, false))
    requires st.s.transfer.file.isValid && !st.s.transfer.dir.isValid
    requires st.s.transfer.file.buf == [] && st.s.transfer.file.chunkSize == 0
    ensures Good(c, RetrFrom(c, st, io))
  {
    hide DataOpen, VfsClose, Positioned;
    PositionedStarts(c, st, io);
    var p := Positioned(st, io);
    if !p.ok {
      RefuseStarts(c, p.st, 550);
      CloseFileGood(c, Say(p.st, 550), io.closing);
    } else {
      var d := DataOpen(p.st, io);
      if !d.ok {
        DataOpenFails(c, p.st, io);
        CloseFileGood(c, Say(d.st, 425), io.closing);
      } else {
        DataOpenWorks(c, p.st, io, p.st.s.transfer.(mode := Retr));
      }
    }
  }

  lemma StorGood(c: Config, st0: St, data: string, io: Io)
    requires Starting(c, st0, Answering(false, false))
    requires !st0.s.transfer.file.isValid && !st0.s.transfer.dir.isValid
    ensures Good(c, CmdStor(c, st0, data, io))
  {
    hide VfsOpen, VfsClose, DataOpen, Resolve;
    var arg := ScanLine(data, PATH_LIMIT);
    if arg == "" {
      RefuseStarts(c, st0, 501);
    } else {
      var append := st0.s.marker == -1;
      var st := if append then st0.(s := st0.s.(marker := 0)) else st0;
      assert Starting(c, st, Answering(false, false));
      var b := Resolve(st.s, arg);
      if !b.ok {
        RefuseStarts(c, st, 551);
      } else {
        var mode := if append then N.APPEND else N.WRITE;
        var path := FixedPath(c, b.path);
        OpenFileStarts(c, st, path, mode, io.faults);
        var o := VfsOpen(st, path, mode, io.faults);
        if !o.ok {
          RefuseStarts(c, o.st, 551);
        } else {
          var d := DataOpen(o.st, io);
          if !d.ok {
            DataOpenFails(c, o.st, io);
            CloseFileGood(c, Say(d.st, 425), io.closing);
          } else {
            DataOpenWorks(c, o.st, io, o.st.s.transfer.(mode := Stor));
          }
        }
      }
    }
  }

  lemma ListGood(c: Config, st: St, v: Verb, data: string, mode: Mode, io: Io)
    requires Serving(c, st, v) && (v == LIST || v == NLST) && (mode == List || mode == Nlst)
    ensures Good(c, CmdList(c, st, data, mode, io))
  {
    hide ListFrom, ListDevices, ListPath;
    var b := ListPath(st.s, ScanLine(data, PATH_LIMIT));
    var st1 := st.(s := st.s.(tempPath := b.path));
    assert Starting(c, st1, Answering(false, false));
    if !b.ok {
      RefuseStarts(c, st1, 501);
    } else if DeviceList(c, b.path) {
      ListDevicesGood(c, st1, mode, io);
    } else {
      var st2 := st1.(s := st1.s.(tempPath := FixedPath(c, b.path)));
      NotTheDeviceList(c, b.path);
      assert Starting(c, st2, Answering(false, false));
      ListFromGood(c, st2, mode, io);
    }
  }

  lemma ListDevicesGood(c: Config, st: St, mode: Mode, io: Io)
    requires Starting(c, st, Answering(false, false)) && (mode == List || mode == Nlst)
    requires !st.s.transfer.file.isValid && !st.s.transfer.dir.isValid
    requires DeviceList(c, st.s.tempPath)
    ensures Good(c, ListDevices(st, mode, io))
  {
    if DataOpen(st, io).ok {
      DataOpenWorks(c, st, io, st.s.transfer.(index := 0, mode := mode));
    } else {
      DataOpenFails(c, st, io);
    }
  }

  lemma NotTheDeviceList(c: Config, path: string)
    requires !DeviceList(c, path)
    ensures !DeviceList(c, FixedPath(c, path))
  {
    if FixedPath(c, path) != path {
      assert path == "/" + path[1..];
      assert ':' in path[1..];
    }
  }

  lemma ListFromGood(c: Config, st: St, mode: Mode, io: Io)
    requires Starting(c, st, Answering(false, false)) && (mode == List || mode == Nlst)
    requires !st.s.transfer.file.isValid && !st.s.transfer.dir.isValid
    requires !DeviceList(c, st.s.tempPath)
    ensures Good(c, ListFrom(st, mode, io))
  {
    if io.entry.IsDir? && io.dirOk {
      ListDirGood(c, st, mode, io);
    } else if io.entry.IsFile? && mode == List {
      ListFileGood(c, st, io);
    } else {
      RefuseStarts(c, st, 450);
    }
  }

  lemma ListDirGood(c: Config, st: St, mode: Mode, io: Io)
    requires Starting(c, st, Answering(false, false)) && (mode == List || mode == Nlst)
    requires !st.s.transfer.file.isValid && !st.s.transfer.dir.isValid
    requires !DeviceList(c, st.s.tempPath)
    ensures Good(c, ListDir(st, mode, io))
  {
    hide DataOpen, DirClose;
    var u := SetTransfer(st, st.s.transfer.(dir := Dir(true, io.entries)));
    var o := Emit(u, DirOpened(st.s.tempPath));
    ObserveEmit(c, u, DirOpened(st.s.tempPath));
    assert Starting(c, o, Answering(false, false));
    if DataOpen(o, io).ok {
      DataOpenWorks(c, o, io, o.s.transfer.(mode := mode));
    } else {
      DataOpenFails(c, o, io);
      CloseDirGood(c, Say(DataOpen(o, io).st, 425));
    }
  }

  lemma ListFileGood(c: Config, st: St, io: Io)
    requires Starting(c, st, Answering(false, false))
    requires !st.s.transfer.file.isValid && !st.s.transfer.dir.isValid
    requires !DeviceList(c, st.s.tempPath)
    ensures Good(c, ListFile(st, io))
  {
    var u := SetTransfer(st, Build(st.s.transfer, io.line));
    assert Starting(c, u, Answering(false, false));
    if !Fits(io.line) {
      RefuseStarts(c, u, 450);
    } else if DataOpen(u, io).ok {
      DataOpenWorks(c, u, io, u.s.transfer.(mode := List));
    } else {
      DataOpenFails(c, u, io);
    }
  }

  // -------------------------------------------------------------- the data connection

  lemma TransferGood(c: Config, st: St, t: Transfer)
    requires Good(c, st) && st.s.Busy()
    requires t.mode == st.s.transfer.mode && t.dir.isValid == st.s.transfer.dir.isValid
    requires t.file.isValid == st.s.transfer.file.isValid
    requires HandlesSound(c, st.s.(transfer := t))
    ensures Good(c, SetTransfer(st, t))
  {
  }

  lemma TrafficGood(c: Config, st: St, e: Effect)
    requires Good(c, st) && (e.Sent? || e.Received?)
    ensures Good(c, Emit(st, e))
  {
    ObserveEmit(c, st, e);
  }

  lemma RetrStepGood(c: Config, st: St, io: Io)
    requires Good(c, st) && st.s.transfer.mode == Retr
    ensures Good(c, RetrStep(c, st, io))
  {
    hide Finish, RetrSend;
    var t := st.s.transfer;
    if io.read.ReadFail? {
      FinishGood(c, st, 426, io.closing);
    } else {
      var n := N.ReadCount(|Content(st.w.files, t.file.path)|, t.file.off, FILE_BUFFER_SIZE, io.read);
      if n == 0 {
        FinishGood(c, st, 226, io.closing);
      } else {
        RetrSendGood(c, st, n, io);
      }
    }
  }

  lemma RetrSendGood(c: Config, st: St, n: nat, io: Io)
    requires Good(c, st) && st.s.transfer.mode == Retr
    requires n > 0 && st.s.transfer.file.off + n <= |Content(st.w.files, st.s.transfer.file.path)|
    ensures Good(c, RetrSend(c, st, n, io))
  {
    hide Finish, Good, Sound, Tracks;
    var t := st.s.transfer;
    match NextSend(io.sends)
    case SendBlocks =>
      RetrMoves(c, st, t.offset, t.offset);
    case SendFails =>
      RetrMoves(c, st, t.offset, t.file.off + n);
      FinishGood(c, SetTransfer(st, t.(file := t.file.(off := t.file.off + n))), 426, io.closing);
    case Took(count) =>
      var m := SendCount(count, n);
      var at := if m == n then t.file.off + n else t.offset + m;
      var e := Sent(Content(st.w.files, t.file.path)[t.file.off..t.file.off + m]);
      TrafficGood(c, st, e);
      RetrMoves(c, Emit(st, e), t.offset + m, at);
      if t.offset + m == t.size {
        var moved := t.(offset := t.offset + m, file := t.file.(off := at));
        FinishGood(c, SetTransfer(Emit(st, e), moved), 226, io.closing);
      }
  }

  /** The positions of a download are of no concern to the invariant. */
  lemma RetrMoves(c: Config, st: St, offset: nat, off: nat)
    requires Good(c, st) && st.s.transfer.mode == Retr
    ensures var t := st.s.transfer;
            var u := SetTransfer(st, t.(offset := offset, file := t.file.(off := off)));
            Good(c, u) && u.s.active && Sound(c, u.s, u.w.fds) && Tracks(c, u, Quiet(true))
  {
    var t := st.s.transfer;
    TransferGood(c, st, t.(offset := offset, file := t.file.(off := off)));
  }

  lemma WriteKeepsOpen(build: N.Build, v: N.Vfs, b: seq<byte>)
    ensures N.Write(build, v, b).v.isValid == v.isValid
  {
    if build.Buffered? {
      BufferedKeepsOpen(v, b);
    }
  }

  lemma {:induction false} BufferedKeepsOpen(v: N.Vfs, b: seq<byte>)
    ensures N.WriteBuffered(v, b).v.isValid == v.isValid
    decreases |b|, |v.buf|
  {
    if b != [] && |v.buf| + |b| > N.BUF_SIZE {
      var r := N.FillAndFlush(v, b);
      if r.ok {
        BufferedKeepsOpen(r.v, b[N.BUF_SIZE - |v.buf|..]);
      }
    }
  }

  lemma StorStepGood(c: Config, st: St, io: Io)
    requires Good(c, st) && st.s.transfer.mode == Stor
    ensures Good(c, StorStep(c, st, io))
  {
    hide Finish, N.Write;
    var t := st.s.transfer;
    match io.recv
    case RecvBlocks => TransferGood(c, st, t.(file := t.file.(off := t.offset)));
    case RecvFails => FinishGood(c, st, 426, io.closing);
    case Got(all) =>
      var b := Chunk(all);
      if b == [] {
        FinishGood(c, st, 226, io.closing);
      } else {
        var v := Mounted(st.w, t.file, io.faults);
        var r := N.Write(c.build, v, b);
        WriteKeepsOpen(c.build, v, b);
        TrafficGood(c, st, Received(b));
        var e := Emit(st, Received(b));
        var u := Unmount(e, t.file.path, r.v);
        StoredGood(c, e, t.file.path, r.v);
        if !r.ok {
          FinishGood(c, u, 426, io.closing);
        } else {
          TransferGood(c, u, u.s.transfer.(offset := t.offset + |b|));
        }
      }
  }

  lemma StoredGood(c: Config, st: St, path: string, v: N.Vfs)
    requires Good(c, st) && st.s.transfer.mode == Stor && v.isValid
    ensures Good(c, Unmount(st, path, v))
  {
    TransferGood(c, st, st.s.transfer.(file := HandleOf(path, v)));
  }

  lemma ListingKept(c: Config, st: St, t: Transfer)
    requires Good(c, st) && Listing(st.s) && ListingSound(c, st.s.(transfer := t))
    requires t.mode == st.s.transfer.mode && t.file == st.s.transfer.file && t.dir.isValid == st.s.transfer.dir.isValid
    ensures Good(c, SetTransfer(st, t))
  {
    TransferGood(c, st, t);
  }

  lemma GoodListing(c: Config, st: St)
    requires Good(c, st) && Listing(st.s)
    ensures ListingSound(c, st.s) && st.s.active && Sound(c, st.s, st.w.fds) && Tracks(c, st, Quiet(true))
  {
  }

  lemma {:induction false} ListStepGood(c: Config, st: St, sends: seq<SendAnswer>, closing: seq<N.Fault>)
    requires Good(c, st) && Listing(st.s)
    ensures Good(c, ListStep(c, st, sends, closing))
    decreases LinesLeft(c, st.s.transfer), st.s.transfer.size
  {
    hide Good, Sound, Tracks, Finish, Examined, DeviceLine, EntryLine, Overlay, Terminated, ListBytes, Drained;
    GoodListing(c, st);
    var t := st.s.transfer;
    if t.size > 0 {
      SendingGood(c, st, sends, closing);
    } else if DeviceList(c, st.s.tempPath) {
      var u := NextDevice(c, t);
      ListingKept(c, st, u);
      ListStepGood(c, SetTransfer(st, u), sends, closing);
    } else if t.dir.entries == [] {
      FinishGood(c, st, 226, closing);
    } else {
      var u := NextEntry(t, st.s.tempPath);
      ListingKept(c, st, u);
      ListStepGood(c, SetTransfer(st, u), sends, closing);
    }
  }

  lemma {:induction false} SendingGood(c: Config, st: St, sends: seq<SendAnswer>, closing: seq<N.Fault>)
    requires Good(c, st) && Listing(st.s) && st.s.transfer.size > 0
    ensures Good(c, ListStep(c, st, sends, closing))
    decreases LinesLeft(c, st.s.transfer), st.s.transfer.size, 1
  {
    hide Good, Sound, Tracks, Finish, ListBytes, Drained, Build, ListEntry, DeviceLine, ListingSound;
    GoodListing(c, st);
    var t := st.s.transfer;
    match NextSend(sends)
    case SendBlocks =>
    case SendFails => FinishGood(c, st, 426, closing);
    case Took(count) =>
      var m := SendCount(count, t.size);
      var st1 := Emit(st, Sent(ListBytes(t.listBuf, t.offset, m)));
      TrafficGood(c, st, Sent(ListBytes(t.listBuf, t.offset, m)));
      if m != t.size {
        ListingKept(c, st1, t.(offset := t.offset + m, size := t.size - m));
      } else {
        LineSentGood(c, st1, sends, closing);
      }
  }

  /** After a whole line has gone out: the end of the listing, or the next line. */
  lemma {:induction false} LineSentGood(c: Config, st: St, sends: seq<SendAnswer>, closing: seq<N.Fault>)
    requires Good(c, st) && Listing(st.s)
    requires st.s.transfer.size > 0
    ensures var t := st.s.transfer;
            var u := SetTransfer(st, Drained(t));
            Good(c, if !t.dir.isValid && (!DeviceList(c, st.s.tempPath) || t.index == |c.devices|)
                    then Finish(c, u, 226, closing)
                    else ListStep(c, u, RestSends(sends), closing))
    decreases LinesLeft(c, st.s.transfer), st.s.transfer.size, 0
  {
    hide Good, Sound, Tracks, Finish;
    GoodListing(c, st);
    var t := st.s.transfer;
    var u := SetTransfer(st, Drained(t));
    if !t.dir.isValid && (!DeviceList(c, st.s.tempPath) || t.index == |c.devices|) {
      LastLineGood(c, st, closing);
    } else {
      ListingKept(c, st, Drained(t));
      ListStepGood(c, u, RestSends(sends), closing);
    }
  }

  lemma LastLineGood(c: Config, st: St, closing: seq<N.Fault>)
    requires st.s.active && Sound(c, st.s, st.w.fds) && st.s.Busy() && Tracks(c, st, Quiet(true))
    ensures Good(c, Finish(c, SetTransfer(st, Drained(st.s.transfer)), 226, closing))
  {
    hide TransferEnd, CloseConnection, VfsClose, DirClose;
    var u := SetTransfer(st, Drained(st.s.transfer));
    SayTracks(c, u, Quiet(true), 226, "");
    var v := Say(u, 226);
    TransferEndSound(c, v, closing);
    TransferEndTracks(c, v, Quiet(false), closing);
  }

  lemma ProgressGood(c: Config, st: St, io: Io)
    requires Good(c, st)
    ensures Good(c, Progress(c, st, io))
  {
    match st.s.transfer.mode
    case Idle =>
    case Retr => RetrStepGood(c, st, io);
    case Stor => StorStepGood(c, st, io);
    case List => ListStepGood(c, st, io.sends, io.closing);
    case Nlst => ListStepGood(c, st, io.sends, io.closing);
  }

  // -------------------------------------------------------------------- control lines

  lemma PlainGood(c: Config, st: St, abor: bool, code: nat, text: string)
    requires st.s.active && Sound(c, st.s, st.w.fds) && Tracks(c, st, Answering(st.s.Busy(), abor)) && Plain(code)
    ensures Good(c, Emit(st, Reply(code, text)))
  {
    SayTracks(c, st, Answering(st.s.Busy(), abor), code, text);
  }

  /** A line is read the same way with and without what follows it in the buffer. */
  lemma LineLocal(text: string, len: nat)
    requires IsLine(text, len)
    ensures VerbOf(text[..len]) == VerbOf(text)
    ensures VerbOf(text).Some? ==> |Name(VerbOf(text).value)| <= len
    ensures VerbOf(text).Some? ==>
              LineArg(text[..len]) == match ArgOf(text, len, VerbOf(text).value)
                                      case None => ""
                                      case Some(a) => ScanLine(a, NAME_SIZE)
  {
    assert EndsScan(text[len - 2]);
    ScanLineLocal(text, len, 4);
    if VerbOf(text).Some? {
      VerbInsideLine(text, len);
      ArgLocal(text, len, VerbOf(text).value);
    }
  }

  /** An argument ends where its line does. */
  lemma ArgLocal(text: string, len: nat, v: Verb)
    requires IsLine(text, len) && |Name(v)| <= len - 2
    ensures ArgOf(text, len, v).None? <==> ArgOf(text[..len], len, v).None?
    ensures ArgOf(text, len, v).Some? ==>
              forall limit: nat :: ScanLine(ArgOf(text, len, v).value, limit) ==
                                   ScanLine(ArgOf(text[..len], len, v).value, limit)
  {
    hide Name, FindCrlf, ScanLine;
    var k := |Name(v)|;
    SliceOfPrefix(text, len, k);
    var j := IndexOf(text[k..len], ' ');
    if j < len - k {
      var at := k + j + 1;
      SpaceBeforeEnd(text, len, k, j);
      hide IndexOf;
      SliceOfPrefix(text, len, at);
      forall limit: nat ensures ScanLine(text[at..], limit) == ScanLine(text[..len][at..], limit) {
        LineEndsScan(text, len, at, limit);
      }
    }
  }

  lemma SliceOfPrefix(text: string, len: nat, k: nat)
    requires k <= len <= |text|
    ensures text[..len][k..len] == text[..len][k..] == text[k..len]
  {
  }

  /** The space behind the verb comes before the CRLF. */
  lemma SpaceBeforeEnd(text: string, len: nat, k: nat, j: nat)
    requires IsLine(text, len) && k + j < len && text[k..len][j] == ' '
    ensures k + j + 1 <= len - 2
  {
    assert text[k + j] == ' ';
  }

  lemma LineEndsScan(text: string, len: nat, at: nat, limit: nat)
    requires IsLine(text, len) && at <= len - 2
    ensures ScanLine(text[at..], limit) == ScanLine(text[..len][at..], limit)
  {
    var a := text[at..];
    assert EndsScan(a[len - 2 - at]);
    assert a[..len - at] == text[..len][at..];
    hide ScanLine;
    ScanLineLocal(a, len - at, limit);
  }

  predicate IsAuthVerb(v: Verb) { v.USER? || v.PASS? }
  predicate IsConnectionVerb(v: Verb) { v.PORT? || v.PASV? || v.ABOR? }
  predicate IsTransferVerb(v: Verb) { v.RETR? || v.STOR? || v.APPE? || v.LIST? || v.NLST? }
  predicate IsPathVerb(v: Verb) { v.CWD? || v.CDUP? || v.RNFR? || v.RNTO? }
  predicate IsTreeVerb(v: Verb) { v.DELE? || v.RMD? || v.MKD? || v.SIZE? }
  predicate IsParameterVerb(v: Verb) { v.TYPE? || v.STRU? || v.MODE? || v.REST? }

  lemma NotAborting(c: Config, st: St, v: Verb)
    requires Serving(c, st, v)
    ensures v != ABOR ==> !st.s.Busy()
    ensures NeedsAuth(v) ==> st.s.auth == Valid
  {
  }

  lemma AuthVerbGood(c: Config, st: St, v: Verb, data: string, io: Io)
    requires Serving(c, st, v) && IsAuthVerb(v)
    requires v == USER && ScanLine(data, NAME_SIZE) == (if c.anon then "anonymous" else c.user) ==>
               var l := Observe(c, st.log).login; l.named && (c.anon ==> l.entered)
    requires v == PASS && st.s.auth == NeedPass && ScanLine(data, NAME_SIZE) == c.pass ==>
               Observe(c, st.log).login.entered
    ensures Good(c, Execute(c, st, v, data, io))
  {
    hide CmdUser, CmdPass, CmdCwd, CmdCdup, CmdCode, CmdRest, CmdRnfr, CmdRnto, CmdTree, CmdSize, CmdRetr, CmdStor;
    hide CmdAppe, CmdList, CmdPort, CmdPasv, CmdAbor, Good, Serving;
    if v == USER { UserGood(c, st, data); } else { PassGood(c, st, data); }
  }

  lemma ConnectionVerbGood(c: Config, st: St, v: Verb, data: string, io: Io)
    requires Serving(c, st, v) && IsConnectionVerb(v)
    ensures Good(c, Execute(c, st, v, data, io))
  {
    hide CmdUser, CmdPass, CmdCwd, CmdCdup, CmdCode, CmdRest, CmdRnfr, CmdRnto, CmdTree, CmdSize, CmdRetr, CmdStor;
    hide CmdAppe, CmdList, CmdPort, CmdPasv, CmdAbor, Good, Serving;
    match v
    case PORT => PortGood(c, st, data, io);
    case PASV => PasvGood(c, st, io);
    case ABOR => AborGood(c, st, io);
  }

  lemma TransferVerbGood(c: Config, st: St, v: Verb, data: string, io: Io)
    requires Serving(c, st, v) && IsTransferVerb(v)
    ensures Good(c, Execute(c, st, v, data, io))
  {
    hide CmdUser, CmdPass, CmdCwd, CmdCdup, CmdCode, CmdRest, CmdRnfr, CmdRnto, CmdTree, CmdSize, CmdRetr, CmdStor;
    hide CmdAppe, CmdList, CmdPort, CmdPasv, CmdAbor, Good, Serving, Starting;
    ServingStarts(c, st, v);
    match v
    case RETR => RetrGood(c, st, data, io);
    case STOR => StorGood(c, st, data, io);
    case APPE => AppeGood(c, st, data, io);
    case LIST => ListGood(c, st, v, data, List, io);
    case NLST => ListGood(c, st, v, data, Nlst, io);
  }

  lemma ServingStarts(c: Config, st: St, v: Verb)
    requires Serving(c, st, v) && IsTransferVerb(v)
    ensures Starting(c, st, Answering(false, false)) && !st.s.transfer.file.isValid && !st.s.transfer.dir.isValid
  {
    hide PwdSound, SocketsSound, LoginFollows, Observe;
  }

  lemma PathVerbGood(c: Config, st: St, v: Verb, data: string, io: Io)
    requires Serving(c, st, v) && IsPathVerb(v)
    ensures Good(c, Execute(c, st, v, data, io))
  {
    hide CmdUser, CmdPass, CmdCwd, CmdCdup, CmdCode, CmdRest, CmdRnfr, CmdRnto, CmdTree, CmdSize, CmdRetr, CmdStor;
    hide CmdAppe, CmdList, CmdPort, CmdPasv, CmdAbor, Good, Serving;
    match v
    case CWD => CwdGood(c, st, data, io);
    case CDUP => CdupGood(c, st, io);
    case RNFR => RnfrGood(c, st, data);
    case RNTO => RntoGood(c, st, data, io);
  }

  lemma CwdGood(c: Config, st: St, data: string, io: Io)
    requires Serving(c, st, CWD)
    ensures Good(c, CmdCwd(st, data, io))
  {
    hide SetDirectory, Sound, Tracks, Good;
    if ScanLine(data, PATH_LIMIT) == "" {
      PlainGood(c, st, false, 501, "");
    } else {
      SetDirectoryGood(c, st, CWD, ScanLine(data, PATH_LIMIT), io);
    }
  }

  lemma CdupGood(c: Config, st: St, io: Io)
    requires Serving(c, st, CDUP)
    ensures Good(c, CmdCdup(st, io))
  {
    hide SetDirectory, Sound, Tracks, Good;
    if st.s.pwd == "/" { PlainGood(c, st, false, 550, ""); } else { SetDirectoryGood(c, st, CDUP, "..", io); }
  }

  lemma TreeVerbGood(c: Config, st: St, v: Verb, data: string, io: Io)
    requires Serving(c, st, v) && IsTreeVerb(v)
    ensures Good(c, Execute(c, st, v, data, io))
  {
    hide CmdUser, CmdPass, CmdCwd, CmdCdup, CmdCode, CmdRest, CmdRnfr, CmdRnto, CmdTree, CmdSize, CmdRetr, CmdStor;
    hide CmdAppe, CmdList, CmdPort, CmdPasv, CmdAbor, Good, Serving;
    NotAborting(c, st, v);
    match v
    case DELE => TreeGood(c, st, v, data, io, Unlink);
    case RMD => TreeGood(c, st, v, data, io, Rmdir);
    case MKD => TreeGood(c, st, v, data, io, Mkdir);
    case SIZE => SizeGood(c, st, data, io);
  }

  lemma ParameterVerbGood(c: Config, st: St, v: Verb, data: string, io: Io)
    requires Serving(c, st, v) && IsParameterVerb(v)
    ensures Good(c, Execute(c, st, v, data, io))
  {
    hide CmdUser, CmdPass, CmdCwd, CmdCdup, CmdCode, CmdRest, CmdRnfr, CmdRnto, CmdTree, CmdSize, CmdRetr, CmdStor;
    hide CmdAppe, CmdList, CmdPort, CmdPasv, CmdAbor, Good, Serving;
    NotAborting(c, st, v);
    match v
    case TYPE => CodeGood(c, st, v, data, {'A', 'I'});
    case STRU => CodeGood(c, st, v, data, {'F'});
    case MODE => CodeGood(c, st, v, data, {'S'});
    case REST => RestGood(c, st, data);
  }

  lemma ExecuteGood(c: Config, st: St, v: Verb, data: string, io: Io)
    requires Serving(c, st, v)
    requires v == USER && ScanLine(data, NAME_SIZE) == (if c.anon then "anonymous" else c.user) ==>
               var l := Observe(c, st.log).login; l.named && (c.anon ==> l.entered)
    requires v == PASS && st.s.auth == NeedPass && ScanLine(data, NAME_SIZE) == c.pass ==>
               Observe(c, st.log).login.entered
    ensures Good(c, Execute(c, st, v, data, io))
  {
    hide Execute, Good, Serving, Observe, ScanLine;
    if IsAuthVerb(v) { AuthVerbGood(c, st, v, data, io); }
    else if IsConnectionVerb(v) { ConnectionVerbGood(c, st, v, data, io); }
    else if IsTransferVerb(v) { TransferVerbGood(c, st, v, data, io); }
    else if IsPathVerb(v) { PathVerbGood(c, st, v, data, io); }
    else if IsTreeVerb(v) { TreeVerbGood(c, st, v, data, io); }
    else if IsParameterVerb(v) { ParameterVerbGood(c, st, v, data, io); }
    else { AnswerVerbGood(c, st, v, data, io); }
  }

  predicate IsAnswerVerb(v: Verb) {
    && !IsAuthVerb(v) && !IsConnectionVerb(v) && !IsTransferVerb(v)
    && !IsPathVerb(v) && !IsTreeVerb(v) && !IsParameterVerb(v)
  }

  /** The other commands do nothing but answer. */
  lemma AnswerVerbGood(c: Config, st: St, v: Verb, data: string, io: Io)
    requires Serving(c, st, v) && IsAnswerVerb(v)
    ensures Good(c, Execute(c, st, v, data, io))
  {
    hide Good, Sound, Tracks;
    var r := Execute(c, st, v, data, io);
    var said := r.log[|st.log|];
    PlainGood(c, st, false, said.code, said.text);
  }

  lemma AppeGood(c: Config, st: St, data: string, io: Io)
    requires Serving(c, st, APPE)
    ensures Good(c, CmdAppe(c, st, data, io))
  {
    StorGood(c, st.(s := st.s.(marker := -1)), data, io);
  }

  lemma DispatchGood(c: Config, st: St, text: string, len: nat, io: Io)
    requires IsLine(text, len)
    requires Good(c, st) && st.s.active
    ensures Good(c, LineStep(c, st, text, len, io))
  {
    hide Execute, VerbOf, ArgOf, ScanLine;
    var st1 := Emit(st, Line(text[..len]));
    ObserveEmit(c, st, Line(text[..len]));
    LineLocal(text, len);
    var abor := VerbOf(text) == H.Some(ABOR);
    assert Tracks(c, st1, Answering(st.s.Busy(), abor));
    if ScanLine(text, 4) == "" || VerbOf(text).None? {
      PlainGood(c, st1, abor, 500, "");
    } else {
      var v := VerbOf(text).value;
      var arg := ArgOf(text, len, v);
      if NeedsAuth(v) && st.s.auth != Valid {
        PlainGood(c, st1, abor, 530, "");
      } else if st.s.Busy() && v != ABOR {
        PlainGood(c, st1, abor, 501, "");
      } else if (if arg.Some? then Args(v).NoArg? else Args(v).RequiredArg?) {
        PlainGood(c, st1, abor, 501, "");
      } else {
        ExecuteGood(c, st1, v, if arg.Some? then arg.value else "", io);
      }
    }
  }

  // ---------------------------------------------------------------------- all events

  lemma ConnectGood(c: Config, st: St, io: Io)
    requires Good(c, st) && !st.s.active
    ensures Good(c, SessionInit(st, io).st)
  {
    if Granted(st.w, io.socket) {
      var s := BLANK.(active := true, controlSock := io.socket, host := io.host, pwd := "/");
      var st1 := St(s, st.w.(fds := st.w.fds + {io.socket}), st.log);
      ObserveEmit(c, st1, Accepted(io.socket));
      assert Tracks(c, Emit(st1, Accepted(io.socket)), Greeting);
      SayTracks(c, Emit(st1, Accepted(io.socket)), Greeting, 220, "");
    }
  }

  lemma CloseControlSound(st: St)
    requires SocketsSound(st.s, st.w.fds)
    ensures var a := CloseControl(st);
            SocketsSound(a.s, a.w.fds) && a.s == st.s.(controlSock := a.s.controlSock) && a.s.controlSock <= 0
  {
  }

  lemma DisconnectGood(c: Config, st: St, io: Io)
    requires Good(c, st) && st.s.active
    ensures Good(c, SessionClose(c, st, io))
  {
    hide TransferEnd, CloseControl;
    var q := Quiet(st.s.Busy());
    CloseControlTracks(c, st, q);
    CloseControlSound(st);
    var a := CloseControl(st);
    TransferEndTracks(c, a, q, io.closing);
    TransferEndSound(c, a, io.closing);
    HangUpGood(c, TransferEnd(c, a, io.closing), q);
  }

  lemma HangUpGood(c: Config, e: St, q: Dialog)
    requires Tracks(c, e, q) && q.Quiet?
    requires e.s.pasvSock <= 0 && !e.s.transfer.file.isValid && !e.s.transfer.dir.isValid
    ensures Good(c, Emit(e.(s := BLANK), HungUp))
  {
    hide Observe;
    ObserveEmit(c, e, HungUp);
    assert Emit(e.(s := BLANK), HungUp).log == Emit(e, HungUp).log;
  }

  /** Every event, with every answer of the environment, keeps the invariant. */
  lemma StepGood(c: Config, st: St, ev: Event)
    requires Good(c, st)
    ensures Good(c, Step(c, st, ev))
  {
    hide Good, LineStep, Progress, SessionClose, SessionInit;
    match ev
    case Connect(io) => if !st.s.active { ConnectGood(c, st, io); }
    case Command(text, io) =>
      if st.s.active && FindCrlf(text) < |text| {
        DispatchGood(c, st, text, FindCrlf(text) + 2, io);
      }
    case DataReady(io) => if st.s.active && st.s.Busy() { ProgressGood(c, st, io); }
    case Disconnect(io) => if st.s.active { DisconnectGood(c, st, io); }
  }
}
