/**
  Which transfer commands start a transfer and which are refused, and with what: RETR, STOR,
  APPE, LIST and NLST with any argument, and the commands that announce a connection
  (src/ftpsrv.c, lines 739 to 954 and 1098 to 1184).
*/
module Starts {
  import opened CText
  import opened Session
  import opened Monitor
  import opened Conduct
  import opened Transfers
  import opened Deliveries
  import opened Completion
  import opened CommandLines
  import opened Dialogues
  import opened Answers
  import P = Pathname
  import N = NxFile
  import H = HostPort

  // ------------------------------------------------------------- announcing a connection

  /** What is left of a connection and of an earlier transfer has been cleared away. */
  ghost predicate Cleared(st: St, r: St) {
    && r.s.dataSock <= 0 && SamePlace(st, r) && r.s.marker == st.s.marker && r.s.tempPath == ""
    && r.s.transfer == st.s.transfer.(offset := 0, size := 0)
  }

  lemma EndClears(c: Config, st: St, closing: seq<N.Fault>)
    requires SocketsSound(st.s, st.w.fds)
    requires !st.s.Busy() && !st.s.transfer.file.isValid && !st.s.transfer.dir.isValid
    ensures var e := TransferEnd(c, st, closing);
            && Cleared(st, e) && e.s.pasvSock <= 0 && e.s.conn.NoConnection? && e.s.dataAddr == st.s.dataAddr
            && e.w == st.w.(fds := st.w.fds - Own(st.s.dataSock) - Own(st.s.pasvSock))
            && Answered(st, e, [])
  {
    EndOfIdle(c, st, closing);
    TransferEndSound(c, st, closing);
    hide TransferEnd, TrafficOf;
    assert TrafficOf(st.log).replies + [] == TrafficOf(st.log).replies;
  }

  /** PORT: whatever was announced before is cleared away, and then an address that can be read is taken. */
  lemma PortAnswers(c: Config, st: St, word: string, a: string, rest: string, io: Io)
    requires Ready(c, st) && SameWord(word, "PORT") && Speakable(H.Some(a))
    ensures var r := Step(c, st, Command(Typed(word, H.Some(a)) + rest, io));
            && Cleared(st, r) && r.s.pasvSock <= 0
            && r.w.fds == st.w.fds - Own(st.s.dataSock) - Own(st.s.pasvSock)
            && match H.ParsePort(a + CRLF + rest, st.s.dataAddr)
               case None => r.s.conn.NoConnection? && Answered(st, r, [501])
               case Some(there) => r.s.conn.Active? && r.s.dataAddr == there && Answered(st, r, [200])
  {
    hide Typed, Step, Speakable, Good, H.ParsePort, TransferEnd, TrafficOf, SocketsSound;
    var l := Emit(st, Line(Typed(word, H.Some(a))));
    Handled(c, st, PORT, word, H.Some(a), rest, io);
    ReadyHandles(c, st);
    ReadySockets(c, st);
    EndClears(c, l, io.closing);
    var e := TransferEnd(c, l, io.closing);
    LineQuiet(st, Typed(word, H.Some(a)));
    SayAnswers(e, 501, "");
    SayAnswers(e, 200, "");
    SameLog(Step(c, st, Command(Typed(word, H.Some(a)) + rest, io)),
            Say(e, if H.ParsePort(a + CRLF + rest, st.s.dataAddr).Some? then 200 else 501));
    AnsweredThen(l, e, Say(e, 501), [], [501]);
    AnsweredThen(l, e, Say(e, 200), [], [200]);
    assert [] + [501] == [501] && [] + [200] == [200];
  }

  lemma ReadySockets(c: Config, st: St)
    requires Ready(c, st)
    ensures SocketsSound(st.s, st.w.fds)
  {
  }

  /** PASV: the same, and then the server listens on its address and the next port, if it can. */
  lemma PasvAnswers(c: Config, st: St, word: string, rest: string, io: Io)
    requires Ready(c, st) && SameWord(word, "PASV")
    ensures var r := Step(c, st, Command(Typed(word, H.None) + rest, io));
            var fds := st.w.fds - Own(st.s.dataSock) - Own(st.s.pasvSock);
            var n := |r.log|;
            && Cleared(st, r)
            && if io.socket > 0 && io.socket !in fds && io.bindOk && io.listenOk then
                 && r.s.conn.Passive? && r.s.pasvSock == io.socket && r.w.fds == fds + {io.socket}
                 && n >= 2 && r.log[n - 2] == Listener(io.socket, st.w.port)
                 && r.log[n - 1] == Reply(227, H.PassiveText(H.Address(st.s.host, st.w.port)))
                 && Answered(st, r, [227])
               else r.s.conn.NoConnection? && r.s.pasvSock <= 0 && r.w.fds == fds && Answered(st, r, [501])
  {
    hide Typed, Step, Good, H.PassiveText, TransferEnd, TrafficOf, SocketsSound, PasvFrom;
    var l := Emit(st, Line(Typed(word, H.None)));
    Handled(c, st, PASV, word, H.None, rest, io);
    ReadyHandles(c, st);
    ReadySockets(c, st);
    EndClears(c, l, io.closing);
    var e := TransferEnd(c, l, io.closing);
    LineQuiet(st, Typed(word, H.None));
    PasvReplies(e, io);
    PasvFields(e, io);
    var r := Step(c, st, Command(Typed(word, H.None) + rest, io));
    AnsweredThen(l, e, r, [], if r.s.conn.Passive? then [227] else [501]);
    assert [] + [501] == [501] && [] + [227] == [227];
  }

  lemma PasvReplies(e: St, io: Io)
    ensures Answered(e, PasvFrom(e, io), if Granted(e.w, io.socket) && io.bindOk && io.listenOk then [227] else [501])
  {
    hide TrafficOf, H.PassiveText;
    SayAnswers(e.(s := e.s.(pasvSock := -1)), 501, "");
    var l := Emit(e.(s := e.s.(pasvSock := io.socket),
                     w := e.w.(fds := e.w.fds + {io.socket}, port := H.NextPort(e.w.port))),
                  Listener(io.socket, e.w.port));
    TrafficEmit(e.(s := e.s.(pasvSock := io.socket),
                   w := e.w.(fds := e.w.fds + {io.socket}, port := H.NextPort(e.w.port))),
                Listener(io.socket, e.w.port));
    SayAnswers(l, 501, "");
    TrafficEmit(Say(l, 501), SocketClosed(io.socket));
    SayAnswers(l.(s := l.s.(conn := Passive)), 227, H.PassiveText(H.Address(l.s.host, e.w.port)));
  }

  lemma PasvFields(e: St, io: Io)
    requires e.s.pasvSock <= 0 && e.s.conn.NoConnection?
    ensures var r := PasvFrom(e, io);
            var n := |r.log|;
            && r.s == e.s.(pasvSock := r.s.pasvSock, conn := r.s.conn) && r.w.files == e.w.files
            && if Granted(e.w, io.socket) && io.bindOk && io.listenOk then
                 && r.s.conn.Passive? && r.s.pasvSock == io.socket && r.w.fds == e.w.fds + {io.socket}
                 && n >= 2 && r.log[n - 2] == Listener(io.socket, e.w.port)
                 && r.log[n - 1] == Reply(227, H.PassiveText(H.Address(e.s.host, e.w.port)))
               else r.s.conn.NoConnection? && r.s.pasvSock <= 0 && r.w.fds == e.w.fds
  {
    hide H.PassiveText;
  }

  /** ABOR: nothing is announced, open or running afterwards. */
  lemma AborAnswers(c: Config, st: St, word: string, rest: string, io: Io)
    requires Good(c, st) && st.s.active && SameWord(word, "ABOR")
    ensures var r := Step(c, st, Command(Typed(word, H.None) + rest, io));
            && !r.s.Busy() && r.s.conn.NoConnection? && r.s.dataSock <= 0 && r.s.pasvSock <= 0
            && !r.s.transfer.file.isValid && !r.s.transfer.dir.isValid
            && r.w.fds == st.w.fds - Own(st.s.dataSock) - Own(st.s.pasvSock)
            && Answered(st, r, if st.s.conn.NoConnection? then [226]
                               else if st.s.Busy() then [426, 226] else [225])
  {
    hide Typed, Step, TransferEnd, TrafficOf, Tracks;
    var l := Emit(st, Line(Typed(word, H.None)));
    Handled(c, st, ABOR, word, H.None, rest, io);
    BusyConnected(c, st);
    AbortAnswers(c, l, io);
    TransferEndSound(c, l, io.closing);
    LineQuiet(st, Typed(word, H.None));
  }

  // ------------------------------------------------------------------------------ RETR

  /** The last thing done was to make the data connection: to the announced address, or from the client. */
  ghost predicate Dialled(st: St, r: St, io: Io) {
    && r.s.dataSock == io.socket && r.log != []
    && r.log[|r.log| - 1] ==
       DataSocket(io.socket, if st.s.conn.Active? then H.Some(st.s.dataAddr) else H.None)
  }

  /** The file is there and can be opened, measured, and put to the restart marker. */
  predicate Fetchable(s: Session, files: Files, path: string, io: Io) {
    && path in files && N.Call(io.faults, 0).Pass?
    && io.fstatOk && (s.marker > 0 ==> io.seekOk)
  }

  /** A transfer command was refused: no transfer runs, no handle is open, and nobody's files have changed. */
  ghost predicate Declined(st: St, r: St) {
    && !r.s.Busy() && !r.s.transfer.file.isValid && !r.s.transfer.dir.isValid
    && r.s.conn == st.s.conn && r.s.pwd == st.s.pwd && r.w.files == st.w.files
  }

  /**
    RETR with any argument.  It starts if and only if the place where the name leads has room
    and a file that can be fetched, and a connection was announced and can be had; otherwise
    it is refused with a 501, a 550, or a 425 behind its 150.
  */
  lemma RetrAnswers(c: Config, st: St, word: string, a: string, rest: string, io: Io)
    requires Ready(c, st) && SameWord(word, "RETR") && Speakable(H.Some(a))
    ensures var line := Typed(word, H.Some(a));
            var r := Step(c, st, Command(line + rest, io));
            var there := There(st.s, a);
            if a == "" then r == Told(st, line, st.s, 501)
            else if |there| >= 4096 || !Fetchable(st.s, st.w.files, ToBackEnd(c, there), io) then
              Declined(st, r) && Answered(st, r, [550])
            else if !Reachable(st, io) then Declined(st, r) && Answered(st, r, [150, 425])
            else
              && r.s.transfer.mode == Retr && r.s.transfer.file.path == ToBackEnd(c, there)
              && Orderly(c, r) && Answered(st, r, [150])
              && Owed(c, r) == Tail(st.w.files[ToBackEnd(c, there)], Start(st.s)) && r.s.marker <= 0
              && Dialled(st, r, io)
  {
    hide Typed, Step, Speakable, ScanLine, Resolve, There, ToBackEnd, Good, CmdRetr, TrafficOf, Orderly, Owed;
    var line := Typed(word, H.Some(a));
    var l := Emit(st, Line(line));
    Handled(c, st, RETR, word, H.Some(a), rest, io);
    RetrExecutes(c, l, a + CRLF + rest, io);
    ScanCut(a, rest, 4095);
    ReadyPlace(c, st);
    ReadyHandles(c, st);
    LineQuiet(st, line);
    SayTold(st, line, st.s, 501);
    if a == "" {
      RetrNoName(c, l, a + CRLF + rest, io);
    } else {
      Resolved(st.s, a);
      FixedThere(c, st.s, a);
      SameNames(c, st.s, l.s, Cut(a, 4095));
      RetrDecides(c, l, a + CRLF + rest, io);
    }
  }

  lemma RetrNoName(c: Config, st: St, data: string, io: Io)
    requires ScanLine(data, PATH_LIMIT) == ""
    ensures CmdRetr(c, st, data, io) == Say(st, 501)
  {
    hide ScanLine;
  }

  lemma OpensForReading(st: St, path: string, faults: seq<N.Fault>)
    ensures VfsOpen(st, path, N.READ, faults).ok <==> path in st.w.files && N.Call(faults, 0).Pass?
    ensures !VfsOpen(st, path, N.READ, faults).ok ==>
              var u := VfsOpen(st, path, N.READ, faults).st;
              && u.w == st.w && u.log == st.log && u.s == st.s.(transfer := st.s.transfer.(file := u.s.transfer.file))
              && u.s.transfer.file.isValid == st.s.transfer.file.isValid
  {
    var v := Mounted(st.w, st.s.transfer.file.(path := path), faults);
    N.OpenExact(v, path in st.w.files, N.READ);
    assert path in st.w.files ==> st.w.files[path := st.w.files[path]] == st.w.files;
  }

  lemma RetrDecides(c: Config, st: St, data: string, io: Io)
    requires !st.s.Busy() && !st.s.transfer.file.isValid && !st.s.transfer.dir.isValid
    requires ScanLine(data, PATH_LIMIT) != ""
    ensures var r := CmdRetr(c, st, data, io);
            var b := Resolve(st.s, ScanLine(data, PATH_LIMIT));
            var path := FixedPath(c, b.path);
            if !b.ok || !Fetchable(st.s, st.w.files, path, io) then Declined(st, r) && Answered(st, r, [550])
            else if !Reachable(st, io) then Declined(st, r) && Answered(st, r, [150, 425])
            else
              && r.s.transfer.mode == Retr && r.s.transfer.file.path == path
              && Orderly(c, r) && Answered(st, r, [150])
              && Owed(c, r) == Tail(st.w.files[path], Start(st.s)) && r.s.marker <= 0
              && Dialled(st, r, io)
  {
    var b := Resolve(st.s, ScanLine(data, PATH_LIMIT));
    var path := FixedPath(c, b.path);
    OpensForReading(st, path, io.faults);
    OpenForReading(st, path, io.faults);
    VfsOpenTraffic(st, path, N.READ, io.faults);
    var o := VfsOpen(st, path, N.READ, io.faults);
    SayAnswers(st, 550, "");
    SayAnswers(o.st, 550, "");
    hide VfsOpen, ScanLine, Resolve, FixedPath, TrafficOf, Orderly, Owed;
    if b.ok && o.ok {
      ReaderCloses(c, Say(o.st, 550), io.closing);
      RetrFromDecides(c, o.st, io);
      hide RetrFrom, VfsClose;
    }
  }

  /** The part of RETR behind the opening. */
  lemma RetrFromDecides(c: Config, st: St, io: Io)
    requires !st.s.Busy() && !st.s.transfer.dir.isValid && st.s.transfer.file.path in st.w.files
    requires st.s.transfer.file == Handle(st.s.transfer.file.path, true, 0, 0, [])
    ensures var r := RetrFrom(c, st, io);
            if st.s.marker > 0 && !io.seekOk then Declined(st, r) && Answered(st, r, [550])
            else if !Reachable(st, io) then Declined(st, r) && Answered(st, r, [150, 425])
            else
              && r.s.transfer.mode == Retr && r.s.transfer.file.path == st.s.transfer.file.path
              && Orderly(c, r) && Answered(st, r, [150])
              && Owed(c, r) == Tail(Content(st.w.files, st.s.transfer.file.path), Start(st.s)) && r.s.marker <= 0
              && Dialled(st, r, io)
  {
    hide DataOpen, TrafficOf, VfsClose, Content, Orderly, Owed;
    var p := Positioned(st, io).st;
    SayAnswers(p, 550, "");
    if st.s.marker > 0 && !io.seekOk {
      ReaderCloses(c, Say(p, 550), io.closing);
    } else if Reachable(st, io) {
      ReachableOpens(p, io);
      RetrFromOwes(c, st, io);
      OneMore(TrafficOf(st.log), 150);
    } else {
      DataRefused(p, io);
      ReaderCloses(c, Say(DataOpen(p, io).st, 425), io.closing);
    }
  }

  lemma OneMore(t: Traffic, code: nat)
    ensures Count(t, Reply(code, "")) == t.(replies := t.replies + [code])
  {
  }

  // --------------------------------------------------------------------- STOR and APPE

  /** The file is there or can be made, and can be opened, and measured or emptied. */
  predicate Storable(files: Files, path: string, io: Io) {
    (path in files || N.Call(io.faults, 0).Pass?) && N.Call(io.faults, 1).Pass? && N.Call(io.faults, 2).Pass?
  }

  /** No transfer runs, no handle is open; `base` is in the file of that path, and all others are as they were. */
  ghost predicate Dropped(st: St, r: St, path: string, base: seq<byte>) {
    && !r.s.Busy() && !r.s.transfer.file.isValid && !r.s.transfer.dir.isValid
    && r.s.conn == st.s.conn && r.s.pwd == st.s.pwd
    && Content(r.w.files, path) == base
    && forall p | p != path :: Content(r.w.files, p) == Content(st.w.files, p)
  }

  /** What an upload begins with: the old contents if it appends, and nothing otherwise. */
  function Beginning(v: Verb, st: St, path: string): seq<byte> {
    if v == APPE || st.s.marker == -1 then Content(st.w.files, path) else []
  }

  /**
    STOR and APPE with any argument.  They start if and only if the place where the name leads
    has room and can be written to, and a connection was announced and can be had.  Refused
    with a 551 they leave every file's contents alone; refused with a 425 a STOR has emptied
    its file already.
  */
  lemma StorAnswers(c: Config, st: St, v: Verb, word: string, a: string, rest: string, io: Io)
    requires Ready(c, st) && Speakable(H.Some(a))
    requires (v == STOR && SameWord(word, "STOR")) || (v == APPE && SameWord(word, "APPE"))
    ensures var line := Typed(word, H.Some(a));
            var r := Step(c, st, Command(line + rest, io));
            var there := There(st.s, a);
            if a == "" then r == Told(st, line, if v == APPE then st.s.(marker := -1) else st.s, 501)
            else
              var path := ToBackEnd(c, there);
              && r.s.marker == (if v == APPE || st.s.marker == -1 then 0 else st.s.marker)
              && if |there| >= 4096 || !Storable(st.w.files, path, io) then
                   Dropped(st, r, path, Content(st.w.files, path)) && Answered(st, r, [551])
                 else if !Reachable(st, io) then
                   Dropped(st, r, path, Beginning(v, st, path)) && Answered(st, r, [150, 425])
                 else
                   && r.s.transfer.mode == Stor && Storing(c, r) && StoredAt(r) == Beginning(v, st, path)
                   && r.s.transfer.file.path == path && Answered(st, r, [150]) && Dialled(st, r, io)
  {
    hide Typed, Step, Speakable, ScanLine, Resolve, There, ToBackEnd, Good, CmdStor, TrafficOf, Storing, StoredAt;
    var line := Typed(word, H.Some(a));
    var l := Emit(st, Line(line));
    var u := if v == APPE then l.(s := l.s.(marker := -1)) else l;
    var data := a + CRLF + rest;
    Handled(c, st, v, word, H.Some(a), rest, io);
    StorExecutes(c, l, data, io);
    ScanCut(a, rest, 4095);
    ReadyPlace(c, st);
    ReadyHandles(c, st);
    LineQuiet(st, line);
    if a == "" {
      StorNoName(c, u, data, io);
      SayTold(st, line, u.s, 501);
    } else {
      Resolved(st.s, a);
      FixedThere(c, st.s, a);
      SameNames(c, st.s, u.s, Cut(a, 4095));
      StorDecides(c, u, data, io);
      assert u.log == l.log;
    }
  }

  lemma StorNoName(c: Config, st: St, data: string, io: Io)
    requires ScanLine(data, PATH_LIMIT) == ""
    ensures CmdStor(c, st, data, io) == Say(st, 501)
  {
    hide ScanLine;
  }

  lemma OpensToWrite(st: St, path: string, mode: N.OpenMode, faults: seq<N.Fault>)
    requires mode != N.READ
    ensures var o := VfsOpen(st, path, mode, faults);
            && (o.ok <==> (path in st.w.files || N.Call(faults, 0).Pass?)
                          && N.Call(faults, 1).Pass? && N.Call(faults, 2).Pass?)
            && o.st.s == st.s.(transfer := st.s.transfer.(file := o.st.s.transfer.file))
            && o.st.w.fds == st.w.fds
            && (forall p | p != path :: Content(o.st.w.files, p) == Content(st.w.files, p))
            && (!o.ok ==> Content(o.st.w.files, path) == Content(st.w.files, path) && o.st.log == st.log
                          && o.st.s.transfer.file.isValid == st.s.transfer.file.isValid)
  {
    hide N.Open;
    var v := Mounted(st.w, st.s.transfer.file.(path := path), faults);
    N.OpenExact(v, path in st.w.files, mode);
    InvalidStays(v, path in st.w.files, mode);
    N.SecondCall(faults);
  }

  lemma InvalidStays(v: N.Vfs, present: bool, mode: N.OpenMode)
    ensures !N.Open(v, present, mode).ok ==> N.Open(v, present, mode).v.isValid == v.isValid
  {
  }

  /** A file that has just been opened for writing is closed as it is. */
  lemma FreshCloses(c: Config, st: St, path: string, base: seq<byte>, closing: seq<N.Fault>)
    requires st.s.transfer.file == Handle(path, true, |base|, |base|, []) && path in st.w.files
    requires st.w.files[path] == base
    ensures var r := VfsClose(c, st, closing);
            && r.w == st.w && r.s == st.s.(transfer := st.s.transfer.(file := r.s.transfer.file))
            && TrafficOf(r.log) == TrafficOf(st.log) && !r.s.transfer.file.isValid
  {
    HandlesTraffic(c, st, closing);
    TrafficEmit(st, FileClosed);
    hide TrafficOf;
    assert N.Close(c.build, Mounted(st.w, st.s.transfer.file, closing)).data == base;
    assert st.w.files[path := base] == st.w.files;
  }

  lemma StorDecides(c: Config, st: St, data: string, io: Io)
    requires !st.s.Busy() && !st.s.transfer.file.isValid && !st.s.transfer.dir.isValid
    requires ScanLine(data, PATH_LIMIT) != ""
    ensures var r := CmdStor(c, st, data, io);
            var b := Resolve(st.s, ScanLine(data, PATH_LIMIT));
            var path := FixedPath(c, b.path);
            var base := if st.s.marker == -1 then Content(st.w.files, path) else [];
            && r.s.marker == (if st.s.marker == -1 then 0 else st.s.marker)
            && if !b.ok then Dropped(st, r, path, Content(st.w.files, path)) && Answered(st, r, [551])
               else if !Storable(st.w.files, path, io) then
                 Dropped(st, r, path, Content(st.w.files, path)) && Answered(st, r, [551])
               else if !Reachable(st, io) then Dropped(st, r, path, base) && Answered(st, r, [150, 425])
               else
                 && r.s.transfer.mode == Stor && Storing(c, r) && StoredAt(r) == base
                 && r.s.transfer.file.path == path && Answered(st, r, [150]) && Dialled(st, r, io)
  {
    hide VfsOpen, StorFrom, ScanLine, Resolve, FixedPath, TrafficOf, Storing, StoredAt;
    var append := st.s.marker == -1;
    var u := if append then st.(s := st.s.(marker := 0)) else st;
    var name := ScanLine(data, PATH_LIMIT);
    var mode := if append then N.APPEND else N.WRITE;
    MarkerAside(st.s, 0, name);
    var path := FixedPath(c, Resolve(u.s, name).path);
    OpensToWrite(u, path, mode, io.faults);
    VfsOpenTraffic(u, path, mode, io.faults);
    var o := VfsOpen(u, path, mode, io.faults);
    SayAnswers(u, 551, "");
    SayAnswers(o.st, 551, "");
    if Resolve(u.s, name).ok && o.ok {
      OpenedFile(u, path, mode, io.faults);
      OpenForWriting(c, u, path, mode, io.faults);
      StorConnects(c, o.st, path, if append then Content(st.w.files, path) else [], io);
    }
  }

  /** The part of STOR behind the opening. */
  lemma StorConnects(c: Config, st: St, path: string, base: seq<byte>, io: Io)
    requires !st.s.Busy() && !st.s.transfer.dir.isValid && path in st.w.files && st.w.files[path] == base
    requires st.s.transfer.file == Handle(path, true, |base|, |base|, [])
    requires N.Writer(c.build, Mounted(st.w, st.s.transfer.file, [])) && StoredAt(st) == base
    ensures var r := StorFrom(c, st, io);
            && r.s.marker == st.s.marker
            && if !Reachable(st, io) then Dropped(st, r, path, base) && Answered(st, r, [150, 425])
               else
                 && r.s.transfer.mode == Stor && Storing(c, r) && StoredAt(r) == base
                 && r.s.transfer.file.path == path && Answered(st, r, [150]) && Dialled(st, r, io)
  {
    hide DataOpen, VfsClose, TrafficOf, StoredAt, N.Writer;
    DataOpenTraffic(st, io);
    OneMore(TrafficOf(st.log), 150);
    var d := DataOpen(st, io).st;
    if Reachable(st, io) {
      ReachableOpens(st, io);
      SameStored(st, SetTransfer(d, d.s.transfer.(mode := Stor)));
    } else {
      DataRefused(st, io);
      FreshCloses(c, Say(d, 425), path, base, io.closing);
    }
  }

  // --------------------------------------------------------------------- LIST and NLST

  /** The flags of a shell's ls, or no argument: the working directory is meant. */
  predicate MeansHere(arg: H.Option<string>) {
    arg.None? || arg.value == "" || arg.value == "-a" || arg.value == "-la"
  }

  /** What is to be listed. */
  function Place(s: Session, arg: H.Option<string>): string {
    if MeansHere(arg) then s.pwd else There(s, arg.value)
  }

  /** No transfer runs, no handle is open, no file has changed; `path` is where the listing would have been of. */
  ghost predicate Unlisted(st: St, r: St, path: string) {
    && !r.s.Busy() && !r.s.transfer.file.isValid && !r.s.transfer.dir.isValid
    && r.s.conn == st.s.conn && r.s.pwd == st.s.pwd && r.s.tempPath == path && r.w.files == st.w.files
  }

  /** A listing of that mode runs, of `path`, with these entries of a directory yet to come. */
  ghost predicate Listed(st: St, r: St, mode: Mode, path: string, dir: Dir, io: Io) {
    && r.s.transfer.mode == mode && r.s.tempPath == path && r.w.files == st.w.files
    && r.s.transfer.dir == dir && !r.s.transfer.file.isValid
    && Answered(st, r, [150]) && Dialled(st, r, io)
  }

  /** A connection comes about, or the refusal behind the 150. */
  ghost predicate Connects(st: St, r: St, mode: Mode, path: string, dir: Dir, io: Io) {
    if Reachable(st, io) then Listed(st, r, mode, path, dir, io)
    else Unlisted(st, r, path) && Answered(st, r, [150, 425])
  }

  /** What a listing of the place `path` comes to; `at` is where its effects begin in the log. */
  ghost predicate ListOutcome(c: Config, st: St, at: nat, r: St, mode: Mode, place: string, io: Io) {
    if c.devices != [] && place == "/" then
      Connects(st, r, mode, "/", st.s.transfer.dir, io) && (r.s.Busy() ==> r.s.transfer.index == 0)
    else
      place != "" &&
      var path := ToBackEnd(c, place);
      match io.entry
      case Missing => Unlisted(st, r, path) && Answered(st, r, [450])
      case IsDir =>
        if !io.dirOk then Unlisted(st, r, path) && Answered(st, r, [450])
        else |r.log| > at && r.log[at] == DirOpened(path) && Connects(st, r, mode, path, Dir(true, io.entries), io)
      case IsFile =>
        if mode == Nlst || !(0 < |io.line| <= 1024) then Unlisted(st, r, path) && Answered(st, r, [450])
        else Connects(st, r, List, path, st.s.transfer.dir, io)
  }

  /**
    LIST and NLST with any argument.  What is listed is the working directory, or the place
    where the name leads; the name is refused with a 501 if and only if that has no room.  A
    directory is opened under exactly that path, the devices are listed in its place if it is
    the root and there are any, and a single file is listed by LIST alone.
  */
  lemma ListAnswers(c: Config, st: St, v: Verb, word: string, arg: H.Option<string>, rest: string, io: Io)
    requires Ready(c, st) && Speakable(arg)
    requires (v == LIST && SameWord(word, "LIST")) || (v == NLST && SameWord(word, "NLST"))
    ensures var r := Step(c, st, Command(Typed(word, arg) + rest, io));
            var place := Place(st.s, arg);
            if |place| >= 4096 then Unlisted(st, r, place[..4095]) && Answered(st, r, [501])
            else ListOutcome(c, st, |st.log| + 1, r, if v == NLST then Nlst else List, place, io)
  {
    hide Typed, Step, Speakable, Resolve, There, Good, CmdList, TrafficOf, ListOutcome, ToBackEnd, ScanLine;
    var line := Typed(word, arg);
    var l := Emit(st, Line(line));
    Handled(c, st, v, word, arg, rest, io);
    ListExecutes(c, l, v, Heard(arg, rest), io);
    ReadyPlace(c, st);
    ReadyHandles(c, st);
    LineQuiet(st, line);
    PlaceFound(st.s, arg, rest);
    PlaceKept(c, st.s, arg);
    ListDecides(c, l, Heard(arg, rest), ListingMode(v), Place(st.s, arg), io);
    OutcomeKept(c, st, l, Step(c, st, Command(line + rest, io)), ListingMode(v), Place(st.s, arg), io);
  }

  lemma PlaceFound(s: Session, arg: H.Option<string>, rest: string)
    requires PwdSound(s) && Speakable(arg)
    ensures var b := ListPath(s, ScanLine(Heard(arg, rest), 4095));
            b == if |Place(s, arg)| < 4096 then P.Built(true, Place(s, arg)) else P.Built(false, Place(s, arg)[..4095])
  {
    hide Resolve, There, P.CanonicalAbsolute, ScanLine;
    if arg.Some? {
      ScanCut(arg.value, rest, 4095);
      if arg.value != "" { Resolved(s, arg.value); }
    } else {
      ScanNothing();
    }
  }

  lemma PlaceKept(c: Config, s: Session, arg: H.Option<string>)
    requires PwdSound(s)
    ensures var place := Place(s, arg); place != "" && FixedPath(c, place) == ToBackEnd(c, place)
  {
    hide P.Target, P.Comps, P.Join;
  }

  /** The line that was read changes nothing in that. */
  lemma OutcomeKept(c: Config, st: St, l: St, r: St, mode: Mode, place: string, io: Io)
    requires l.s == st.s && l.w == st.w && TrafficOf(l.log) == TrafficOf(st.log)
    ensures ListOutcome(c, l, |st.log| + 1, r, mode, place, io) ==> ListOutcome(c, st, |st.log| + 1, r, mode, place, io)
    ensures Unlisted(l, r, place) ==> Unlisted(st, r, place)
  {
    hide TrafficOf, ToBackEnd;
  }

  lemma ListDecides(c: Config, st: St, data: string, mode: Mode, place: string, io: Io)
    requires !st.s.Busy() && !st.s.transfer.file.isValid && !st.s.transfer.dir.isValid
    requires mode == List || mode == Nlst
    requires place != "" && FixedPath(c, place) == ToBackEnd(c, place)
    requires ListPath(st.s, ScanLine(data, 4095)) ==
             if |place| < 4096 then P.Built(true, place) else P.Built(false, place[..4095])
    ensures var r := CmdList(c, st, data, mode, io);
            if |place| >= 4096 then Unlisted(st, r, place[..4095]) && Answered(st, r, [501])
            else ListOutcome(c, st, |st.log|, r, mode, place, io)
  {
    hide ListPath, ScanLine, ListFrom, ListDevices, TrafficOf, FixedPath, ToBackEnd, ListOutcome;
    if |place| >= 4096 {
      SayAnswers(st.(s := st.s.(tempPath := place[..4095])), 501, "");
    } else if DeviceList(c, place) {
      DevicesDecide(c, st, mode, io);
    } else {
      FromDecides(c, st, mode, place, io);
    }
  }

  lemma DevicesDecide(c: Config, st: St, mode: Mode, io: Io)
    requires !st.s.Busy() && !st.s.transfer.file.isValid && !st.s.transfer.dir.isValid && c.devices != []
    requires mode == List || mode == Nlst
    ensures ListOutcome(c, st, |st.log|, ListDevices(st.(s := st.s.(tempPath := "/")), mode, io), mode, "/", io)
  {
    hide DataOpen, TrafficOf;
    Opening(st.(s := st.s.(tempPath := "/")), io);
  }

  /** What a data connection, or its failure, does to the start of a listing. */
  lemma Opening(st: St, io: Io)
    ensures var d := DataOpen(st, io);
            && d.st.s == st.s.(dataSock := d.st.s.dataSock) && d.st.w.files == st.w.files
            && st.log <= d.st.log
            && (d.ok <==> Reachable(st, io))
            && if d.ok then Answered(st, d.st, [150]) && Dialled(st, d.st, io)
               else Answered(st, Say(d.st, 425), [150, 425])
  {
    hide TrafficOf;
    DataOpenTraffic(st, io);
    OneMore(TrafficOf(st.log), 150);
    if Reachable(st, io) { ReachableOpens(st, io); } else { DataRefused(st, io); }
  }

  lemma FromDecides(c: Config, st: St, mode: Mode, place: string, io: Io)
    requires !st.s.Busy() && !st.s.transfer.file.isValid && !st.s.transfer.dir.isValid
    requires (mode == List || mode == Nlst) && place != "" && !DeviceList(c, place)
    requires FixedPath(c, place) == ToBackEnd(c, place)
    ensures ListOutcome(c, st, |st.log|, ListFrom(st.(s := st.s.(tempPath := FixedPath(c, place))), mode, io),
                        mode, place, io)
  {
    hide ListDir, ListFile, TrafficOf, FixedPath, ToBackEnd;
    var u := st.(s := st.s.(tempPath := FixedPath(c, place)));
    SayAnswers(u, 450, "");
    if io.entry.IsDir? && io.dirOk { DirDecides(u, mode, io); }
    if io.entry.IsFile? { FileDecides(u, io); }
  }

  lemma DirDecides(st: St, mode: Mode, io: Io)
    requires !st.s.Busy() && !st.s.transfer.file.isValid && !st.s.transfer.dir.isValid
    requires mode == List || mode == Nlst
    ensures var r := ListDir(st, mode, io);
            && |r.log| > |st.log| && r.log[|st.log|] == DirOpened(st.s.tempPath)
            && Connects(st, r, mode, st.s.tempPath, Dir(true, io.entries), io)
  {
    hide DataOpen, TrafficOf;
    var u := SetTransfer(st, st.s.transfer.(dir := Dir(true, io.entries)));
    var o := Emit(u, DirOpened(st.s.tempPath));
    TrafficEmit(u, DirOpened(st.s.tempPath));
    Opening(o, io);
    TrafficEmit(Say(DataOpen(o, io).st, 425), DirClosed);
  }

  lemma FileDecides(st: St, io: Io)
    requires !st.s.Busy() && !st.s.transfer.file.isValid && !st.s.transfer.dir.isValid
    ensures var r := ListFile(st, io);
            if 0 < |io.line| <= 1024 then Connects(st, r, List, st.s.tempPath, st.s.transfer.dir, io)
            else Unlisted(st, r, st.s.tempPath) && Answered(st, r, [450])
  {
    hide DataOpen, TrafficOf, Overlay, Terminated;
    var u := SetTransfer(st, Build(st.s.transfer, io.line));
    SayAnswers(u, 450, "");
    Opening(u, io);
  }
}
