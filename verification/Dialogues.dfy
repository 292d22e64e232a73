/**
  Whole dialogues, line by line: what a client gets that has logged in, announces a data
  connection and asks for a transfer.
*/
module Dialogues {
  import opened CText
  import opened Session
  import opened Conduct
  import opened Transfers
  import opened Deliveries
  import opened Completion
  import opened CommandLines
  import N = NxFile
  import H = HostPort

  /** A session that has logged in and runs no transfer. */
  ghost predicate Ready(c: Config, st: St) {
    Good(c, st) && st.s.active && st.s.auth == Valid && !st.s.Busy()
  }

  /** From `st` to `r` these replies were given, and no byte of data went either way. */
  ghost predicate Answered(st: St, r: St, codes: seq<nat>) {
    var t := TrafficOf(st.log);
    TrafficOf(r.log) == t.(replies := t.replies + codes)
  }

  lemma AnsweredThen(st: St, u: St, r: St, p: seq<nat>, q: seq<nat>)
    requires Answered(st, u, p) && Answered(u, r, q)
    ensures Answered(st, r, p + q)
  {
    hide TrafficOf;
    assert TrafficOf(st.log).replies + p + q == TrafficOf(st.log).replies + (p + q);
  }

  /** The working directory, the address of the server and the files are as they were. */
  ghost predicate SamePlace(st: St, r: St) {
    r.s.pwd == st.s.pwd && r.s.host == st.s.host && r.w.files == st.w.files
  }

  /** An argument that fits the buffer it is scanned into. */
  predicate Named(name: string) {
    0 < |name| <= PATH_LIMIT && Speakable(H.Some(name))
  }

  /** The file a name stands for. */
  function PathOf(c: Config, s: Session, name: string): string {
    FixedPath(c, Resolve(s, name).path)
  }

  /** What a name stands for depends on the working directory alone. */
  lemma SameNames(c: Config, s: Session, r: Session, name: string)
    requires r.pwd == s.pwd
    ensures Resolve(r, name) == Resolve(s, name) && PathOf(c, r, name) == PathOf(c, s, name)
  {
    hide FixedPath;
  }

  lemma LineQuiet(st: St, text: string)
    ensures TrafficOf(Emit(st, Line(text)).log) == TrafficOf(st.log)
  {
    TrafficEmit(st, Line(text));
  }

  lemma SayAnswers(st: St, code: nat, text: string)
    ensures Answered(st, Emit(st, Reply(code, text)), [code])
  {
    hide TrafficOf;
    TrafficEmit(st, Reply(code, text));
  }

  // ----------------------------------------------------------- announcing a connection

  lemma ReadyHandles(c: Config, st: St)
    requires Ready(c, st)
    ensures !st.s.transfer.file.isValid && !st.s.transfer.dir.isValid
  {
  }

  /** The transfer end of a session without a transfer closes sockets and clears what was left over. */
  lemma EndOfIdle(c: Config, st: St, closing: seq<N.Fault>)
    requires !st.s.Busy() && !st.s.transfer.file.isValid && !st.s.transfer.dir.isValid
    ensures var e := TransferEnd(c, st, closing);
            && SamePlace(st, e) && e.s.marker == st.s.marker && e.w.port == st.w.port && e.w.fds <= st.w.fds
            && e.s.transfer == st.s.transfer.(offset := 0, size := 0)
            && e.s.active == st.s.active && e.s.auth == st.s.auth
            && TrafficOf(e.log) == TrafficOf(st.log)
  {
    TransferEndTraffic(c, st, closing);
    ConnectionShut(st);
    var a := CloseConnection(st);
    hide TrafficOf, CloseConnection;
    assert VfsClose(c, a, closing) == a && DirClose(a) == a;
  }

  lemma ConnectionShut(st: St)
    ensures var e := CloseConnection(st);
            && e.w == st.w.(fds := e.w.fds) && e.w.fds <= st.w.fds
            && e.s == st.s.(dataSock := e.s.dataSock, pasvSock := e.s.pasvSock)
  {
  }

  lemma {:induction false} PrintedText(fs: seq<nat>)
    ensures forall x | x in H.PrintFields(fs) :: H.IsDigit(x) || x == ','
  {
    if fs != [] {
      H.PrintValue(fs[0]);
      PrintedText(fs[1..]);
      hide H.Print, H.IsDigit;
    }
  }

  lemma AddressSpeakable(a: H.Address)
    ensures Speakable(H.Some(H.PassiveText(a)))
  {
    PrintedText(a.host + [a.port / 256, a.port % 256]);
    hide H.PrintFields;
  }

  /** A PORT with a valid address is accepted, and clears what was left over. */
  lemma PortSpoken(c: Config, st: St, a: H.Address, io: Io)
    requires Ready(c, st) && H.ValidAddress(a)
    ensures var r := Step(c, st, Command(Spoken(PORT, H.Some(H.PassiveText(a))), io));
            && Ready(c, r) && r.s.conn.Active? && SamePlace(st, r) && Answered(st, r, [200])
            && r.s.marker == st.s.marker && r.s.transfer == st.s.transfer.(offset := 0, size := 0)
  {
    hide Spoken, Execute, Step, H.ParsePort, H.PassiveText, TransferEnd, Good, TrafficOf, Speakable;
    var arg := H.Some(H.PassiveText(a));
    var l := Emit(st, Line(Spoken(PORT, arg)));
    AddressSpeakable(a);
    ReadyHandles(c, st);
    SpokenStep(c, st, PORT, arg, io);
    StepGood(c, st, Command(Spoken(PORT, arg), io));
    ExecutePort(c, l, Heard(arg, ""), io);
    LineQuiet(st, Spoken(PORT, arg));
    EndOfIdle(c, l, io.closing);
    H.PortUndoesPasv(a, TransferEnd(c, l, io.closing).s.dataAddr, CRLF);
    SayAnswers(TransferEnd(c, l, io.closing), 200, "");
    SameLog(Step(c, st, Command(Spoken(PORT, arg), io)), Say(TransferEnd(c, l, io.closing), 200));
  }

  lemma SameLog(st: St, r: St)
    requires st.log == r.log
    ensures TrafficOf(st.log) == TrafficOf(r.log)
  {
  }

  lemma ExecutePort(c: Config, st: St, data: string, io: Io)
    ensures Execute(c, st, PORT, data, io) == CmdPort(c, st, data, io)
    ensures Execute(c, st, PASV, data, io) == CmdPasv(c, st, io)
  {
    hide CmdPort, CmdPasv;
  }

  /** A PASV that gets its socket is accepted, and clears what was left over. */
  lemma PasvSpoken(c: Config, st: St, io: Io)
    requires Ready(c, st) && Granted(st.w, io.socket) && io.bindOk && io.listenOk
    ensures var r := Step(c, st, Command(Spoken(PASV, H.None), io));
            && Ready(c, r) && r.s.conn.Passive? && SamePlace(st, r) && Answered(st, r, [227])
            && r.s.marker == st.s.marker && r.s.transfer == st.s.transfer.(offset := 0, size := 0)
  {
    hide Spoken, Execute, Step, H.PassiveText, TransferEnd, Good, TrafficOf, ClosePasv;
    var l := Emit(st, Line(Spoken(PASV, H.None)));
    ReadyHandles(c, st);
    SpokenStep(c, st, PASV, H.None, io);
    StepGood(c, st, Command(Spoken(PASV, H.None), io));
    ExecutePort(c, l, "", io);
    LineQuiet(st, Spoken(PASV, H.None));
    EndOfIdle(c, l, io.closing);
    var e := TransferEnd(c, l, io.closing);
    var o := Emit(e, Listener(io.socket, e.w.port));
    TrafficEmit(e, Listener(io.socket, e.w.port));
    var text := H.PassiveText(H.Address(e.s.host, e.w.port));
    SayAnswers(o, 227, text);
    SameLog(Step(c, st, Command(Spoken(PASV, H.None), io)), Emit(o, Reply(227, text)));
  }

  // -------------------------------------------------------------------- calling it off

  /** What ABOR is answered with. */
  function AbortCodes(s: Session): seq<nat> {
    if s.conn.NoConnection? then [226] else if s.Busy() then [426, 226] else [225]
  }

  lemma AbortAnswers(c: Config, st: St, io: Io)
    requires st.s.Busy() ==> !st.s.conn.NoConnection?
    ensures Answered(st, CmdAbor(c, st, io), AbortCodes(st.s)) && !CmdAbor(c, st, io).s.Busy()
  {
    hide TransferEnd, TrafficOf;
    TransferEndTraffic(c, st, io.closing);
    TransferEndIdle(c, st, io.closing);
    var e := TransferEnd(c, st, io.closing);
    TrafficEmit(st, Reply(226, ""));
    TrafficEmit(e, Reply(225, ""));
    TrafficEmit(e, Reply(426, ""));
    TrafficEmit(Say(e, 426), Reply(226, ""));
    assert TrafficOf(e.log).replies + [426] + [226] == TrafficOf(e.log).replies + [426, 226];
  }

  /**
    ABOR ends a running transfer with a 426 for it and a 226 for itself; without one it is
    answered with a single reply.  It needs no login.
  */
  lemma AbortSpoken(c: Config, st: St, io: Io)
    requires Good(c, st) && st.s.active
    ensures var r := Step(c, st, Command(Spoken(ABOR, H.None), io));
            Answered(st, r, AbortCodes(st.s)) && !r.s.Busy()
  {
    BusyConnected(c, st);
    hide Spoken, Execute, Step, CmdAbor, Good, TrafficOf;
    var line := Spoken(ABOR, H.None);
    var l := Emit(st, Line(line));
    SpokenStep(c, st, ABOR, H.None, io);
    ExecuteAbor(c, l, io);
    AbortAnswers(c, l, io);
    LineQuiet(st, line);
  }

  /** The client that calls a transfer off stays logged in, in its directory; no file disappears. */
  lemma AbortStays(c: Config, st: St, io: Io)
    requires Good(c, st) && st.s.active && st.s.auth == Valid
    ensures var r := Step(c, st, Command(Spoken(ABOR, H.None), io));
            && Ready(c, r) && r.s.pwd == st.s.pwd && r.s.marker == st.s.marker
            && forall path | path in st.w.files :: path in r.w.files
  {
    hide Spoken, Execute, Step, CmdAbor, Good;
    var l := Emit(st, Line(Spoken(ABOR, H.None)));
    SpokenStep(c, st, ABOR, H.None, io);
    StepGood(c, st, Command(Spoken(ABOR, H.None), io));
    BusyConnected(c, st);
    ExecuteAbor(c, l, io);
    AbortAnswers(c, l, io);
    AbortKeeps(c, l, io);
  }

  lemma AbortKeeps(c: Config, st: St, io: Io)
    ensures var r := CmdAbor(c, st, io);
            && r.s.pwd == st.s.pwd && r.s.marker == st.s.marker
            && r.s.active == st.s.active && r.s.auth == st.s.auth
            && forall path | path in st.w.files :: path in r.w.files
  {
    hide TransferEnd;
    EndKept(c, st, io.closing);
  }

  lemma EndKept(c: Config, st: St, closing: seq<N.Fault>)
    ensures var e := TransferEnd(c, st, closing);
            && e.s.pwd == st.s.pwd && e.s.marker == st.s.marker
            && e.s.active == st.s.active && e.s.auth == st.s.auth
            && forall path | path in st.w.files :: path in e.w.files
  {
    hide CloseConnection, N.Close;
    ConnectionShut(st);
  }

  lemma BusyConnected(c: Config, st: St)
    requires Good(c, st)
    ensures st.s.Busy() ==> !st.s.conn.NoConnection?
  {
  }

  lemma ExecuteAbor(c: Config, st: St, io: Io)
    ensures Execute(c, st, ABOR, "", io) == CmdAbor(c, st, io)
  {
    hide CmdAbor;
  }

  // ------------------------------------------------------------- asking for a transfer

  lemma RetrExecutes(c: Config, st: St, data: string, io: Io)
    ensures Execute(c, st, RETR, data, io) == CmdRetr(c, st, data, io)
  {
    hide CmdRetr;
  }

  /** The mode of a listing. */
  function ListingMode(v: Verb): Mode {
    if v == NLST then Nlst else List
  }

  lemma ListExecutes(c: Config, st: St, v: Verb, data: string, io: Io)
    requires v == LIST || v == NLST
    ensures Execute(c, st, v, data, io) == CmdList(c, st, data, ListingMode(v), io)
  {
    hide CmdList;
  }

  lemma StorExecutes(c: Config, st: St, data: string, io: Io)
    ensures Execute(c, st, STOR, data, io) == CmdStor(c, st, data, io)
    ensures Execute(c, st, APPE, data, io) == CmdStor(c, st.(s := st.s.(marker := -1)), data, io)
  {
    hide CmdStor;
  }

  /** A file can be opened and measured, and put to the restart marker if there is one. */
  predicate Readable(s: Session, io: Io) {
    io.faults == [] && io.fstatOk && (s.marker > 0 ==> io.seekOk)
  }

  /** No data connection came about; the socket that was to be connected is still the session's. */
  ghost predicate Dangling(st: St, r: St, io: Io) {
    !st.s.conn.NoConnection? && Granted(st.w, io.socket) ==>
      r.s.dataSock == io.socket && r.w.fds == st.w.fds + {io.socket}
  }

  /**
    What a RETR leaves behind that got no connection: the size of its file, where it was to
    start, and a socket that has not been closed.
  */
  ghost predicate Unconnected(st: St, r: St, path: string, io: Io) {
    var t, u := st.s.transfer, r.s.transfer;
    && SamePlace(st, r) && r.s.conn == st.s.conn && r.s.marker == (if st.s.marker > 0 then 0 else st.s.marker)
    && u.size == |Content(st.w.files, path)| && u.offset == Start(st.s) && u.listBuf == t.listBuf
    && Dangling(st, r, io)
  }

  /** Without a data connection the download is refused after its 150. */
  lemma DataRefused(st: St, io: Io)
    requires !Reachable(st, io)
    ensures var d := DataOpen(st, io);
            && !d.ok && d.st.s == st.s.(dataSock := d.st.s.dataSock) && d.st.w.files == st.w.files
            && Dangling(st, d.st, io) && Answered(st, Say(d.st, 425), [150, 425])
  {
    DataOpenTraffic(st, io);
    var d := DataOpen(st, io).st;
    SayAnswers(d, 425, "");
    hide TrafficOf, Peer;
  }

  lemma RetrRefused(c: Config, st: St, data: string, io: Io)
    requires !st.s.Busy() && !Reachable(st, io) && Readable(st.s, io)
    requires ScanLine(data, PATH_LIMIT) != "" && Resolve(st.s, ScanLine(data, PATH_LIMIT)).ok
    requires PathOf(c, st.s, ScanLine(data, PATH_LIMIT)) in st.w.files
    ensures var r := CmdRetr(c, st, data, io);
            && Unconnected(st, r, PathOf(c, st.s, ScanLine(data, PATH_LIMIT)), io) && Answered(st, r, [150, 425])
            && r.s.active == st.s.active && r.s.auth == st.s.auth && !r.s.Busy()
  {
    var path := PathOf(c, st.s, ScanLine(data, PATH_LIMIT));
    OpenWorks(st, path, N.READ);
    OpenForReading(st, path, []);
    VfsOpenTraffic(st, path, N.READ, []);
    hide VfsOpen, ScanLine, Resolve, FixedPath;
    var o := VfsOpen(st, path, N.READ, []).st;
    RetrFromRefused(c, o, io);
    hide RetrFrom, TrafficOf;
    assert CmdRetr(c, st, data, io) == RetrFrom(c, o, io);
  }

  lemma RetrFromRefused(c: Config, st: St, io: Io)
    requires !Reachable(st, io) && Readable(st.s, io)
    requires st.s.transfer.file == Handle(st.s.transfer.file.path, true, 0, 0, [])
             && st.s.transfer.file.path in st.w.files
    ensures var r := RetrFrom(c, st, io);
            && Unconnected(st, r, st.s.transfer.file.path, io) && Answered(st, r, [150, 425])
            && r.s.active == st.s.active && r.s.auth == st.s.auth && r.s.transfer.mode == st.s.transfer.mode
  {
    hide DataOpen, TrafficOf, VfsClose, Content;
    var p := Positioned(st, io).st;
    DataRefused(p, io);
    var d := DataOpen(p, io).st;
    ReaderCloses(c, Say(d, 425), io.closing);
  }

  /** Closing a file that was only read changes no file. */
  lemma ReaderCloses(c: Config, st: St, closing: seq<N.Fault>)
    requires st.s.transfer.file.buf == [] && st.s.transfer.file.chunkSize == 0 && st.s.transfer.file.path in st.w.files
    ensures var r := VfsClose(c, st, closing);
            && r.w == st.w && r.s == st.s.(transfer := st.s.transfer.(file := r.s.transfer.file))
            && TrafficOf(r.log) == TrafficOf(st.log) && !r.s.transfer.file.isValid
  {
    HandlesTraffic(c, st, closing);
    TrafficEmit(st, FileClosed);
    hide TrafficOf;
    N.CloseReader(c.build, Mounted(st.w, st.s.transfer.file, closing));
    assert st.w.files[st.s.transfer.file.path := st.w.files[st.s.transfer.file.path]] == st.w.files;
  }

  /** A RETR of a file that is there, without a data connection to be had. */
  lemma RetrSpoken(c: Config, st: St, name: string, io: Io)
    requires Ready(c, st) && Named(name) && Resolve(st.s, name).ok && PathOf(c, st.s, name) in st.w.files
    requires Readable(st.s, io) && !Reachable(st, io)
    ensures var r := Step(c, st, Command(Spoken(RETR, H.Some(name)), io));
            Ready(c, r) && Unconnected(st, r, PathOf(c, st.s, name), io) && Answered(st, r, [150, 425])
  {
    hide Spoken, Execute, Step, CmdRetr, Good, TrafficOf, Speakable, Resolve, FixedPath, ScanLine;
    var line := Spoken(RETR, H.Some(name));
    var l := Emit(st, Line(line));
    SpokenStep(c, st, RETR, H.Some(name), io);
    StepGood(c, st, Command(line, io));
    ScanSpoken(name, PATH_LIMIT);
    RetrExecutes(c, l, name + CRLF, io);
    RetrRefused(c, l, name + CRLF, io);
    LineQuiet(st, line);
  }

  /** A directory can be opened, or the devices are what is to be listed. */
  predicate Listable(c: Config, s: Session, io: Io) {
    DeviceList(c, s.pwd) || (io.entry.IsDir? && io.dirOk)
  }

  /** A listing of the working directory has begun. */
  ghost predicate ListBegun(c: Config, st: St, r: St, mode: Mode, io: Io) {
    && r.s.transfer.mode == mode && (r.s.transfer.dir.isValid || DeviceList(c, r.s.tempPath))
    && (!DeviceList(c, st.s.pwd) ==> r.s.tempPath == FixedPath(c, st.s.pwd))
    && r.s.dataSock == io.socket && r.w.fds == st.w.fds + {io.socket}
    && Answered(st, r, [150])
  }

  /** A LIST or NLST of the working directory that gets its connection. */
  lemma ListStarts(c: Config, st: St, mode: Mode, io: Io)
    requires !st.s.Busy() && Reachable(st, io) && Listable(c, st.s, io) && (mode == List || mode == Nlst)
    requires !st.s.transfer.file.isValid && !st.s.transfer.dir.isValid
    ensures ListBegun(c, st, CmdList(c, st, "", mode, io), mode, io)
  {
    hide ScanLine, FixedPath, TrafficOf;
    assert ScanLine("", PATH_LIMIT) == "" by { ScanNothing(); }
    var path := st.s.pwd;
    var st1 := st.(s := st.s.(tempPath := path));
    if DeviceList(c, path) {
      ReachableOpens(st1, io);
      DataOpenTraffic(st1, io);
      hide DataOpen;
    } else {
      var st2 := st1.(s := st1.s.(tempPath := FixedPath(c, path)));
      var o := Emit(SetTransfer(st2, st2.s.transfer.(dir := Dir(true, io.entries))), DirOpened(st2.s.tempPath));
      TrafficEmit(SetTransfer(st2, st2.s.transfer.(dir := Dir(true, io.entries))), DirOpened(st2.s.tempPath));
      ReachableOpens(o, io);
      DataOpenTraffic(o, io);
      hide DataOpen, DeviceList;
    }
  }

  lemma ScanNothing()
    ensures ScanLine("", PATH_LIMIT) == ""
  {
  }

  lemma ListSpoken(c: Config, st: St, v: Verb, io: Io)
    requires Ready(c, st) && Reachable(st, io) && Listable(c, st.s, io) && (v == LIST || v == NLST)
    ensures var r := Step(c, st, Command(Spoken(v, H.None), io));
            Good(c, r) && ListBegun(c, st, r, ListingMode(v), io)
  {
    hide Spoken, Execute, Step, CmdList, Good, TrafficOf, DeviceList, FixedPath;
    var line := Spoken(v, H.None);
    var l := Emit(st, Line(line));
    SpokenStep(c, st, v, H.None, io);
    StepGood(c, st, Command(line, io));
    ReadyHandles(c, st);
    ListExecutes(c, l, v, "", io);
    ListStarts(c, l, ListingMode(v), io);
    LineQuiet(st, line);
  }

  /** An upload has begun with these contents and has its connection. */
  ghost predicate Begun(c: Config, st: St, r: St, path: string, base: seq<byte>) {
    && Good(c, r) && Sturdy(c, r) && StoredAt(r) == base && Content(r.w.files, path) == base
    && r.s.transfer.file == Handle(path, true, |base|, |base|, []) && r.s.transfer.offset == st.s.transfer.offset
    && r.s.active && r.s.auth == Valid && r.s.pwd == st.s.pwd && r.s.host == st.s.host
    && (st.s.marker == 0 ==> r.s.marker == 0)
    && Answered(st, r, [150])
  }

  /** STOR starts from nothing, APPE from the contents of the file, and so does a STOR after a bad APPE. */
  lemma StorSpoken(c: Config, st: St, v: Verb, name: string, io: Io)
    requires Ready(c, st) && Named(name) && Resolve(st.s, name).ok && Reachable(st, io) && io.faults == []
    requires v == STOR || v == APPE
    ensures var path := PathOf(c, st.s, name);
            Begun(c, st, Step(c, st, Command(Spoken(v, H.Some(name)), io)), path,
                  if v == APPE || st.s.marker == -1 then Content(st.w.files, path) else [])
  {
    hide Spoken, Execute, Step, CmdStor, Good, TrafficOf, Speakable, Resolve, FixedPath, ScanLine, Sturdy, Storing;
    hide StoredAt;
    var line := Spoken(v, H.Some(name));
    var l := Emit(st, Line(line));
    var u := if v == APPE then l.(s := l.s.(marker := -1)) else l;
    SpokenStep(c, st, v, H.Some(name), io);
    StepGood(c, st, Command(line, io));
    ScanSpoken(name, PATH_LIMIT);
    StorExecutes(c, l, name + CRLF, io);
    MarkerAside(l.s, -1, name);
    StorStartsUpload(c, u, name + CRLF, io);
    StorStarts(c, u, name + CRLF, io);
    StorSturdy(c, u, name + CRLF, io);
    StorKeeps(c, u, name + CRLF, io);
    LineQuiet(st, line);
  }

  lemma MarkerAside(s: Session, m: int, name: string)
    ensures Resolve(s.(marker := m), name) == Resolve(s, name)
  {
  }

  /** How an upload that starts finds its file, and what it leaves alone. */
  lemma StorKeeps(c: Config, st: St, data: string, io: Io)
    requires CmdStor(c, st, data, io).s.transfer.mode == Stor && !st.s.Busy()
    ensures var r := CmdStor(c, st, data, io);
            var path := PathOf(c, st.s, ScanLine(data, PATH_LIMIT));
            var base := if st.s.marker == -1 then Content(st.w.files, path) else [];
            && r.s.transfer.offset == st.s.transfer.offset
            && r.s.transfer.file == Handle(path, true, |base|, |base|, []) && Content(r.w.files, path) == base
            && r.s.active == st.s.active && r.s.auth == st.s.auth && r.s.pwd == st.s.pwd && r.s.host == st.s.host
            && r.s.marker == (if st.s.marker == -1 then 0 else st.s.marker)
  {
    var append := st.s.marker == -1;
    var u := if append then st.(s := st.s.(marker := 0)) else st;
    var path := PathOf(c, u.s, ScanLine(data, PATH_LIMIT));
    var mode := if append then N.APPEND else N.WRITE;
    MarkerAside(st.s, 0, ScanLine(data, PATH_LIMIT));
    OpenKeeps(c, u, path, mode, io.faults);
    OpenedFile(u, path, mode, io.faults);
    var o := VfsOpen(u, path, mode, io.faults).st;
    DataOpenTraffic(o, io);
    var d := DataOpen(o, io).st;
    OpenKeeps(c, Say(d, 425), path, mode, io.closing);
    hide VfsOpen, VfsClose, DataOpen, TrafficOf, Resolve, ScanLine, FixedPath;
  }

  lemma OpenKeeps(c: Config, st: St, path: string, mode: N.OpenMode, faults: seq<N.Fault>)
    ensures var r := VfsOpen(st, path, mode, faults).st.s;
            r == st.s.(transfer := st.s.transfer.(file := r.transfer.file))
    ensures var r := VfsClose(c, st, faults).s; r == st.s.(transfer := st.s.transfer.(file := r.transfer.file))
  {
  }

  /** A file opened for writing: empty, or as it was with the handle at its end. */
  lemma OpenedFile(st: St, path: string, mode: N.OpenMode, faults: seq<N.Fault>)
    requires mode != N.READ && VfsOpen(st, path, mode, faults).ok
    ensures var o := VfsOpen(st, path, mode, faults).st;
            var base := if mode == N.APPEND then Content(st.w.files, path) else [];
            o.s.transfer.file == Handle(path, true, |base|, |base|, []) && Content(o.w.files, path) == base
  {
  }

  /** A RETR of a file that is there, with a data connection to be had. */
  lemma RetrSpokenStarts(c: Config, st: St, name: string, io: Io)
    requires Ready(c, st) && Named(name) && Resolve(st.s, name).ok && PathOf(c, st.s, name) in st.w.files
    requires Readable(st.s, io) && Reachable(st, io)
    ensures var r := Step(c, st, Command(Spoken(RETR, H.Some(name)), io));
            && Good(c, r) && r.s.transfer.mode == Retr && r.s.transfer.file.path == PathOf(c, st.s, name)
            && Orderly(c, r) && Owed(c, r) == Tail(st.w.files[PathOf(c, st.s, name)], Start(st.s))
            && Answered(st, r, [150])
  {
    hide Spoken, Execute, Step, CmdRetr, Good, TrafficOf, Speakable, Resolve, FixedPath, ScanLine, Orderly, Owed;
    var line := Spoken(RETR, H.Some(name));
    var l := Emit(st, Line(line));
    SpokenStep(c, st, RETR, H.Some(name), io);
    StepGood(c, st, Command(line, io));
    ScanSpoken(name, PATH_LIMIT);
    ReadyHandles(c, st);
    RetrExecutes(c, l, name + CRLF, io);
    RetrStartsDownload(c, l, name + CRLF, io);
    RetrOwes(c, l, name + CRLF, io);
    LineQuiet(st, line);
  }
}
