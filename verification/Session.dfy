/**
  One control session as a value, and every step it can take (src/ftpsrv.c).

  A step takes the session, the shared world (files, open descriptors, port counter) and
  the answers the environment gives to the calls the step makes, and yields the new
  session and world.  Everything a session does to the outside is appended to its log.
*/
module Session {
  import opened CText
  import P = Pathname
  import N = NxFile
  import H = HostPort

  const FILE_BUFFER_SIZE: nat := 0x1_0000
  const LIST_BUF_SIZE: nat := 1024
  const NAME_SIZE: nat := 127

  // ---------------------------------------------------------------- configuration

  /** A device's mount name: at most 31 characters. */
  type Mount = m: string | 0 < |m| < 32 && NUL !in m witness "sd"

  datatype Config = Config(anon: bool, user: string, pass: string,
                           devices: seq<Mount>, build: N.Build)

  // --------------------------------------------------------------------- the world

  type Files = map<string, seq<byte>>

  /** What all sessions share: the files, the open descriptors, the next passive port. */
  datatype World = World(files: Files, fds: set<int>, port: nat)

  function Content(files: Files, path: string): seq<byte> {
    if path in files then files[path] else []
  }

  // ------------------------------------------------------------------- the session

  datatype AuthMode = NoAuth | NeedPass | Valid
  datatype DataConnection = NoConnection | Active | Passive
  datatype Mode = Idle | Retr | Stor | List | Nlst

  /** The file handle inside a session; `path` says which file it has open. */
  datatype Handle = Handle(path: string, isValid: bool, off: nat, chunkSize: nat, buf: N.Buffer)

  /** An entry of a directory: whether it can be examined, and its long listing line. */
  datatype DirEntry = DirEntry(name: CString, statOk: bool, line: CString)

  /** The directory handle; `entries` are those readdir has yet to return. */
  datatype Dir = Dir(isValid: bool, entries: seq<DirEntry>)

  /** The buffer a line of a listing is rendered into; what is not listed of it is NUL. */
  type ListBuf = b: seq<byte> | |b| <= LIST_BUF_SIZE witness []

  datatype Transfer = Transfer(mode: Mode, offset: nat, size: nat, index: nat,
                               file: Handle, dir: Dir, listBuf: ListBuf)

  datatype Session = Session(
    active: bool,
    auth: AuthMode,
    conn: DataConnection,
    transfer: Transfer,
    controlSock: int,
    dataSock: int,
    pasvSock: int,
    host: seq<nat>,
    dataAddr: H.Address,
    marker: int,
    pwd: string,
    tempPath: string)
  {
    predicate Busy() {
      transfer.mode != Idle
    }
  }

  predicate Listing(s: Session) {
    s.transfer.mode == List || s.transfer.mode == Nlst
  }

  const NO_FILE: Handle := Handle("", false, 0, 0, [])
  const NO_TRANSFER: Transfer := Transfer(Idle, 0, 0, 0, NO_FILE, Dir(false, []), [])
  const NO_ADDRESS: H.Address := H.Address([0, 0, 0, 0], 0)

  /** An all-zero slot of the session table. */
  const BLANK: Session :=
    Session(false, NoAuth, NoConnection, NO_TRANSFER, 0, 0, 0, NO_ADDRESS.host, NO_ADDRESS, 0, "", "")

  // ----------------------------------------------------------------------- effects

  /** What a session takes from or does to the outside world. */
  datatype Effect =
    | Accepted(fd: int)
    | Line(text: string)
    | Reply(code: nat, text: string)
    | Sent(data: seq<byte>)
    | Received(data: seq<byte>)
    | FileOpened(path: string, mode: N.OpenMode)
    | FileClosed
    | DirOpened(path: string)
    | DirClosed
    | DataSocket(fd: int, peer: H.Option<H.Address>)
    | Listener(fd: int, port: nat)
    | SocketClosed(fd: int)
    | TreeChanged(op: TreeOp, path: string, to: string)
    | HungUp

  /** Changes to the file tree other than through an open file; `to` matters to a rename. */
  datatype TreeOp = Unlink | Rmdir | Mkdir | Rename

  /** A session in its world, with everything its slot has done so far. */
  datatype St = St(s: Session, w: World, log: seq<Effect>)

  datatype Attempt = Attempt(st: St, ok: bool)

  // ------------------------------------------------------- the environment's answers

  datatype StatAnswer = Missing | IsDir | IsFile

  /** send: so many bytes went out (at least one), it would block, or it failed. */
  datatype SendAnswer = Took(count: nat) | SendBlocks | SendFails

  /** recv on the data connection; no bytes at all is the end of the stream. */
  datatype RecvAnswer = Got(data: seq<byte>) | RecvBlocks | RecvFails

  /**
    Answers to the calls one step may make.  A descriptor is granted only when it is
    positive and not open yet; any other number stands for a refusal.
  */
  datatype Io = Io(
    faults: seq<N.Fault>,
    closing: seq<N.Fault>,
    fstatOk: bool,
    seekOk: bool,
    entry: StatAnswer,
    line: CString,
    dirOk: bool,
    entries: seq<DirEntry>,
    vfsOk: bool,
    tree: Files,
    socket: int,
    connectOk: bool,
    bindOk: bool,
    listenOk: bool,
    host: H.Host,
    read: N.ReadAnswer,
    sends: seq<SendAnswer>,
    recv: RecvAnswer)

  predicate Granted(w: World, fd: int) {
    fd > 0 && fd !in w.fds
  }

  function NextSend(sends: seq<SendAnswer>): SendAnswer {
    if sends == [] then SendBlocks else sends[0]
  }

  function RestSends(sends: seq<SendAnswer>): seq<SendAnswer> {
    if sends == [] then [] else sends[1..]
  }

  /** A send of `k` > 0 bytes that goes through takes between 1 and `k` of them. */
  function SendCount(count: nat, k: nat): (n: nat)
    requires k > 0
    ensures 1 <= n <= k
  {
    if count == 0 then 1 else if count < k then count else k
  }

  // ---------------------------------------------------------------- primitive steps

  function Emit(st: St, e: Effect): St {
    st.(log := st.log + [e])
  }

  function Say(st: St, code: nat): St {
    Emit(st, Reply(code, ""))
  }

  function SetTransfer(st: St, t: Transfer): St {
    st.(s := st.s.(transfer := t))
  }

  function CloseFd(st: St, fd: int): St {
    Emit(st.(w := st.w.(fds := st.w.fds - {fd})), SocketClosed(fd))
  }

  function CloseControl(st: St): St {
    if st.s.controlSock > 0
    then CloseFd(st, st.s.controlSock).(s := st.s.(controlSock := -1))
    else st
  }

  function CloseData(st: St): St {
    if st.s.dataSock > 0
    then CloseFd(st, st.s.dataSock).(s := st.s.(dataSock := -1))
    else st
  }

  function ClosePasv(st: St): St {
    if st.s.pasvSock > 0
    then CloseFd(st, st.s.pasvSock).(s := st.s.(pasvSock := -1))
    else st
  }

  /** The handle `h` together with the file it stands for. */
  function Mounted(w: World, h: Handle, faults: seq<N.Fault>): N.Vfs {
    N.Vfs(Content(w.files, h.path), faults, h.isValid, h.off, h.chunkSize, h.buf)
  }

  function HandleOf(path: string, v: N.Vfs): Handle {
    Handle(path, v.isValid, v.off, v.chunkSize, v.buf)
  }

  /** The handle's new state goes back into the session, the file's into the world. */
  function Unmount(st: St, path: string, v: N.Vfs): St {
    var files := if path in st.w.files then st.w.files[path := v.data] else st.w.files;
    st.(s := st.s.(transfer := st.s.transfer.(file := HandleOf(path, v))), w := st.w.(files := files))
  }

  function VfsOpen(st: St, path: string, mode: N.OpenMode, faults: seq<N.Fault>): Attempt {
    var present := path in st.w.files;
    var made := !present && mode != N.READ && N.Next(faults).Pass?;
    var w := if made then st.w.(files := st.w.files[path := []]) else st.w;
    var h := st.s.transfer.file.(path := path);
    var r := N.Open(Mounted(st.w, h, faults), present, mode);
    var st' := Unmount(st.(w := w), path, r.v);
    if r.ok then Attempt(Emit(st', FileOpened(path, mode)), true) else Attempt(st', false)
  }

  function VfsClose(c: Config, st: St, faults: seq<N.Fault>): St {
    var h := st.s.transfer.file;
    if !h.isValid then st
    else Emit(Unmount(st, h.path, N.Close(c.build, Mounted(st.w, h, faults))), FileClosed)
  }

  function DirClose(st: St): St {
    if !st.s.transfer.dir.isValid then st
    else Emit(st.(s := st.s.(transfer := st.s.transfer.(dir := st.s.transfer.dir.(isValid := false)))), DirClosed)
  }

  /** The address an active data connection goes to; a passive one is accepted from anywhere. */
  function Peer(s: Session): H.Option<H.Address> {
    if s.conn.Active? then H.Some(s.dataAddr) else H.None
  }

  /** ftp_data_open: the 150 reply, then a connection to or from the client. */
  function DataOpen(st: St, io: Io): Attempt {
    var st1 := Say(st, 150);
    if st1.s.conn.NoConnection? then Attempt(st1, false)
    else if !Granted(st1.w, io.socket) then Attempt(st1.(s := st1.s.(dataSock := -1)), false)
    else
      var st2 := Emit(st1.(s := st1.s.(dataSock := io.socket), w := st1.w.(fds := st1.w.fds + {io.socket})),
                      DataSocket(io.socket, Peer(st1.s)));
      Attempt(st2, st1.s.conn.Passive? || io.connectOk)
  }

  /** The sockets that ftp_data_transfer_end closes. */
  function CloseConnection(st: St): St {
    match st.s.conn
    case NoConnection => st
    case Active => CloseData(st)
    case Passive => ClosePasv(CloseData(st))
  }

  /** ftp_data_transfer_end */
  function TransferEnd(c: Config, st: St, closing: seq<N.Fault>): St {
    var e := DirClose(VfsClose(c, CloseConnection(st), closing));
    e.(s := e.s.(tempPath := "",
                 transfer := e.s.transfer.(offset := 0, size := 0, mode := Idle),
                 conn := NoConnection))
  }

  // ---------------------------------------------------------------- the command table

  datatype Verb =
    | USER | PASS | ACCT | CWD | CDUP | SMNT | REIN | QUIT
    | PORT | PASV | TYPE | STRU | MODE
    | RETR | STOR | APPE | ALLO | REST | RNFR | RNTO | ABOR | DELE | RMD | MKD | PWD
    | LIST | NLST | SITE | SYST | STAT | HELP | NOOP
    | FEAT | SIZE

  datatype ArgRule = NoArg | OptionalArg | RequiredArg

  const VERBS: seq<Verb> := [
    USER, PASS, ACCT, CWD, CDUP, SMNT, REIN, QUIT,
    PORT, PASV, TYPE, STRU, MODE,
    RETR, STOR, APPE, ALLO, REST, RNFR, RNTO, ABOR, DELE, RMD, MKD, PWD,
    LIST, NLST, SITE, SYST, STAT, HELP, NOOP,
    FEAT, SIZE]

  function Name(v: Verb): (n: string)
    ensures 3 <= |n| <= 4
  {
    match v
    case USER => "USER" case PASS => "PASS" case ACCT => "ACCT" case CWD => "CWD"
    case CDUP => "CDUP" case SMNT => "SMNT" case REIN => "REIN" case QUIT => "QUIT"
    case PORT => "PORT" case PASV => "PASV" case TYPE => "TYPE" case STRU => "STRU"
    case MODE => "MODE" case RETR => "RETR" case STOR => "STOR" case APPE => "APPE"
    case ALLO => "ALLO" case REST => "REST" case RNFR => "RNFR" case RNTO => "RNTO"
    case ABOR => "ABOR" case DELE => "DELE" case RMD => "RMD" case MKD => "MKD"
    case PWD => "PWD" case LIST => "LIST" case NLST => "NLST" case SITE => "SITE"
    case SYST => "SYST" case STAT => "STAT" case HELP => "HELP" case NOOP => "NOOP"
    case FEAT => "FEAT" case SIZE => "SIZE"
  }

  predicate NeedsAuth(v: Verb) {
    !(v.USER? || v.PASS? || v.ACCT? || v.REIN? || v.QUIT? || v.ABOR? || v.SYST? || v.HELP? || v.NOOP? || v.FEAT?)
  }

  function Args(v: Verb): ArgRule {
    match v
    case CDUP | REIN | QUIT | PASV | ABOR | PWD | SYST | NOOP | FEAT => NoArg
    case LIST | NLST | STAT | HELP => OptionalArg
    case _ => RequiredArg
  }

  /** The first verb of the table from `i` on whose name the text starts with. */
  function Lookup(name: string, i: nat): (r: H.Option<Verb>)
    requires i <= |VERBS|
    ensures r.Some? ==> StartsWithNoCase(name, Name(r.value))
    decreases |VERBS| - i
  {
    if i == |VERBS| then H.None
    else if StartsWithNoCase(name, Name(VERBS[i])) then H.Some(VERBS[i])
    else Lookup(name, i + 1)
  }

  /** The verb a control line begins with. */
  function VerbOf(text: string): H.Option<Verb> {
    Lookup(ScanLine(text, 4), 0)
  }

  /** `text[..len]` is a line: it ends with the first CRLF of `text`. */
  ghost predicate IsLine(text: string, len: nat) {
    FindCrlf(text) < |text| && len == FindCrlf(text) + 2
  }

  /** The name of the verb lies inside its line, so what is left of the line has a length. */
  lemma VerbInsideLine(text: string, len: nat)
    requires IsLine(text, len)
    requires VerbOf(text).Some?
    ensures |Name(VerbOf(text).value)| <= len - 2
  {
    var n := LineSpan(text, 4);
    assert EndsScan(text[len - 2]);
  }

  /** A command's argument: the text after the first space behind its name, if the line has one. */
  function ArgOf(text: string, len: nat, v: Verb): H.Option<string>
    requires |Name(v)| <= len <= |text|
  {
    var rest := text[|Name(v)|..len];
    var k := IndexOf(rest, ' ');
    if k < |rest| then H.Some(text[|Name(v)| + k + 1..]) else H.None
  }

  // --------------------------------------------------------------------- the handlers

  const PATH_LIMIT: nat := P.PATHNAME_SIZE - 1

  function CmdUser(c: Config, st: St, data: string): St {
    var username := ScanLine(data, NAME_SIZE);
    if username == "" then Say(st, 501)
    else if c.anon then
      if username != "anonymous" then Say(st, 530)
      else Say(st.(s := st.s.(auth := Valid)), 230)
    else if username != c.user then Say(st, 530)
    else Say(st.(s := st.s.(auth := NeedPass)), 331)
  }

  function CmdPass(c: Config, st: St, data: string): St {
    var password := ScanLine(data, NAME_SIZE);
    if password == "" then Say(st, 501)
    else if st.s.auth != NeedPass then Say(st, 503)
    else if password != c.pass then Say(st, 530)
    else Say(st.(s := st.s.(auth := Valid)), 230)
  }

  /** Where a path argument leads; an idle slot has no directory to start from. */
  function Resolve(s: Session, arg: string): P.Built {
    if s.pwd == "" then P.Built(false, "") else P.BuildFullpath(s.pwd, arg)
  }

  function SetDirectory(st: St, arg: string, io: Io): St {
    var b := Resolve(st.s, arg);
    if b.ok && (b.path == "/" || io.entry.IsDir?)
    then Say(st.(s := st.s.(pwd := b.path)), 200)
    else Say(st, 550)
  }

  function CmdCwd(st: St, data: string, io: Io): St {
    var arg := ScanLine(data, PATH_LIMIT);
    if arg == "" then Say(st, 501) else SetDirectory(st, arg, io)
  }

  function CmdCdup(st: St, io: Io): St {
    if st.s.pwd == "/" then Say(st, 550) else SetDirectory(st, "..", io)
  }

  function CmdPort(c: Config, st: St, data: string, io: Io): St {
    var e := TransferEnd(c, st, io.closing);
    match H.ParsePort(data, e.s.dataAddr)
    case None => Say(e, 501)
    case Some(a) => Say(e.(s := e.s.(dataAddr := a, conn := Active)), 200)
  }

  function CmdPasv(c: Config, st: St, io: Io): St {
    PasvFrom(TransferEnd(c, st, io.closing), io)
  }

  /** The part of PASV after the transfer end. */
  function PasvFrom(e: St, io: Io): St {
    if !Granted(e.w, io.socket) then Say(e.(s := e.s.(pasvSock := -1)), 501)
    else
      var port := e.w.port;
      var l := Emit(e.(s := e.s.(pasvSock := io.socket),
                       w := e.w.(fds := e.w.fds + {io.socket}, port := H.NextPort(port))),
                    Listener(io.socket, port));
      if io.bindOk && io.listenOk
      then Emit(l.(s := l.s.(conn := Passive)), Reply(227, H.PassiveText(H.Address(l.s.host, port))))
      else ClosePasv(Say(l, 501))
  }

  /** TYPE, STRU and MODE, as far as their replies go. */
  function CmdCode(st: St, data: string, known: set<char>): St {
    if data == "" then Say(st, 501)
    else if data[0] in known then Say(st, 200)
    else Say(st, 504)
  }

  function FixedPath(c: Config, path: string): string {
    P.FixForDevice(path, c.devices != [])
  }

  function CmdRetr(c: Config, st: St, data: string, io: Io): St {
    var arg := ScanLine(data, PATH_LIMIT);
    var b := Resolve(st.s, arg);
    if arg == "" then Say(st, 501)
    else if !b.ok then Say(st, 550)
    else
      var o := VfsOpen(st, FixedPath(c, b.path), N.READ, io.faults);
      if !o.ok then Say(o.st, 550)
      else if !io.fstatOk then VfsClose(c, Say(o.st, 550), io.closing)
      else RetrFrom(c, o.st, io)
  }

  /** The part of RETR after the file has been opened and measured. */
  function RetrFrom(c: Config, st: St, io: Io): St {
    var p := Positioned(st, io);
    if !p.ok then VfsClose(c, Say(p.st, 550), io.closing)
    else
      var d := DataOpen(p.st, io);
      if !d.ok then VfsClose(c, Say(d.st, 425), io.closing)
      else SetTransfer(d.st, d.st.s.transfer.(mode := Retr))
  }

  /** The start of a download: offset 0, or the restart marker, which is used up. */
  function Positioned(st: St, io: Io): Attempt {
    var t := st.s.transfer.(offset := 0, size := |Content(st.w.files, st.s.transfer.file.path)|);
    if st.s.marker <= 0 then Attempt(st.(s := st.s.(transfer := t)), true)
    else
      var u := t.(offset := st.s.marker,
                  file := if io.seekOk then t.file.(off := st.s.marker) else t.file);
      Attempt(st.(s := st.s.(transfer := u, marker := 0)), io.seekOk)
  }

  function CmdStor(c: Config, st0: St, data: string, io: Io): St {
    var arg := ScanLine(data, PATH_LIMIT);
    if arg == "" then Say(st0, 501)
    else
      var append := st0.s.marker == -1;
      var st := if append then st0.(s := st0.s.(marker := 0)) else st0;
      var b := Resolve(st.s, arg);
      if !b.ok then Say(st, 551)
      else
        var o := VfsOpen(st, FixedPath(c, b.path), if append then N.APPEND else N.WRITE, io.faults);
        if !o.ok then Say(o.st, 551) else StorFrom(c, o.st, io)
  }

  /** The part of STOR after the file has been opened. */
  function StorFrom(c: Config, st: St, io: Io): St {
    var d := DataOpen(st, io);
    if !d.ok then VfsClose(c, Say(d.st, 425), io.closing) else SetTransfer(d.st, d.st.s.transfer.(mode := Stor))
  }

  function CmdAppe(c: Config, st: St, data: string, io: Io): St {
    CmdStor(c, st.(s := st.s.(marker := -1)), data, io)
  }

  function CmdRest(st: St, data: string): St {
    match H.ScanInt(data)
    case None => Say(st, 501)
    case Some(m) => if m < 0 then Say(st, 501) else Say(st.(s := st.s.(marker := m)), 350)
  }

  function CmdRnfr(st: St, data: string): St {
    var arg := ScanLine(data, PATH_LIMIT);
    if arg == "" then Say(st, 501)
    else
      var b := Resolve(st.s, arg);
      Say(st.(s := st.s.(tempPath := b.path)), if b.ok then 350 else 550)
  }

  /** A rename from the remembered path to the argument, which forgets the path in any case. */
  function CmdRnto(st: St, data: string, io: Io): St {
    var arg := ScanLine(data, PATH_LIMIT);
    var b := Resolve(st.s, arg);
    var r :=
      if arg == "" then Say(st, 501)
      else if st.s.tempPath == "" then Say(st, 503)
      else if !b.ok || !io.vfsOk then Say(st, 553)
      else Say(ChangeTree(st, io, Rename, st.s.tempPath, b.path), 250);
    r.(s := r.s.(tempPath := ""))
  }

  function ChangeTree(st: St, io: Io, op: TreeOp, path: string, to: string): St {
    Emit(st.(w := st.w.(files := io.tree)), TreeChanged(op, path, to))
  }

  function CmdAbor(c: Config, st: St, io: Io): St {
    if st.s.conn.NoConnection? then Say(st, 226)
    else
      var e := TransferEnd(c, st, io.closing);
      if st.s.Busy() then Say(Say(e, 426), 226) else Say(e, 225)
  }

  /** The room a reply has for a path behind its code and a quotation mark. */
  const SHOWN_SIZE: nat := 4096 - 2 - 1 - 5

  /** As much of a path as ftp_client_msg gets into its buffer. */
  function Shown(path: string): string {
    if |path| <= SHOWN_SIZE then path else path[..SHOWN_SIZE]
  }

  /** DELE, RMD and MKD: a change to the tree, or none. */
  function CmdTree(c: Config, st: St, data: string, io: Io, op: TreeOp): St {
    var arg := ScanLine(data, PATH_LIMIT);
    var b := Resolve(st.s, arg);
    if arg == "" then Say(st, 501)
    else if !b.ok || !io.vfsOk then Say(st, 550)
    else
      var u := ChangeTree(st, io, op, FixedPath(c, b.path), "");
      if op == Mkdir then Emit(u, Reply(257, Shown(b.path))) else Say(u, 250)
  }

  function CmdSize(st: St, data: string, io: Io): St {
    var arg := ScanLine(data, PATH_LIMIT);
    if arg == "" || !Resolve(st.s, arg).ok then Say(st, 501)
    else if io.entry.Missing? then Say(st, 550)
    else Say(st, 213)
  }

  // ---- listings

  /** `d` written over the front of a buffer; what lay behind stays. */
  function Overlay(buf: ListBuf, d: ListBuf): ListBuf {
    d + (if |d| <= |buf| then buf[|d|..] else [])
  }

  /** What snprintf writes to list_buf: as much of the line as there is room for, and a NUL. */
  function Terminated(line: string): ListBuf {
    (if |line| < LIST_BUF_SIZE then line else line[..LIST_BUF_SIZE - 1]) + [NUL]
  }

  /** As many bytes of that as snprintf reports characters. */
  function Printed(line: string): seq<byte> {
    if |line| < LIST_BUF_SIZE then line else line[..LIST_BUF_SIZE - 1] + [NUL]
  }

  /** The size check of ftp_build_list_entry: a line of exactly 1024 characters passes it. */
  predicate Fits(line: string) {
    0 < |line| <= LIST_BUF_SIZE
  }

  const DEVICE_PERMS: CString := "drwxrwxrwx   1 "
  const DEVICE_OWNER: CString := "unknown unknown "
  const DEVICE_SIZE: CString := "            0 "
  const DEVICE_DATE: CString := "Jan   1  1970 "

  function DeviceLine(m: Mount, nlist: bool): (l: CString)
    ensures Fits(l)
  {
    if nlist then m + CRLF else DEVICE_PERMS + DEVICE_OWNER + DEVICE_SIZE + DEVICE_DATE + m + CRLF
  }

  function EntryLine(e: DirEntry, nlist: bool): CString {
    if nlist then e.name + CRLF else e.line
  }

  /** Whether the listing of `path` is the list of configured devices. */
  predicate DeviceList(c: Config, path: string) {
    c.devices != [] && path == "/"
  }

  /** An entry gets as far as being rendered: no dot entry, its path fits, lstat works. */
  predicate Examined(e: DirEntry, path: string) {
    && e.name != "." && e.name != ".."
    && |path| + |e.name| + (if path == "/" then 0 else 1) <= P.PATHNAME_SIZE
    && e.statOk
  }

  /** ftp_build_list_entry: the offset is not touched, whatever it is. */
  function Build(t: Transfer, line: string): Transfer {
    var u := t.(listBuf := Overlay(t.listBuf, Terminated(line)));
    if Fits(line) then u.(size := |line|) else u
  }

  /** A line has gone out to its end: nothing is pending, and list_buf starts with a NUL. */
  function Drained(t: Transfer): Transfer {
    t.(listBuf := Overlay(t.listBuf, [NUL]), offset := 0, size := 0)
  }

  /** The directory a listing is about; the flags of a shell's ls mean the working directory. */
  function ListPath(s: Session, arg: string): P.Built {
    if arg == "" || arg == "-a" || arg == "-la" then P.Built(true, s.pwd) else Resolve(s, arg)
  }

  function CmdList(c: Config, st: St, data: string, mode: Mode, io: Io): St {
    var b := ListPath(st.s, ScanLine(data, PATH_LIMIT));
    var st1 := st.(s := st.s.(tempPath := b.path));
    if !b.ok then Say(st1, 501)
    else if DeviceList(c, b.path) then ListDevices(st1, mode, io)
    else ListFrom(st1.(s := st1.s.(tempPath := FixedPath(c, b.path))), mode, io)
  }

  function ListDevices(st: St, mode: Mode, io: Io): St {
    var d := DataOpen(st, io);
    if !d.ok then Say(d.st, 425) else SetTransfer(d.st, d.st.s.transfer.(index := 0, mode := mode))
  }

  /** The part of LIST and NLST after the path has been settled. */
  function ListFrom(st: St, mode: Mode, io: Io): St {
    match io.entry
    case Missing => Say(st, 450)
    case IsDir => if io.dirOk then ListDir(st, mode, io) else Say(st, 450)
    case IsFile => if mode == List then ListFile(st, io) else Say(st, 450)
  }

  function ListDir(st: St, mode: Mode, io: Io): St {
    var o := Emit(SetTransfer(st, st.s.transfer.(dir := Dir(true, io.entries))), DirOpened(st.s.tempPath));
    var d := DataOpen(o, io);
    if !d.ok then DirClose(Say(d.st, 425)) else SetTransfer(d.st, d.st.s.transfer.(mode := mode))
  }

  /** The listing of a single file: its line is rendered before the connection is made. */
  function ListFile(st: St, io: Io): St {
    var u := SetTransfer(st, Build(st.s.transfer, io.line));
    if !Fits(io.line) then Say(u, 450)
    else
      var d := DataOpen(u, io);
      if !d.ok then Say(d.st, 425) else SetTransfer(d.st, d.st.s.transfer.(mode := List))
  }

  // ------------------------------------------------------------------------- dispatch

  function Execute(c: Config, st: St, v: Verb, data: string, io: Io): St {
    match v
    case USER => CmdUser(c, st, data)
    case PASS => CmdPass(c, st, data)
    case CWD => CmdCwd(st, data, io)
    case CDUP => CmdCdup(st, io)
    case PORT => CmdPort(c, st, data, io)
    case PASV => CmdPasv(c, st, io)
    case TYPE => CmdCode(st, data, {'A', 'I'})
    case STRU => CmdCode(st, data, {'F'})
    case MODE => CmdCode(st, data, {'S'})
    case RETR => CmdRetr(c, st, data, io)
    case STOR => CmdStor(c, st, data, io)
    case APPE => CmdAppe(c, st, data, io)
    case REST => CmdRest(st, data)
    case RNFR => CmdRnfr(st, data)
    case RNTO => CmdRnto(st, data, io)
    case ABOR => CmdAbor(c, st, io)
    case DELE => CmdTree(c, st, data, io, Unlink)
    case RMD => CmdTree(c, st, data, io, Rmdir)
    case MKD => CmdTree(c, st, data, io, Mkdir)
    case PWD => Emit(st, Reply(257, Shown(st.s.pwd)))
    case LIST => CmdList(c, st, data, List, io)
    case NLST => CmdList(c, st, data, Nlst, io)
    case SIZE => CmdSize(st, data, io)
    case QUIT => Say(st, 221)
    case SYST => Say(st, 215)
    case HELP => Say(st, 214)
    case FEAT => Say(st, 211)
    case ALLO | NOOP => Say(st, 200)
    case ACCT | SMNT | REIN | SITE | STAT => Say(st, 500)
  }

  /** ftp_session_progress_line: the gates in their order, then the handler. */
  function Dispatch(c: Config, st: St, text: string, len: nat, io: Io): St
    requires IsLine(text, len)
  {
    if ScanLine(text, 4) == "" || VerbOf(text).None? then Say(st, 500)
    else
      VerbInsideLine(text, len);
      var v := VerbOf(text).value;
      var arg := ArgOf(text, len, v);
      if NeedsAuth(v) && st.s.auth != Valid then Say(st, 530)
      else if st.s.Busy() && v != ABOR then Say(st, 501)
      else if (if arg.Some? then Args(v).NoArg? else Args(v).RequiredArg?) then Say(st, 501)
      else Execute(c, st, v, if arg.Some? then arg.value else "", io)
  }

  function LineStep(c: Config, st: St, text: string, len: nat, io: Io): St
    requires IsLine(text, len)
  {
    Dispatch(c, Emit(st, Line(text[..len])), text, len, io)
  }

  // --------------------------------------------------------------- the data connection

  /** The end of a transfer, announced first. */
  function Finish(c: Config, st: St, code: nat, closing: seq<N.Fault>): St {
    TransferEnd(c, Say(st, code), closing)
  }

  function RetrStep(c: Config, st: St, io: Io): St {
    var t := st.s.transfer;
    if io.read.ReadFail? then Finish(c, st, 426, io.closing)
    else
      var n := N.ReadCount(|Content(st.w.files, t.file.path)|, t.file.off, FILE_BUFFER_SIZE, io.read);
      if n == 0 then Finish(c, st, 226, io.closing) else RetrSend(c, st, n, io)
  }

  /** `n` bytes have been read: send them, and put the file back to what has been sent. */
  function RetrSend(c: Config, st: St, n: nat, io: Io): St
    requires n > 0 && st.s.transfer.file.off + n <= |Content(st.w.files, st.s.transfer.file.path)|
  {
    var t := st.s.transfer;
    match NextSend(io.sends)
    case SendBlocks => SetTransfer(st, t.(file := t.file.(off := t.offset)))
    case SendFails => Finish(c, SetTransfer(st, t.(file := t.file.(off := t.file.off + n))), 426, io.closing)
    case Took(count) =>
      var m := SendCount(count, n);
      var at := if m == n then t.file.off + n else t.offset + m;
      var data := Content(st.w.files, t.file.path)[t.file.off..t.file.off + m];
      var u := SetTransfer(Emit(st, Sent(data)), t.(offset := t.offset + m, file := t.file.(off := at)));
      if t.offset + m == t.size then Finish(c, u, 226, io.closing) else u
  }

  function Chunk(data: seq<byte>): seq<byte> {
    if |data| <= FILE_BUFFER_SIZE then data else data[..FILE_BUFFER_SIZE]
  }

  function StorStep(c: Config, st: St, io: Io): St {
    var t := st.s.transfer;
    match io.recv
    case RecvBlocks => SetTransfer(st, t.(file := t.file.(off := t.offset)))
    case RecvFails => Finish(c, st, 426, io.closing)
    case Got(all) =>
      var b := Chunk(all);
      if b == [] then Finish(c, st, 226, io.closing)
      else
        var r := N.Write(c.build, Mounted(st.w, t.file, io.faults), b);
        var u := Unmount(Emit(st, Received(b)), t.file.path, r.v);
        if !r.ok then Finish(c, u, 426, io.closing)
        else SetTransfer(u, u.s.transfer.(offset := t.offset + |b|))
  }

  /** `n` bytes of list_buf from `from` on; memory behind the buffer reads as NUL. */
  function ListBytes(buf: seq<byte>, from: nat, n: nat): (r: seq<byte>)
    ensures |r| == n
  {
    seq(n, i requires 0 <= i => if from + i < |buf| then buf[from + i] else NUL)
  }

  /** What a listing has yet to fetch. */
  function LinesLeft(c: Config, t: Transfer): nat {
    |t.dir.entries| + (if t.index < |c.devices| then |c.devices| - t.index else 0)
  }

  /** The next device has been made the pending line. */
  function NextDevice(c: Config, t: Transfer): Transfer
    requires t.index < |c.devices|
  {
    Build(t.(index := t.index + 1), DeviceLine(c.devices[t.index], t.mode.Nlst?))
  }

  /** The next entry of the directory has been read, and skipped or made the pending line. */
  function NextEntry(t: Transfer, path: string): Transfer
    requires t.dir.entries != []
  {
    ListEntry(t.(dir := t.dir.(entries := t.dir.entries[1..])), t.dir.entries[0], path)
  }

  /** ftp_dir_data_transfer_progress: send what is pending, fetch the next line, repeat. */
  function ListStep(c: Config, st: St, sends: seq<SendAnswer>, closing: seq<N.Fault>): St
    decreases LinesLeft(c, st.s.transfer), st.s.transfer.size
  {
    var t := st.s.transfer;
    if t.size > 0 then
      match NextSend(sends)
      case SendBlocks => st
      case SendFails => Finish(c, st, 426, closing)
      case Took(count) =>
        var m := SendCount(count, t.size);
        var st1 := Emit(st, Sent(ListBytes(t.listBuf, t.offset, m)));
        if m != t.size then SetTransfer(st1, t.(offset := t.offset + m, size := t.size - m))
        else
          var st2 := SetTransfer(st1, Drained(t));
          if !t.dir.isValid && (!DeviceList(c, st.s.tempPath) || t.index == |c.devices|)
          then Finish(c, st2, 226, closing)
          else ListStep(c, st2, RestSends(sends), closing)
    else if DeviceList(c, st.s.tempPath) then
      if t.index >= |c.devices| then st
      else
        ListStep(c, SetTransfer(st, NextDevice(c, t)), sends, closing)
    else if t.dir.entries == [] then Finish(c, st, 226, closing)
    else ListStep(c, SetTransfer(st, NextEntry(t, st.s.tempPath)), sends, closing)
  }

  /** One directory entry: skipped, or made the pending line. */
  function ListEntry(t: Transfer, e: DirEntry, path: string): Transfer {
    if Examined(e, path) then Build(t, EntryLine(e, t.mode.Nlst?)) else t
  }

  function Progress(c: Config, st: St, io: Io): St {
    match st.s.transfer.mode
    case Idle => st
    case Retr => RetrStep(c, st, io)
    case Stor => StorStep(c, st, io)
    case List => ListStep(c, st, io.sends, io.closing)
    case Nlst => ListStep(c, st, io.sends, io.closing)
  }

  // ------------------------------------------------------------ begin and end of a session

  function SessionInit(st: St, io: Io): Attempt {
    if !Granted(st.w, io.socket) then Attempt(st, false)
    else
      var s := BLANK.(active := true, controlSock := io.socket, host := io.host, pwd := "/");
      var st1 := St(s, st.w.(fds := st.w.fds + {io.socket}), st.log);
      Attempt(Say(Emit(st1, Accepted(io.socket)), 220), true)
  }

  function SessionClose(c: Config, st: St, io: Io): St {
    Emit(TransferEnd(c, CloseControl(st), io.closing).(s := BLANK), HungUp)
  }

  /** What can happen to a slot of the session table. */
  datatype Event =
    | Connect(io: Io)
    | Command(text: string, io: Io)
    | DataReady(io: Io)
    | Disconnect(io: Io)

  /** One event; events that do not apply in the slot's state leave it alone. */
  function Step(c: Config, st: St, ev: Event): St {
    match ev
    case Connect(io) => if st.s.active then st else SessionInit(st, io).st
    case Command(text, io) =>
      if st.s.active && FindCrlf(text) < |text| then LineStep(c, st, text, FindCrlf(text) + 2, io) else st
    case DataReady(io) => if st.s.active && st.s.Busy() then Progress(c, st, io) else st
    case Disconnect(io) => if st.s.active then SessionClose(c, st, io) else st
  }
}
