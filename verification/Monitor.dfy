/**
  What a well-behaved session may do to the outside world, as monitors over its log, and
  how they follow the primitive steps of a session.

  The monitors read nothing but the log.  They never look at the session's fields.
*/
module Monitor {
  import opened CText
  import opened Session
  import N = NxFile
  import H = HostPort

  // ------------------------------------------------------------------ the monitors

  /** A handle that is opened and closed in turn. */
  datatype Switch = Shut | Open | Broken

  /**
    The dialogue on the control connection (section 5.4 of RFC 959).  `owed` says that a
    150 reply still awaits its completion: 425, 226 or 426.
  */
  datatype Dialog =
    | Greeting
    | Quiet(owed: bool)
    | Answering(owed: bool, abor: bool)
    | Garbled

  /** Who has logged in since the session was accepted, judged from its control lines. */
  datatype Login = Login(named: bool, entered: bool, breached: bool)

  datatype Watch = Watch(file: Switch, dir: Switch, listeners: set<int>, dialog: Dialog, login: Login)

  const START: Watch := Watch(Shut, Shut, {}, Quiet(false), Login(false, false, false))

  function SeeFile(q: Switch, e: Effect): Switch {
    match e
    case FileOpened(_, _) => if q == Shut then Open else Broken
    case FileClosed => if q == Open then Shut else Broken
    case Accepted(_) => if q == Shut then Shut else Broken
    case HungUp => if q == Shut then Shut else Broken
    case _ => q
  }

  function SeeDir(q: Switch, e: Effect): Switch {
    match e
    case DirOpened(_) => if q == Shut then Open else Broken
    case DirClosed => if q == Open then Shut else Broken
    case Accepted(_) => if q == Shut then Shut else Broken
    case HungUp => if q == Shut then Shut else Broken
    case _ => q
  }

  function SeeListeners(fds: set<int>, e: Effect): set<int> {
    match e
    case Listener(fd, _) => fds + {fd}
    case SocketClosed(fd) => fds - {fd}
    case _ => fds
  }

  /** A reply is a greeting, the completion of a 150, or the one answer to the last line. */
  function Hear(d: Dialog, code: nat): Dialog {
    match d
    case Greeting => if code == 220 then Quiet(false) else Garbled
    case Quiet(owed) =>
      if owed && (code == 425 || code == 226 || code == 426) then Quiet(false) else Garbled
    case Answering(owed, abor) =>
      if code == 150 then (if owed || abor then Garbled else Quiet(true))
      else if code == 426 then (if owed && abor then Answering(false, true) else Garbled)
      else if code == 226 then (if !owed && abor then Quiet(false) else Garbled)
      else if code == 425 || code == 220 then Garbled
      else Quiet(owed)
    case Garbled => Garbled
  }

  function SeeDialog(d: Dialog, e: Effect): Dialog {
    match e
    case Accepted(_) => if d == Quiet(false) then Greeting else Garbled
    case Line(text) => if d.Quiet? then Answering(d.owed, VerbOf(text) == H.Some(ABOR)) else Garbled
    case Reply(code, _) => Hear(d, code)
    case HungUp => if d.Quiet? then Quiet(false) else Garbled
    case _ => d
  }

  /** The argument of a control line, cut at its end and at 127 characters. */
  function LineArg(text: string): string {
    match VerbOf(text)
    case None => ""
    case Some(v) =>
      if |Name(v)| > |text| then ""
      else match ArgOf(text, |text|, v)
           case None => ""
           case Some(a) => ScanLine(a, NAME_SIZE)
  }

  predicate NamesUser(c: Config, text: string) {
    VerbOf(text) == H.Some(USER) && LineArg(text) == (if c.anon then "anonymous" else c.user)
  }

  predicate GivesPass(c: Config, text: string) {
    VerbOf(text) == H.Some(PASS) && LineArg(text) == c.pass
  }

  /** Logging in takes the right USER line and, unless anonymous, the right PASS line after it. */
  function SeeLogin(c: Config, l: Login, e: Effect): Login {
    match e
    case Accepted(_) => Login(false, false, l.breached)
    case HungUp => Login(false, false, l.breached)
    case Line(text) =>
      Login(l.named || NamesUser(c, text),
            l.entered || (if c.anon then NamesUser(c, text) else l.named && GivesPass(c, text)),
            l.breached)
    case FileOpened(_, _) => l.(breached := l.breached || !l.entered)
    case DirOpened(_) => l.(breached := l.breached || !l.entered)
    case DataSocket(_, _) => l.(breached := l.breached || !l.entered)
    case Listener(_, _) => l.(breached := l.breached || !l.entered)
    case TreeChanged(_, _, _) => l.(breached := l.breached || !l.entered)
    case _ => l
  }

  function See(c: Config, m: Watch, e: Effect): Watch {
    Watch(SeeFile(m.file, e), SeeDir(m.dir, e), SeeListeners(m.listeners, e),
          SeeDialog(m.dialog, e), SeeLogin(c, m.login, e))
  }

  function Observe(c: Config, log: seq<Effect>): Watch {
    if log == [] then START else See(c, Observe(c, log[..|log| - 1]), log[|log| - 1])
  }

  // ------------------------------------------------- how the log follows the session

  function SwitchOf(open_: bool): Switch {
    if open_ then Open else Shut
  }

  function Own(fd: int): set<int> {
    if fd > 0 then {fd} else {}
  }

  ghost predicate LoginFollows(c: Config, s: Session, l: Login) {
    && !l.breached
    && (s.auth == Valid ==> l.entered)
    && (s.auth == NeedPass ==> l.named && !c.anon)
  }

  /** The monitors agree with the session's fields, and the dialogue has got to `d`. */
  ghost predicate Tracks(c: Config, st: St, d: Dialog) {
    var m := Observe(c, st.log);
    && m.file == SwitchOf(st.s.transfer.file.isValid)
    && m.dir == SwitchOf(st.s.transfer.dir.isValid)
    && m.listeners == Own(st.s.pasvSock)
    && m.dialog == d
    && LoginFollows(c, st.s, m.login)
  }

  ghost predicate Distinct(s: Session) {
    && (s.dataSock > 0 ==> s.dataSock != s.pasvSock)
    && (s.controlSock > 0 ==> s.controlSock != s.pasvSock && s.controlSock != s.dataSock)
  }

  lemma ObserveEmit(c: Config, st: St, e: Effect)
    ensures Observe(c, Emit(st, e).log) == See(c, Observe(c, st.log), e)
  {
    assert (st.log + [e])[..|st.log|] == st.log;
  }

  lemma SayTracks(c: Config, st: St, d: Dialog, code: nat, text: string)
    requires Tracks(c, st, d)
    ensures Tracks(c, Emit(st, Reply(code, text)), Hear(d, code))
  {
    ObserveEmit(c, st, Reply(code, text));
  }

  lemma CloseDataTracks(c: Config, st: St, d: Dialog)
    requires Tracks(c, st, d) && Distinct(st.s)
    ensures Tracks(c, CloseData(st), d)
  {
    ObserveEmit(c, st, SocketClosed(st.s.dataSock));
  }

  lemma ClosePasvTracks(c: Config, st: St, d: Dialog)
    requires Tracks(c, st, d)
    ensures Tracks(c, ClosePasv(st), d)
  {
    ObserveEmit(c, st, SocketClosed(st.s.pasvSock));
  }

  lemma CloseControlTracks(c: Config, st: St, d: Dialog)
    requires Tracks(c, st, d) && Distinct(st.s)
    ensures Tracks(c, CloseControl(st), d)
  {
    ObserveEmit(c, st, SocketClosed(st.s.controlSock));
  }

  lemma VfsCloseTracks(c: Config, st: St, d: Dialog, faults: seq<N.Fault>)
    requires Tracks(c, st, d)
    ensures Tracks(c, VfsClose(c, st, faults), d)
    ensures VfsClose(c, st, faults).s == st.s.(transfer := VfsClose(c, st, faults).s.transfer)
    ensures !VfsClose(c, st, faults).s.transfer.file.isValid
  {
    var h := st.s.transfer.file;
    ObserveEmit(c, Unmount(st, h.path, N.Close(c.build, Mounted(st.w, h, faults))), FileClosed);
  }

  lemma DirCloseTracks(c: Config, st: St, d: Dialog)
    requires Tracks(c, st, d)
    ensures Tracks(c, DirClose(st), d)
  {
    ObserveEmit(c, st, DirClosed);
  }

  lemma VfsOpenTracks(c: Config, st: St, d: Dialog, path: string, mode: N.OpenMode, faults: seq<N.Fault>)
    requires Tracks(c, st, d) && st.s.auth == Valid && !st.s.transfer.file.isValid
    ensures var o := VfsOpen(st, path, mode, faults);
            && Tracks(c, o.st, d)
            && o.st.s == st.s.(transfer := st.s.transfer.(file := o.st.s.transfer.file))
            && (o.st.s.transfer.file.isValid <==> o.ok)
  {
    var o := VfsOpen(st, path, mode, faults);
    if o.ok {
      var before := o.st.(log := st.log);
      ObserveEmit(c, before, FileOpened(path, mode));
    }
  }

  lemma DataOpenTracks(c: Config, st: St, io: Io)
    requires Tracks(c, st, Answering(false, false)) && st.s.auth == Valid
    ensures Tracks(c, DataOpen(st, io).st, Quiet(true))
    ensures DataOpen(st, io).st.s == st.s.(dataSock := DataOpen(st, io).st.s.dataSock)
  {
    hide Peer, Observe;
    SayTracks(c, st, Answering(false, false), 150, "");
    var st1 := Say(st, 150);
    ObserveEmit(c, st1, DataSocket(io.socket, Peer(st.s)));
  }

  lemma TransferEndTracks(c: Config, st: St, d: Dialog, closing: seq<N.Fault>)
    requires Tracks(c, st, d) && Distinct(st.s)
    ensures Tracks(c, TransferEnd(c, st, closing), d)
  {
    CloseDataTracks(c, st, d);
    ClosePasvTracks(c, CloseData(st), d);
    var a := CloseConnection(st);
    VfsCloseTracks(c, a, d, closing);
    DirCloseTracks(c, VfsClose(c, a, closing), d);
  }
}
