/**
  What a step of one session leaves alone: everything while a transfer is running except
  for ABOR, and always the descriptors that other sessions hold.
*/
module Frames {
  import opened CText
  import opened Session
  import opened Monitor
  import opened Conduct
  import N = NxFile
  import H = HostPort

  // --------------------------------------------------------------------- descriptors

  /** The descriptors a session holds. */
  function Held(s: Session): set<int> {
    Own(s.controlSock) + Own(s.dataSock) + Own(s.pasvSock)
  }

  /** Only own descriptors get closed, only new ones are taken on, and the port counter keeps its range. */
  ghost predicate FdFrame(st: St, r: St) {
    && st.w.fds - Held(st.s) <= r.w.fds
    && (H.InRange(st.w.port) ==> H.InRange(r.w.port))
    && forall fd | fd in Held(r.s) && fd in st.w.fds :: fd in Held(st.s)
  }

  /** What every step inside a session keeps to. */
  ghost predicate Frame(st: St, r: St) {
    FdFrame(st, r) && r.s.active == st.s.active && r.s.host == st.s.host
  }

  /** Nothing happened to any socket, nor to the address the client was accepted on. */
  ghost predicate Calm(st: St, r: St) {
    && r.w.fds == st.w.fds && r.w.port == st.w.port && r.s.controlSock == st.s.controlSock
    && r.s.dataSock == st.s.dataSock && r.s.pasvSock == st.s.pasvSock && r.s.active == st.s.active
    && r.s.host == st.s.host
  }

  lemma FrameTransitive(a: St, b: St, r: St)
    requires Frame(a, b) && Frame(b, r)
    ensures Frame(a, r)
  {
  }

  lemma TransferEndFrame(c: Config, st: St, closing: seq<N.Fault>)
    ensures Frame(st, TransferEnd(c, st, closing))
  {
    var a := CloseConnection(st);
    assert Frame(st, a);
    HandlesShut(c, a, closing);
  }

  lemma DataOpenFrame(st: St, io: Io)
    ensures Frame(st, DataOpen(st, io).st)
  {
  }

  lemma VfsCalm(c: Config, st: St, path: string, mode: N.OpenMode, faults: seq<N.Fault>)
    ensures Calm(st, VfsOpen(st, path, mode, faults).st)
    ensures Calm(st, VfsClose(c, st, faults))
  {
  }

  lemma RetrFrame(c: Config, st: St, data: string, io: Io)
    ensures Frame(st, CmdRetr(c, st, data, io))
  {
    hide Resolve;
    var path := FixedPath(c, Resolve(st.s, ScanLine(data, PATH_LIMIT)).path);
    VfsCalm(c, st, path, N.READ, io.faults);
    var o := VfsOpen(st, path, N.READ, io.faults);
    hide VfsOpen;
    VfsCalm(c, Say(o.st, 550), path, N.READ, io.closing);
    RetrFromFrame(c, o.st, io);
    hide RetrFrom, VfsClose;
    assert Frame(st, o.st);
    FrameTransitive(st, o.st, RetrFrom(c, o.st, io));
  }

  lemma RetrFromFrame(c: Config, st: St, io: Io)
    ensures Frame(st, RetrFrom(c, st, io))
  {
    var p := Positioned(st, io);
    var d := DataOpen(p.st, io);
    DataOpenFrame(p.st, io);
    hide DataOpen;
    VfsCalm(c, Say(p.st, 550), "", N.READ, io.closing);
    VfsCalm(c, Say(d.st, 425), "", N.READ, io.closing);
    hide VfsClose;
  }

  lemma StorFrame(c: Config, st0: St, data: string, io: Io)
    ensures Frame(st0, CmdStor(c, st0, data, io))
  {
    hide Resolve;
    var append := st0.s.marker == -1;
    var st := if append then st0.(s := st0.s.(marker := 0)) else st0;
    var path := FixedPath(c, Resolve(st.s, ScanLine(data, PATH_LIMIT)).path);
    var mode := if append then N.APPEND else N.WRITE;
    VfsCalm(c, st, path, mode, io.faults);
    var o := VfsOpen(st, path, mode, io.faults);
    hide VfsOpen;
    DataOpenFrame(o.st, io);
    var d := DataOpen(o.st, io);
    hide DataOpen;
    VfsCalm(c, Say(d.st, 425), path, mode, io.closing);
    hide VfsClose;
    assert Frame(st0, o.st);
    FrameTransitive(st0, o.st, d.st);
  }

  lemma ListFrame(c: Config, st: St, data: string, mode: Mode, io: Io)
    ensures Frame(st, CmdList(c, st, data, mode, io))
  {
    hide ListPath;
    var b := ListPath(st.s, ScanLine(data, PATH_LIMIT));
    var st1 := st.(s := st.s.(tempPath := b.path));
    DataOpenFrame(st1, io);
    ListFromFrame(st1.(s := st1.s.(tempPath := FixedPath(c, b.path))), mode, io);
    hide DataOpen, ListFrom;
  }

  lemma ListFromFrame(st: St, mode: Mode, io: Io)
    ensures Frame(st, ListFrom(st, mode, io))
  {
    hide DataOpen, Fits, Terminated, Overlay, Build;
    DataOpenFrame(Emit(SetTransfer(st, st.s.transfer.(dir := Dir(true, io.entries))), DirOpened(st.s.tempPath)), io);
    DataOpenFrame(SetTransfer(st, Build(st.s.transfer, io.line)), io);
  }

  lemma AborFrame(c: Config, st: St, io: Io)
    ensures Frame(st, CmdAbor(c, st, io))
  {
    TransferEndFrame(c, st, io.closing);
    hide TransferEnd;
  }

  lemma PortFrame(c: Config, st: St, data: string, io: Io)
    ensures Frame(st, CmdPort(c, st, data, io))
  {
    TransferEndFrame(c, st, io.closing);
    hide TransferEnd;
  }

  lemma PasvFrame(c: Config, st: St, io: Io)
    requires SocketsSound(st.s, st.w.fds)
    ensures Frame(st, CmdPasv(c, st, io))
  {
    hide TransferEnd, PasvFrom, Frame;
    TransferEndFrame(c, st, io.closing);
    TransferEndSound(c, st, io.closing);
    var e := TransferEnd(c, st, io.closing);
    PasvFromFrame(e, io);
    FrameTransitive(st, e, PasvFrom(e, io));
  }

  lemma PasvFromFrame(e: St, io: Io)
    requires e.s.pasvSock <= 0
    ensures Frame(e, PasvFrom(e, io))
  {
    hide H.PassiveText;
  }

  lemma ExecuteFrame(c: Config, st: St, v: Verb, data: string, io: Io)
    requires SocketsSound(st.s, st.w.fds)
    ensures Frame(st, Execute(c, st, v, data, io))
  {
    hide CmdPort, CmdAbor, CmdPasv, Frame;
    if IsTransferVerb(v) {
      hide Execute;
      TransferVerbFrame(c, st, v, data, io);
    } else if IsConnectionVerb(v) {
      PortFrame(c, st, data, io);
      PasvFrame(c, st, io);
      AborFrame(c, st, io);
    } else {
      hide Execute;
      QuickCalm(c, st, v, data, io);
      CalmFrame(st, Execute(c, st, v, data, io));
    }
  }

  lemma TransferVerbFrame(c: Config, st: St, v: Verb, data: string, io: Io)
    requires IsTransferVerb(v)
    ensures Frame(st, Execute(c, st, v, data, io))
  {
    hide CmdUser, CmdPass, CmdCwd, CmdCdup, CmdCode, CmdRest, CmdRnfr, CmdRnto, CmdTree, CmdSize;
    hide CmdRetr, CmdStor, CmdList, CmdPort, CmdPasv, CmdAbor;
    match v
    case RETR => RetrFrame(c, st, data, io);
    case STOR => StorFrame(c, st, data, io);
    case APPE => StorFrame(c, st.(s := st.s.(marker := -1)), data, io);
    case LIST => ListFrame(c, st, data, List, io);
    case NLST => ListFrame(c, st, data, Nlst, io);
  }

  /** Nothing happened to any socket or to the transfer. */
  ghost predicate Aside(st: St, r: St) {
    Calm(st, r) && r.s.transfer == st.s.transfer
  }

  lemma ParameterCalm(c: Config, st: St, data: string, known: set<char>)
    ensures Aside(st, CmdUser(c, st, data)) && Aside(st, CmdPass(c, st, data))
    ensures Aside(st, CmdCode(st, data, known)) && Aside(st, CmdRest(st, data))
  {
    hide ScanLine, H.ScanInt;
  }

  lemma PathCalm(st: St, data: string, io: Io)
    ensures Aside(st, CmdCwd(st, data, io)) && Aside(st, CmdCdup(st, io))
    ensures Aside(st, CmdRnfr(st, data)) && Aside(st, CmdRnto(st, data, io))
  {
    hide Resolve, ScanLine;
  }

  lemma TreeCalm(c: Config, st: St, data: string, io: Io, op: TreeOp)
    ensures Aside(st, CmdTree(c, st, data, io, op)) && Aside(st, CmdSize(st, data, io))
  {
    hide Resolve, ScanLine, FixedPath;
  }

  lemma QuickCalm(c: Config, st: St, v: Verb, data: string, io: Io)
    requires !IsTransferVerb(v) && !IsConnectionVerb(v)
    ensures Calm(st, Execute(c, st, v, data, io))
    ensures Execute(c, st, v, data, io).s.transfer == st.s.transfer
  {
    hide CmdUser, CmdPass, CmdCwd, CmdCdup, CmdCode, CmdRest, CmdRnfr, CmdRnto, CmdTree, CmdSize;
    ParameterCalm(c, st, data, {'A', 'I'});
    ParameterCalm(c, st, data, {'F'});
    ParameterCalm(c, st, data, {'S'});
    PathCalm(st, data, io);
    TreeCalm(c, st, data, io, Unlink);
    TreeCalm(c, st, data, io, Rmdir);
    TreeCalm(c, st, data, io, Mkdir);
  }

  lemma LineFrame(c: Config, st: St, text: string, len: nat, io: Io)
    requires IsLine(text, len) && SocketsSound(st.s, st.w.fds)
    ensures Frame(st, LineStep(c, st, text, len, io))
  {
    var st1 := Emit(st, Line(text[..len]));
    hide Execute, VerbOf, ScanLine, ArgOf, Frame;
    if VerbOf(text).Some? {
      VerbInsideLine(text, len);
      var arg := ArgOf(text, len, VerbOf(text).value);
      ExecuteFrame(c, st1, VerbOf(text).value, if arg.Some? then arg.value else "", io);
      SameFrame(st, st1, Execute(c, st1, VerbOf(text).value, if arg.Some? then arg.value else "", io));
    }
    forall code: nat ensures Frame(st, Say(st1, code)) { CalmFrame(st, Say(st1, code)); }
  }

  lemma SameFrame(st: St, st1: St, r: St)
    requires st1.s == st.s && st1.w == st.w && Frame(st1, r)
    ensures Frame(st, r)
  {
  }

  lemma CalmFrame(st: St, r: St)
    requires Calm(st, r)
    ensures Frame(st, r)
  {
  }

  lemma FinishFrame(c: Config, st: St, code: nat, closing: seq<N.Fault>)
    ensures Frame(st, Finish(c, st, code, closing))
  {
    TransferEndFrame(c, Say(st, code), closing);
    hide TransferEnd;
  }

  lemma RetrStepFrame(c: Config, st: St, io: Io)
    ensures Frame(st, RetrStep(c, st, io))
  {
    hide Finish, Frame, RetrSend;
    FinishFrame(c, st, 426, io.closing);
    FinishFrame(c, st, 226, io.closing);
    if !io.read.ReadFail? {
      var h := st.s.transfer.file;
      var n := N.ReadCount(|Content(st.w.files, h.path)|, h.off, FILE_BUFFER_SIZE, io.read);
      if n > 0 {
        RetrSendFrame(c, st, n, io);
      }
    }
  }

  lemma RetrSendFrame(c: Config, st: St, n: nat, io: Io)
    requires n > 0 && st.s.transfer.file.off + n <= |Content(st.w.files, st.s.transfer.file.path)|
    ensures Frame(st, RetrSend(c, st, n, io))
  {
    hide Finish, Frame, Content;
    var t := st.s.transfer;
    match NextSend(io.sends)
    case SendBlocks => CalmFrame(st, RetrSend(c, st, n, io));
    case SendFails =>
      var u := SetTransfer(st, t.(file := t.file.(off := t.file.off + n)));
      FinishFrame(c, u, 426, io.closing);
      CalmThen(st, u, Finish(c, u, 426, io.closing));
    case Took(count) =>
      var m := SendCount(count, n);
      var at := if m == n then t.file.off + n else t.offset + m;
      var data := Content(st.w.files, t.file.path)[t.file.off..t.file.off + m];
      var u := SetTransfer(Emit(st, Sent(data)), t.(offset := t.offset + m, file := t.file.(off := at)));
      FinishFrame(c, u, 226, io.closing);
      CalmThen(st, u, Finish(c, u, 226, io.closing));
      CalmFrame(st, u);
  }

  lemma StorStepFrame(c: Config, st: St, io: Io)
    ensures Frame(st, StorStep(c, st, io))
  {
    forall u: St, code | Calm(st, u) ensures Frame(st, Finish(c, u, code, io.closing)) {
      FinishFrame(c, u, code, io.closing);
    }
    hide Finish, N.Write;
  }

  lemma CalmThen(st: St, u: St, r: St)
    requires Calm(st, u) && Frame(u, r)
    ensures Frame(st, r)
  {
  }

  lemma {:induction false} ListStepFrame(c: Config, st: St, sends: seq<SendAnswer>, closing: seq<N.Fault>)
    ensures Frame(st, ListStep(c, st, sends, closing))
    decreases LinesLeft(c, st.s.transfer), st.s.transfer.size
  {
    hide Finish, Examined, Frame, Fits;
    var t := st.s.transfer;
    if t.size > 0 {
      match NextSend(sends)
      case SendBlocks => CalmFrame(st, st);
      case SendFails => FinishFrame(c, st, 426, closing);
      case Took(count) =>
        var m := SendCount(count, t.size);
        var st1 := Emit(st, Sent(ListBytes(t.listBuf, t.offset, m)));
        if m == t.size {
          var st2 := SetTransfer(st1, Drained(t));
          if !t.dir.isValid && (!DeviceList(c, st.s.tempPath) || t.index == |c.devices|) {
            FinishFrame(c, st2, 226, closing);
            CalmThen(st, st2, Finish(c, st2, 226, closing));
          } else {
            ListStepFrame(c, st2, RestSends(sends), closing);
            CalmThen(st, st2, ListStep(c, st2, RestSends(sends), closing));
          }
        } else {
          CalmFrame(st, SetTransfer(st1, t.(offset := t.offset + m, size := t.size - m)));
        }
    } else if DeviceList(c, st.s.tempPath) {
      if t.index < |c.devices| {
        var u := SetTransfer(st, NextDevice(c, t));
        ListStepFrame(c, u, sends, closing);
        CalmThen(st, u, ListStep(c, u, sends, closing));
      } else {
        CalmFrame(st, st);
      }
    } else if t.dir.entries == [] {
      FinishFrame(c, st, 226, closing);
    } else {
      var u := SetTransfer(st, NextEntry(t, st.s.tempPath));
      ListStepFrame(c, u, sends, closing);
      CalmThen(st, u, ListStep(c, u, sends, closing));
    }
  }

  /** No event closes a descriptor of another session, or makes one its own. */
  lemma StepFrame(c: Config, st: St, ev: Event)
    requires Good(c, st)
    ensures FdFrame(st, Step(c, st, ev))
    ensures ev.Command? || ev.DataReady? ==>
              Step(c, st, ev).s.active == st.s.active && Step(c, st, ev).s.host == st.s.host
  {
    hide LineStep, RetrStep, StorStep, ListStep;
    match ev
    case Connect(io) =>
    case Command(text, io) =>
      if st.s.active && FindCrlf(text) < |text| { LineFrame(c, st, text, FindCrlf(text) + 2, io); }
    case DataReady(io) =>
      match st.s.transfer.mode {
        case Idle =>
        case Retr => RetrStepFrame(c, st, io);
        case Stor => StorStepFrame(c, st, io);
        case List => ListStepFrame(c, st, io.sends, io.closing);
        case Nlst => ListStepFrame(c, st, io.sends, io.closing);
      }
    case Disconnect(io) =>
      if st.s.active {
        var a := CloseControl(st);
        TransferEndFrame(c, a, io.closing);
        hide TransferEnd;
        assert Frame(st, a);
        FrameTransitive(st, a, TransferEnd(c, a, io.closing));
      }
  }

  // --------------------------------------------------------------------- the busy gate

  /** `r` is `st` after a control line that was refused, or was no line. */
  ghost predicate Unmoved(st: St, r: St, text: string) {
    && r.s == st.s && r.w == st.w
    && (FindCrlf(text) >= |text| ==> r == st)
    && (FindCrlf(text) < |text| ==>
          exists code :: code in {500, 501, 530} &&
            r.log == st.log + [Line(text[..FindCrlf(text) + 2]), Reply(code, "")])
  }

  /**
    While a transfer runs, a control line other than ABOR is answered with a refusal and
    changes nothing at all: no field of the session and nothing in the world.
  */
  lemma BusyGate(c: Config, st: St, text: string, io: Io)
    requires st.s.active && st.s.Busy()
    requires VerbOf(text) != H.Some(ABOR)
    ensures Unmoved(st, Step(c, st, Command(text, io)), text)
  {
    hide VerbOf, Dispatch;
    var n := FindCrlf(text);
    if n < |text| {
      var line := Line(text[..n + 2]);
      var code := DispatchRefuses(c, Emit(st, line), text, n + 2, io);
      assert Say(Emit(st, line), code).log == st.log + [line, Reply(code, "")];
    }
  }

  lemma DispatchRefuses(c: Config, st: St, text: string, len: nat, io: Io) returns (code: nat)
    requires IsLine(text, len)
    requires st.s.Busy() && VerbOf(text) != H.Some(ABOR)
    ensures code in {500, 501, 530} && Dispatch(c, st, text, len, io) == Say(st, code)
  {
    hide VerbOf, ScanLine, ArgOf, Execute, NeedsAuth, Args, Say;
    if ScanLine(text, 4) == "" || VerbOf(text).None? {
      code := 500;
    } else {
      VerbInsideLine(text, len);
      code := if NeedsAuth(VerbOf(text).value) && st.s.auth != Valid then 530 else 501;
    }
  }

  /** A line is answered at a gate, or gets to its handler. */
  lemma DispatchForks(c: Config, st: St, text: string, len: nat, io: Io) returns (code: nat, data: string)
    requires IsLine(text, len)
    ensures code in {500, 501, 530}
    ensures || Dispatch(c, st, text, len, io) == Say(st, code)
            || (VerbOf(text).Some? && (st.s.Busy() ==> VerbOf(text).value == ABOR)
                && Dispatch(c, st, text, len, io) == Execute(c, st, VerbOf(text).value, data, io))
  {
    hide VerbOf, ScanLine, ArgOf, Execute, NeedsAuth, Args, Say;
    code, data := 500, "";
    if ScanLine(text, 4) != "" && VerbOf(text).Some? {
      VerbInsideLine(text, len);
      var arg := ArgOf(text, len, VerbOf(text).value);
      code := if NeedsAuth(VerbOf(text).value) && st.s.auth != Valid then 530 else 501;
      data := if arg.Some? then arg.value else "";
    }
  }
}
