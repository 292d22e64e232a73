/**
  What travels over the data connection.  A download is described by the bytes it still
  owes, an upload by the bytes it has stored; each step of the engine moves bytes from one
  side to the other and loses or repeats none.
*/
module Transfers {
  import opened CText
  import opened Session
  import opened Conduct
  import N = NxFile

  // ------------------------------------------------------------------- what was seen

  /** All bytes sent and received on data connections, and the codes of all replies. */
  datatype Traffic = Traffic(sent: seq<byte>, received: seq<byte>, replies: seq<nat>)

  function Count(t: Traffic, e: Effect): Traffic {
    match e
    case Sent(d) => t.(sent := t.sent + d)
    case Received(d) => t.(received := t.received + d)
    case Reply(code, _) => t.(replies := t.replies + [code])
    case _ => t
  }

  function TrafficOf(log: seq<Effect>): Traffic {
    if log == [] then Traffic([], [], [])
    else Count(TrafficOf(log[..|log| - 1]), log[|log| - 1])
  }

  lemma TrafficEmit(st: St, e: Effect)
    ensures TrafficOf(Emit(st, e).log) == Count(TrafficOf(st.log), e)
  {
    assert (st.log + [e])[..|st.log|] == st.log;
  }

  lemma CloseConnectionTraffic(st: St)
    ensures TrafficOf(CloseConnection(st).log) == TrafficOf(st.log)
  {
    TrafficEmit(st, SocketClosed(st.s.dataSock));
    TrafficEmit(CloseData(st), SocketClosed(st.s.pasvSock));
  }

  lemma HandlesTraffic(c: Config, st: St, closing: seq<N.Fault>)
    ensures TrafficOf(DirClose(VfsClose(c, st, closing)).log) == TrafficOf(st.log)
  {
    TrafficEmit(st, FileClosed);
    TrafficEmit(VfsClose(c, st, closing), DirClosed);
  }

  lemma TransferEndTraffic(c: Config, st: St, closing: seq<N.Fault>)
    ensures TrafficOf(TransferEnd(c, st, closing).log) == TrafficOf(st.log)
  {
    CloseConnectionTraffic(st);
    HandlesTraffic(c, CloseConnection(st), closing);
  }

  /** What a finished transfer leaves behind, apart from its reply. */
  lemma FinishTraffic(c: Config, st: St, code: nat, closing: seq<N.Fault>)
    ensures var r := Finish(c, st, code, closing);
            && TrafficOf(r.log) == Count(TrafficOf(st.log), Reply(code, ""))
            && !r.s.Busy()
  {
    hide TransferEnd;
    TrafficEmit(st, Reply(code, ""));
    TransferEndTraffic(c, Say(st, code), closing);
    TransferEndIdle(c, Say(st, code), closing);
  }

  lemma TransferEndIdle(c: Config, st: St, closing: seq<N.Fault>)
    ensures !TransferEnd(c, st, closing).s.Busy()
  {
  }

  // ------------------------------------------------------------------ what is owed

  /** The lines a directory comes to, long or short, in the order of readdir. */
  function EntryLines(entries: seq<DirEntry>, path: string, nlist: bool): seq<CString> {
    if entries == [] then []
    else
      (if Examined(entries[0], path) then [EntryLine(entries[0], nlist)] else [])
      + EntryLines(entries[1..], path, nlist)
  }

  function DeviceLines(devices: seq<Mount>, nlist: bool): seq<CString> {
    if devices == [] then [] else [DeviceLine(devices[0], nlist)] + DeviceLines(devices[1..], nlist)
  }

  /** The bytes of those lines that fit. */
  function Render(lines: seq<CString>): seq<byte> {
    if lines == [] then []
    else (if Fits(lines[0]) then Printed(lines[0]) else []) + Render(lines[1..])
  }

  /**
    What goes out for the lines to come when nothing is pending.  An offset that was left
    over applies to the first line that fits: it is sent from there on, and with it what
    the buffer held behind it.
  */
  function Stream(lines: seq<CString>, buf: ListBuf, offset: nat): seq<byte> {
    if offset == 0 then Render(lines)
    else if lines == [] then []
    else
      var after := Overlay(buf, Terminated(lines[0]));
      if Fits(lines[0]) then ListBytes(after, offset, |lines[0]|) + Render(lines[1..])
      else Stream(lines[1..], after, offset)
  }

  function Pending(t: Transfer): seq<byte> {
    ListBytes(t.listBuf, t.offset, t.size)
  }

  function Tail(d: seq<byte>, n: nat): seq<byte> {
    if n <= |d| then d[n..] else []
  }

  /** The lines a listing has yet to render. */
  function Upcoming(c: Config, s: Session): seq<CString> {
    var t := s.transfer;
    if DeviceList(c, s.tempPath)
    then (if t.index <= |c.devices| then DeviceLines(c.devices[t.index..], t.mode.Nlst?) else [])
    else if t.dir.isValid then EntryLines(t.dir.entries, s.tempPath, t.mode.Nlst?)
    else []
  }

  /** The bytes behind the pending ones. */
  function Unread(c: Config, s: Session): seq<byte> {
    Stream(Upcoming(c, s), s.transfer.listBuf, if s.transfer.size > 0 then 0 else s.transfer.offset)
  }

  /** The bytes a download still has to deliver. */
  function Owed(c: Config, st: St): seq<byte> {
    match st.s.transfer.mode
    case Retr => Tail(Content(st.w.files, st.s.transfer.file.path), st.s.transfer.offset)
    case List => Pending(st.s.transfer) + Unread(c, st.s)
    case Nlst => Pending(st.s.transfer) + Unread(c, st.s)
    case Idle => []
    case Stor => []
  }

  /**
    A download in good order.  For RETR the file stands where the delivery stands and has
    the size it had when it was opened; a listing has a source.
  */
  ghost predicate Orderly(c: Config, st: St) {
    var t := st.s.transfer;
    if t.mode == Retr
    then t.file.off == t.offset && t.size == |Content(st.w.files, t.file.path)| && HandlesSound(c, st.s)
    else Listing(st.s) && ListingSound(c, st.s)
  }

  /**
    One call of the engine, from `st` to `r`: the download goes on and what has been sent
    and what is owed still add up; or it is complete with a 226 and everything owed has
    been sent; or it is aborted with a 426 and a prefix of it has.
  */
  ghost predicate Delivers(c: Config, st: St, r: St) {
    var a, b := TrafficOf(st.log), TrafficOf(r.log);
    && b.received == a.received
    && if r.s.Busy() then
         && b.replies == a.replies
         && r.s.transfer.mode == st.s.transfer.mode
         && Orderly(c, r)
         && a.sent <= b.sent
         && b.sent + Owed(c, r) == a.sent + Owed(c, st)
       else
         || (b.replies == a.replies + [226] && b.sent == a.sent + Owed(c, st))
         || (b.replies == a.replies + [426] && a.sent <= b.sent <= a.sent + Owed(c, st))
  }

  lemma AbortDelivers(c: Config, st: St, u: St, closing: seq<N.Fault>)
    requires TrafficOf(u.log) == TrafficOf(st.log)
    ensures Delivers(c, st, Finish(c, u, 426, closing))
  {
    hide Owed, Finish;
    FinishTraffic(c, u, 426, closing);
  }

  lemma CompleteDelivers(c: Config, st: St, u: St, closing: seq<N.Fault>)
    requires TrafficOf(u.log) == TrafficOf(st.log).(sent := TrafficOf(st.log).sent + Owed(c, st))
    ensures Delivers(c, st, Finish(c, u, 226, closing))
  {
    hide Owed, Finish;
    FinishTraffic(c, u, 226, closing);
  }

  /** Going on from a state in which nothing has been lost so far. */
  lemma DeliversVia(c: Config, st: St, u: St, r: St)
    requires TrafficOf(u.log).received == TrafficOf(st.log).received
    requires TrafficOf(u.log).replies == TrafficOf(st.log).replies
    requires TrafficOf(u.log).sent + Owed(c, u) == TrafficOf(st.log).sent + Owed(c, st)
    requires TrafficOf(st.log).sent <= TrafficOf(u.log).sent
    requires u.s.transfer.mode == st.s.transfer.mode
    requires Delivers(c, u, r)
    ensures Delivers(c, st, r)
  {
    hide Owed, TrafficOf, Orderly;
  }

  // ------------------------------------------------------------------------ RETR

  lemma RetrDelivers(c: Config, st: St, io: Io)
    requires st.s.transfer.mode == Retr && Orderly(c, st)
    ensures Delivers(c, st, RetrStep(c, st, io))
  {
    hide Finish, RetrSend;
    var t := st.s.transfer;
    var data := Content(st.w.files, t.file.path);
    if io.read.ReadFail? {
      AbortDelivers(c, st, st, io.closing);
    } else {
      var n := N.ReadCount(|data|, t.file.off, FILE_BUFFER_SIZE, io.read);
      if n == 0 {
        assert Owed(c, st) == [];
        CompleteDelivers(c, st, st, io.closing);
      } else {
        RetrSendDelivers(c, st, n, io);
      }
    }
  }

  lemma RetrSendDelivers(c: Config, st: St, n: nat, io: Io)
    requires st.s.transfer.mode == Retr && Orderly(c, st)
    requires n > 0 && st.s.transfer.file.off + n <= |Content(st.w.files, st.s.transfer.file.path)|
    ensures Delivers(c, st, RetrSend(c, st, n, io))
  {
    hide Finish;
    var t := st.s.transfer;
    var data := Content(st.w.files, t.file.path);
    match NextSend(io.sends)
    case SendBlocks =>
    case SendFails =>
      AbortDelivers(c, st, SetTransfer(st, t.(file := t.file.(off := t.file.off + n))), io.closing);
    case Took(count) =>
      var m := SendCount(count, n);
      var at := if m == n then t.file.off + n else t.offset + m;
      var d := data[t.file.off..t.file.off + m];
      var t' := t.(offset := t.offset + m, file := t.file.(off := at));
      assert Tail(data, t.offset) == d + Tail(data, t.offset + m);
      hide Tail, TrafficOf;
      FileSent(c, st, d, t');
      if t.offset + m == t.size {
        EndOwesNothing(data);
        CompleteDelivers(c, st, SetTransfer(Emit(st, Sent(d)), t'), io.closing);
      }
  }

  lemma EndOwesNothing(data: seq<byte>)
    ensures Tail(data, |data|) == []
  {
  }

  /** Bytes `d` of the file have gone out. */
  lemma FileSent(c: Config, st: St, d: seq<byte>, t': Transfer)
    requires st.s.transfer.mode == Retr && t'.mode == Retr && t'.file.path == st.s.transfer.file.path
    requires var data := Content(st.w.files, t'.file.path);
             Tail(data, st.s.transfer.offset) == d + Tail(data, t'.offset)
    ensures var u := SetTransfer(Emit(st, Sent(d)), t');
            var a, b := TrafficOf(st.log), TrafficOf(u.log);
            && b == a.(sent := a.sent + d)
            && b.sent + Owed(c, u) == a.sent + Owed(c, st)
  {
    TrafficEmit(st, Sent(d));
    hide TrafficOf, Tail;
    ConcatAssociative(TrafficOf(st.log).sent, d, Tail(Content(st.w.files, t'.file.path), t'.offset));
  }

  // --------------------------------------------------------------------- listings

  lemma ListBytesSplit(buf: seq<byte>, from: nat, n: nat, m: nat)
    requires m <= n
    ensures ListBytes(buf, from, n) == ListBytes(buf, from, m) + ListBytes(buf, from + m, n - m)
  {
  }

  /** A rendered line is pending: from end to end, unless an offset was left over. */
  lemma BuiltPending(t: Transfer, line: CString)
    requires t.size == 0 && Fits(line)
    ensures Pending(Build(t, line)) == ListBytes(Overlay(t.listBuf, Terminated(line)), t.offset, |line|)
    ensures t.offset == 0 ==> Pending(Build(t, line)) == Printed(line)
  {
  }

  lemma {:induction false} ListDelivers(c: Config, st: St, sends: seq<SendAnswer>, closing: seq<N.Fault>)
    requires Listing(st.s) && Orderly(c, st)
    ensures Delivers(c, st, ListStep(c, st, sends, closing))
    decreases LinesLeft(c, st.s.transfer), st.s.transfer.size
  {
    hide Finish, Examined, Delivers, Owed, TrafficOf;
    var t := st.s.transfer;
    if t.size > 0 {
      match NextSend(sends)
      case SendBlocks => WaitDelivers(c, st);
      case SendFails => AbortDelivers(c, st, st, closing);
      case Took(count) =>
        var m := SendCount(count, t.size);
        if m == t.size {
          var st2 := SetTransfer(Emit(st, Sent(ListBytes(t.listBuf, t.offset, m))), Drained(t));
          LineSentOwed(c, st);
          if !t.dir.isValid && (!DeviceList(c, st.s.tempPath) || t.index == |c.devices|) {
            CompleteDelivers(c, st, st2, closing);
          } else {
            ListDelivers(c, st2, RestSends(sends), closing);
            DeliversVia(c, st, st2, ListStep(c, st2, RestSends(sends), closing));
          }
        } else {
          PartSentDelivers(c, st, m);
        }
    } else if DeviceList(c, st.s.tempPath) {
      var u := SetTransfer(st, NextDevice(c, t));
      DeviceOwed(c, st);
      ListDelivers(c, u, sends, closing);
      DeliversVia(c, st, u, ListStep(c, u, sends, closing));
    } else if t.dir.entries == [] {
      NothingOwed(c, st);
      CompleteDelivers(c, st, st, closing);
    } else {
      var u := SetTransfer(st, NextEntry(t, st.s.tempPath));
      EntryOwed(c, st);
      ListDelivers(c, u, sends, closing);
      DeliversVia(c, st, u, ListStep(c, u, sends, closing));
    }
  }

  lemma WaitDelivers(c: Config, st: St)
    requires st.s.Busy() && Orderly(c, st)
    ensures Delivers(c, st, st)
  {
  }

  lemma NothingOwed(c: Config, st: St)
    requires Listing(st.s) && !DeviceList(c, st.s.tempPath)
    requires st.s.transfer.size == 0 && st.s.transfer.dir.entries == []
    ensures Owed(c, st) == []
  {
    assert Upcoming(c, st.s) == [];
    assert Pending(st.s.transfer) == [];
  }

  /** `t'` is `t` after some of its pending bytes have gone out. */
  ghost predicate Later(t: Transfer, t': Transfer) {
    && t' == t.(listBuf := t'.listBuf, offset := t'.offset, size := t'.size)
    && t.size > 0 && (t'.size > 0 || t'.offset == 0)
  }

  /** What is yet to be rendered does not depend on how far the pending line has got. */
  lemma UnreadSame(c: Config, s: Session, t': Transfer)
    requires Later(s.transfer, t')
    ensures var s' := s.(transfer := t');
            && Unread(c, s') == Unread(c, s)
            && (t'.size > 0 && ListingSound(c, s) ==> ListingSound(c, s'))
  {
    hide EntryLines, DeviceLines, Render;
  }

  /** Bytes `d` off the front of the pending line have gone out. */
  lemma PendingSent(c: Config, st: St, d: seq<byte>, t': Transfer)
    requires Listing(st.s) && Later(st.s.transfer, t') && Pending(st.s.transfer) == d + Pending(t')
    ensures var u := SetTransfer(Emit(st, Sent(d)), t');
            var a, b := TrafficOf(st.log), TrafficOf(u.log);
            && b == a.(sent := a.sent + d)
            && b.sent + Owed(c, u) == a.sent + Owed(c, st)
  {
    TrafficEmit(st, Sent(d));
    UnreadSame(c, st.s, t');
    hide Pending, Unread, TrafficOf;
    Reassociate(TrafficOf(st.log).sent, d, Pending(t'), Unread(c, st.s));
  }

  lemma Reassociate(a: seq<byte>, p: seq<byte>, q: seq<byte>, u: seq<byte>)
    ensures (a + p) + (q + u) == a + ((p + q) + u)
  {
  }

  /** A whole pending line has gone out. */
  lemma LineSentOwed(c: Config, st: St)
    requires Listing(st.s) && st.s.transfer.size > 0
    ensures var t := st.s.transfer;
            var st2 := SetTransfer(Emit(st, Sent(Pending(t))), Drained(t));
            var a, b := TrafficOf(st.log), TrafficOf(st2.log);
            && a.sent <= b.sent && b == a.(sent := b.sent)
            && b.sent + Owed(c, st2) == a.sent + Owed(c, st)
            && (!t.dir.isValid && (!DeviceList(c, st.s.tempPath) || t.index == |c.devices|) ==>
                  b.sent == a.sent + Owed(c, st))
  {
    var t := st.s.transfer;
    assert Pending(Drained(t)) == [];
    hide TrafficOf, Pending;
    PendingSent(c, st, Pending(t), Drained(t));
    if !t.dir.isValid && (!DeviceList(c, st.s.tempPath) || t.index == |c.devices|) {
      assert Unread(c, st.s) == [];
    }
  }

  /** Part of the pending line has gone out. */
  lemma PartSentDelivers(c: Config, st: St, m: nat)
    requires Listing(st.s) && Orderly(c, st) && m < st.s.transfer.size
    ensures var t := st.s.transfer;
            Delivers(c, st, SetTransfer(Emit(st, Sent(ListBytes(t.listBuf, t.offset, m))),
                                        t.(offset := t.offset + m, size := t.size - m)))
  {
    hide TrafficOf, ListBytes, Unread, Owed, ListingSound, Pending, DeviceList;
    var t := st.s.transfer;
    var t' := t.(offset := t.offset + m, size := t.size - m);
    var d := ListBytes(t.listBuf, t.offset, m);
    PendingSplit(t, m);
    PendingSent(c, st, d, t');
    UnreadSame(c, st.s, t');
  }

  lemma PendingSplit(t: Transfer, m: nat)
    requires m <= t.size
    ensures Pending(t) == ListBytes(t.listBuf, t.offset, m) + Pending(t.(offset := t.offset + m, size := t.size - m))
  {
    ListBytesSplit(t.listBuf, t.offset, t.size, m);
  }

  /** Rendering the next line: what was to come of it is pending now. */
  lemma RenderedOwed(t: Transfer, line: CString, rest: seq<CString>)
    requires t.size == 0
    ensures var u := Build(t, line);
            Stream([line] + rest, t.listBuf, t.offset) ==
            Pending(u) + Stream(rest, u.listBuf, if u.size > 0 then 0 else u.offset)
  {
    var u := Build(t, line);
    assert ([line] + rest)[1..] == rest;
    if Fits(line) {
      BuiltPending(t, line);
    } else {
      assert Pending(u) == [];
      assert [] + Stream(rest, u.listBuf, u.offset) == Stream(rest, u.listBuf, u.offset);
    }
  }

  lemma DeviceOwed(c: Config, st: St)
    requires Listing(st.s) && Orderly(c, st) && st.s.transfer.size == 0 && DeviceList(c, st.s.tempPath)
    ensures var t := st.s.transfer;
            var u := SetTransfer(st, NextDevice(c, t));
            Owed(c, u) == Owed(c, st) && Orderly(c, u)
  {
    var t := st.s.transfer;
    var line := DeviceLine(c.devices[t.index], t.mode.Nlst?);
    var rest := DeviceLines(c.devices[t.index + 1..], t.mode.Nlst?);
    assert c.devices[t.index..][1..] == c.devices[t.index + 1..];
    assert Upcoming(c, st.s) == [line] + rest;
    RenderedOwed(t.(index := t.index + 1), line, rest);
    assert Pending(t) == [];
    hide Stream, Pending, Terminated, Printed;
  }

  lemma EntryOwed(c: Config, st: St)
    requires Listing(st.s) && Orderly(c, st) && st.s.transfer.size == 0 && !DeviceList(c, st.s.tempPath)
    requires st.s.transfer.dir.entries != []
    ensures var t := st.s.transfer;
            var u := SetTransfer(st, NextEntry(t, st.s.tempPath));
            Owed(c, u) == Owed(c, st) && Orderly(c, u)
  {
    hide Examined;
    var t := st.s.transfer;
    var e := t.dir.entries[0];
    var t1 := t.(dir := t.dir.(entries := t.dir.entries[1..]));
    var rest := EntryLines(t1.dir.entries, st.s.tempPath, t.mode.Nlst?);
    assert Pending(t) == [] == Pending(t1);
    hide Stream, Pending, Terminated, Printed, EntryLine;
    if Examined(e, st.s.tempPath) {
      assert Upcoming(c, st.s) == [EntryLine(e, t.mode.Nlst?)] + rest;
      RenderedOwed(t1, EntryLine(e, t.mode.Nlst?), rest);
      assert Owed(c, st) == [] + Unread(c, st.s) == Unread(c, st.s);
    } else {
      assert Upcoming(c, st.s) == [] + rest == rest;
    }
  }

  /** Every step of a download delivers, whatever the reads and sends return. */
  lemma ProgressDelivers(c: Config, st: St, io: Io)
    requires (st.s.transfer.mode == Retr || Listing(st.s)) && Orderly(c, st)
    ensures Delivers(c, st, Progress(c, st, io))
  {
    hide Delivers, RetrStep, ListStep, Orderly;
    if st.s.transfer.mode == Retr { RetrDelivers(c, st, io); } else { ListDelivers(c, st, io.sends, io.closing); }
  }

  // ------------------------------------------------------------- how downloads start

  /** Opening and closing a file changes nothing in the transfer but its handle. */
  lemma VfsKeepsMarks(c: Config, st: St, path: string, mode: N.OpenMode, faults: seq<N.Fault>)
    ensures var o := VfsOpen(st, path, mode, faults).st.s.transfer; o == st.s.transfer.(file := o.file)
    ensures var d := VfsClose(c, st, faults).s.transfer; d == st.s.transfer.(file := d.file)
  {
  }

  /** A data connection, or its failure, leaves files, transfer and traffic as they were, but for the 150. */
  lemma DataOpenTraffic(st: St, io: Io)
    ensures var d := DataOpen(st, io).st;
            && d.w.files == st.w.files && d.s == st.s.(dataSock := d.s.dataSock)
            && TrafficOf(d.log) == Count(TrafficOf(st.log), Reply(150, ""))
  {
    hide Peer, TrafficOf;
    TrafficEmit(st, Reply(150, ""));
    TrafficEmit(Say(st, 150), DataSocket(io.socket, Peer(st.s)));
  }

  lemma VfsOpenTraffic(st: St, path: string, mode: N.OpenMode, faults: seq<N.Fault>)
    ensures TrafficOf(VfsOpen(st, path, mode, faults).st.log) == TrafficOf(st.log)
  {
    TrafficEmit(st, FileOpened(path, mode));
  }

  lemma OpenForReading(st: St, path: string, faults: seq<N.Fault>)
    ensures var o := VfsOpen(st, path, N.READ, faults);
            && o.st.w == st.w && o.st.s.transfer.mode == st.s.transfer.mode
            && (o.ok ==> && path in st.w.files
                         && o.st.s == st.s.(transfer := st.s.transfer.(file := Handle(path, true, 0, 0, []))))
  {
    var v := Mounted(st.w, st.s.transfer.file.(path := path), faults);
    assert N.Open(v, path in st.w.files, N.READ).v.data == v.data;
    assert path in st.w.files ==> st.w.files[path := v.data] == st.w.files;
  }

  /**
    A RETR that gets its connection owes the file from the restart marker on, the marker
    is used up, and nothing has been sent yet.
  */
  lemma RetrOwes(c: Config, st: St, data: string, io: Io)
    requires !st.s.Busy() && !st.s.transfer.dir.isValid
    requires CmdRetr(c, st, data, io).s.Busy()
    ensures var r := CmdRetr(c, st, data, io);
            var path := FixedPath(c, Resolve(st.s, ScanLine(data, PATH_LIMIT)).path);
            var start := if st.s.marker > 0 then st.s.marker else 0;
            && r.s.transfer.mode == Retr && r.s.transfer.file.path == path && path in st.w.files
            && Orderly(c, r) && r.w.files == st.w.files
            && Owed(c, r) == Tail(st.w.files[path], start)
            && r.s.marker <= 0
            && TrafficOf(r.log) == Count(TrafficOf(st.log), Reply(150, ""))
  {
    var arg := ScanLine(data, PATH_LIMIT);
    var b := Resolve(st.s, arg);
    var path := FixedPath(c, b.path);
    OpenForReading(st, path, io.faults);
    VfsOpenTraffic(st, path, N.READ, io.faults);
    hide VfsOpen;
    var o := VfsOpen(st, path, N.READ, io.faults);
    if arg != "" && b.ok && o.ok && io.fstatOk {
      RetrFromOwes(c, o.st, io);
    }
  }

  lemma RetrFromOwes(c: Config, st: St, io: Io)
    requires !st.s.Busy() && !st.s.transfer.dir.isValid
    requires st.s.transfer.file == Handle(st.s.transfer.file.path, true, 0, 0, [])
    ensures var r := RetrFrom(c, st, io);
            var start := if st.s.marker > 0 then st.s.marker else 0;
            r.s.Busy() ==>
              && r.s.transfer.mode == Retr && r.s.transfer.file.path == st.s.transfer.file.path
              && Orderly(c, r) && r.w.files == st.w.files
              && Owed(c, r) == Tail(Content(st.w.files, st.s.transfer.file.path), start)
              && r.s.marker <= 0
              && TrafficOf(r.log) == Count(TrafficOf(st.log), Reply(150, ""))
  {
    var p := Positioned(st, io);
    DataOpenTraffic(p.st, io);
    hide DataOpen;
  }

  /** A RETR that fails once the file is open leaves the file's size behind in an idle session. */
  lemma FailedRetrLeavesSize(c: Config, st: St, io: Io)
    requires !st.s.Busy() && !RetrFrom(c, st, io).s.Busy()
    ensures var t := RetrFrom(c, st, io).s.transfer;
            && t.size == |Content(st.w.files, st.s.transfer.file.path)|
            && t.offset == (if st.s.marker > 0 then st.s.marker else 0)
  {
    hide DataOpen, VfsClose, TrafficOf, Content;
    var p := Positioned(st, io).st;
    var d := DataOpen(p, io).st;
    DataOpenTraffic(p, io);
    VfsKeepsMarks(c, Say(p, 550), "", N.READ, io.closing);
    VfsKeepsMarks(c, Say(d, 425), "", N.READ, io.closing);
  }

  /** All lines of a listing of the path it was asked for, from a given source. */
  function AllLines(c: Config, path: string, entries: seq<DirEntry>, mode: Mode): seq<CString> {
    if DeviceList(c, path) then DeviceLines(c.devices, mode.Nlst?) else EntryLines(entries, path, mode.Nlst?)
  }

  /**
    When a left-over offset does no harm: there is none, or no line is rendered, or it lies
    behind the first rendered line and the buffer happens to hold that line's bytes there.
  */
  predicate Undisturbed(lines: seq<CString>, buf: ListBuf, offset: nat) {
    offset == 0 || lines == [] ||
    if Fits(lines[0]) then offset > |lines[0]| && ListBytes(buf, offset, |lines[0]|) == Printed(lines[0])
    else Undisturbed(lines[1..], Overlay(buf, Terminated(lines[0])), offset)
  }

  /** Sent from a left-over offset on, a line is itself only by coincidence. */
  lemma LineSurvives(buf: ListBuf, line: CString, offset: nat)
    requires Fits(line)
    ensures ListBytes(Overlay(buf, Terminated(line)), offset, |line|) == Printed(line) <==>
            offset == 0 || (offset > |line| && ListBytes(buf, offset, |line|) == Printed(line))
  {
    var sent := ListBytes(Overlay(buf, Terminated(line)), offset, |line|);
    var last := |Terminated(line)| - 1;
    if offset == 0 {
      assert sent == Printed(line);
    } else if offset <= last {
      assert sent[last - offset] == NUL;
      assert Printed(line)[last - offset] == line[last - offset] && line[last - offset] in line;
    } else if offset == |line| {
      assert sent[0] == NUL;
      assert Printed(line)[0] == line[0] && line[0] in line;
    } else {
      assert sent == ListBytes(buf, offset, |line|);
    }
  }

  lemma {:induction false} StreamExact(lines: seq<CString>, buf: ListBuf, offset: nat)
    ensures Stream(lines, buf, offset) == Render(lines) <==> Undisturbed(lines, buf, offset)
  {
    hide Terminated, Printed, ListBytes;
    if offset > 0 && lines != [] {
      if Fits(lines[0]) {
        LineSurvives(buf, lines[0], offset);
        PrintedExact(lines[0]);
        var pending := ListBytes(Overlay(buf, Terminated(lines[0])), offset, |lines[0]|);
        SameTail(pending, Printed(lines[0]), Render(lines[1..]));
      } else {
        StreamExact(lines[1..], Overlay(buf, Terminated(lines[0])), offset);
        assert [] + Render(lines[1..]) == Render(lines[1..]);
      }
    }
  }

  lemma SameTail(a: seq<byte>, b: seq<byte>, t: seq<byte>)
    requires |a| == |b|
    ensures a + t == b + t <==> a == b
  {
    assert (a + t)[..|a|] == a && (b + t)[..|b|] == b;
  }

  /** Nothing that an earlier transfer left behind gets into a listing of these lines. */
  predicate Clean(t: Transfer, lines: seq<CString>) {
    t.size == 0 && Undisturbed(lines, t.listBuf, t.offset)
  }

  /** What a listing owes that starts with the transfer fields as they are in `t`. */
  function Promised(t: Transfer, lines: seq<CString>): seq<byte> {
    Pending(t) + Stream(lines, t.listBuf, if t.size > 0 then 0 else t.offset)
  }

  /**
    A listing of a directory or of the devices owes what was left pending by an earlier
    transfer that failed to start, and then its lines, the first of them from the offset
    that was left.  That is the listing if and only if nothing was left pending and the
    offset does no harm.
  */
  lemma ListOwes(c: Config, st: St, mode: Mode, io: Io)
    requires !st.s.Busy() && (mode == List || mode == Nlst)
    requires DeviceList(c, st.s.tempPath) ==> !st.s.transfer.dir.isValid
    ensures var r := if DeviceList(c, st.s.tempPath) then ListDevices(st, mode, io) else ListDir(st, mode, io);
            var t := st.s.transfer;
            var lines := AllLines(c, st.s.tempPath, io.entries, mode);
            r.s.Busy() ==>
              && TrafficOf(r.log) == Count(TrafficOf(st.log), Reply(150, ""))
              && Orderly(c, r)
              && Owed(c, r) == Promised(t, lines)
              && (Owed(c, r) == Render(lines) <==> Clean(t, lines))
  {
    var t := st.s.transfer;
    ListPromise(t, AllLines(c, st.s.tempPath, io.entries, mode));
    if DeviceList(c, st.s.tempPath) {
      DataOpenTraffic(st, io);
      hide DataOpen;
      ListBegins(c, DataOpen(st, io).st, mode, [], t.(index := 0));
    } else {
      var u := t.(dir := Dir(true, io.entries));
      var o := Emit(SetTransfer(st, u), DirOpened(st.s.tempPath));
      TrafficEmit(SetTransfer(st, u), DirOpened(st.s.tempPath));
      DataOpenTraffic(o, io);
      hide DataOpen;
      ListBegins(c, DataOpen(o, io).st, mode, io.entries, u);
    }
    hide Owed, Stream, TrafficOf, Clean, Render, Pending, Orderly;
  }

  lemma ListBegins(c: Config, st: St, mode: Mode, entries: seq<DirEntry>, t: Transfer)
    requires mode == List || mode == Nlst
    requires if DeviceList(c, st.s.tempPath) then t.index == 0 && !t.dir.isValid else t.dir == Dir(true, entries)
    ensures var r := SetTransfer(st, t.(mode := mode));
            && Orderly(c, r)
            && Owed(c, r) == Promised(t, AllLines(c, st.s.tempPath, entries, mode))
  {
    var r := SetTransfer(st, t.(mode := mode));
    assert c.devices[0..] == c.devices;
    assert Upcoming(c, r.s) == AllLines(c, st.s.tempPath, entries, mode);
    assert Pending(r.s.transfer) == Pending(t);
    hide Stream, Pending, EntryLines, DeviceLines;
  }

  lemma ListPromise(t: Transfer, lines: seq<CString>)
    ensures Promised(t, lines) == Render(lines) <==> Clean(t, lines)
  {
    var rest := Stream(lines, t.listBuf, if t.size > 0 then 0 else t.offset);
    assert |Pending(t) + rest| == t.size + |rest|;
    if t.size == 0 {
      assert Pending(t) + rest == rest;
      StreamExact(lines, t.listBuf, t.offset);
    }
    hide Render, Undisturbed, Pending;
  }

  /** The listing of one file promises its line if and only if a left-over offset does no harm to it. */
  lemma ListFileOwes(c: Config, st: St, io: Io)
    requires !st.s.Busy() && !st.s.transfer.file.isValid && !st.s.transfer.dir.isValid
    requires !DeviceList(c, st.s.tempPath)
    requires ListFile(st, io).s.Busy()
    ensures var r := ListFile(st, io);
            var t := st.s.transfer;
            && Orderly(c, r)
            && Owed(c, r) == ListBytes(Overlay(t.listBuf, Terminated(io.line)), t.offset, |io.line|)
            && (Owed(c, r) == Printed(io.line) <==> Undisturbed([io.line], t.listBuf, t.offset))
  {
    var u := SetTransfer(st, Build(st.s.transfer, io.line));
    DataOpenTraffic(u, io);
    LineSurvives(st.s.transfer.listBuf, io.line, st.s.transfer.offset);
    hide DataOpen, Terminated, Printed, ListBytes;
    var r := ListFile(st, io);
    assert Upcoming(c, r.s) == [];
    assert Unread(c, r.s) == [];
    assert Pending(r.s.transfer) + [] == Pending(r.s.transfer);
  }

  /** A line of up to 1023 characters is sent as it is; one of exactly 1024 loses its last. */
  lemma PrintedExact(line: CString)
    requires Fits(line)
    ensures |Printed(line)| == |line|
    ensures Printed(line) == line <==> |line| < LIST_BUF_SIZE
  {
    if |line| == LIST_BUF_SIZE {
      assert Printed(line)[LIST_BUF_SIZE - 1] == NUL;
      assert line == line[..LIST_BUF_SIZE - 1] + [line[LIST_BUF_SIZE - 1]];
    }
  }

  // --------------------------------------------------------------------- uploads

  /** What the upload in progress has stored so far. */
  ghost function StoredAt(st: St): seq<byte> {
    N.Stored(Mounted(st.w, st.s.transfer.file, []))
  }

  /** An upload whose handle belongs to an existing file and is in order. */
  ghost predicate Storing(c: Config, st: St) {
    var h := st.s.transfer.file;
    st.s.transfer.mode == Stor && h.path in st.w.files && N.Writer(c.build, Mounted(st.w, h, []))
  }

  lemma WriteStores(build: N.Build, v: N.Vfs, b: seq<byte>)
    requires N.Writer(build, v)
    ensures var r := N.Write(build, v, b);
            && N.Writer(build, r.v)
            && N.Stored(v) <= N.Stored(r.v) <= N.Stored(v) + b
            && (r.ok ==> N.Stored(r.v) == N.Stored(v) + b)
            && (build.Chunked? && !r.ok ==> N.Stored(r.v) == N.Stored(v))
  {
    if build.Buffered? { N.BufferedAppends(v, b); } else { N.ChunkedAppends(v, b); }
  }

  /** A session that opens a file for an upload starts from nothing, or from the old contents. */
  lemma StorStarts(c: Config, st: St, data: string, io: Io)
    requires !st.s.Busy() && CmdStor(c, st, data, io).s.Busy()
    ensures var r := CmdStor(c, st, data, io);
            var path := FixedPath(c, Resolve(st.s, ScanLine(data, PATH_LIMIT)).path);
            && Storing(c, r) && r.s.transfer.file.path == path
            && StoredAt(r) == (if st.s.marker == -1 then Content(st.w.files, path) else [])
            && TrafficOf(r.log) == Count(TrafficOf(st.log), Reply(150, ""))
  {
    var append := st.s.marker == -1;
    var mode := if append then N.APPEND else N.WRITE;
    var st1 := if append then st.(s := st.s.(marker := 0)) else st;
    var path := FixedPath(c, Resolve(st1.s, ScanLine(data, PATH_LIMIT)).path);
    OpenForWriting(c, st1, path, mode, io.faults);
    VfsOpenTraffic(st1, path, mode, io.faults);
    var o := VfsOpen(st1, path, mode, io.faults);
    hide VfsOpen, StoredAt;
    DataOpenTraffic(o.st, io);
    hide DataOpen;
    var d := DataOpen(o.st, io);
    var r := SetTransfer(d.st, d.st.s.transfer.(mode := Stor));
    assert StoredAt(r) == StoredAt(o.st) by { SameStored(o.st, r); }
  }

  lemma SameStored(st: St, r: St)
    requires r.w.files == st.w.files && r.s.transfer.file == st.s.transfer.file
    ensures StoredAt(r) == StoredAt(st)
  {
  }

  lemma OpenForWriting(c: Config, st: St, path: string, mode: N.OpenMode, faults: seq<N.Fault>)
    requires mode != N.READ && VfsOpen(st, path, mode, faults).ok
    ensures var o := VfsOpen(st, path, mode, faults).st;
            var h := o.s.transfer.file;
            && h.path == path && path in o.w.files
            && N.Writer(c.build, Mounted(o.w, h, []))
            && StoredAt(o) == (if mode == N.APPEND then Content(st.w.files, path) else [])
            && o.s == st.s.(transfer := st.s.transfer.(file := h))
  {
    var v := Mounted(st.w, st.s.transfer.file.(path := path), faults);
    var r := N.Open(v, path in st.w.files, mode);
    N.OpenedForWriting(c.build, v, path in st.w.files, mode);
    var o := VfsOpen(st, path, mode, faults).st;
    assert Mounted(o.w, o.s.transfer.file, []) == r.v.(faults := []);
  }

  /** Putting a written handle back: what it has stored is what the session has stored. */
  lemma UnmountStores(c: Config, st: St, v: N.Vfs)
    requires st.s.transfer.mode == Stor && st.s.transfer.file.path in st.w.files && N.Writer(c.build, v)
    ensures var u := Unmount(st, st.s.transfer.file.path, v);
            Storing(c, u) && StoredAt(u) == N.Stored(v)
  {
    var u := Unmount(st, st.s.transfer.file.path, v);
    assert Mounted(u.w, u.s.transfer.file, []) == v.(faults := []);
  }

  /** A chunk that arrives and is written is stored behind all that came before it. */
  lemma ChunkStored(c: Config, st: St, io: Io)
    requires Storing(c, st) && io.recv.Got? && Chunk(io.recv.data) != [] && StorStep(c, st, io).s.Busy()
    ensures var r := StorStep(c, st, io);
            var b := Chunk(io.recv.data);
            && Storing(c, r) && r.s.transfer.file.path == st.s.transfer.file.path
            && StoredAt(r) == StoredAt(st) + b
            && r.s.transfer.offset == st.s.transfer.offset + |b|
            && TrafficOf(r.log) == Count(TrafficOf(st.log), Received(b))
  {
    hide Finish, N.Write, N.Stored;
    var t := st.s.transfer;
    var b := Chunk(io.recv.data);
    var v := Mounted(st.w, t.file, io.faults);
    assert N.Stored(v) == StoredAt(st) by { StoredIgnoresFaults(v, []); }
    WriteStores(c.build, v, b);
    TrafficEmit(st, Received(b));
    var e := Emit(st, Received(b));
    var w := N.Write(c.build, v, b);
    UnmountStores(c, e, w.v);
    FinishTraffic(c, Unmount(e, t.file.path, w.v), 426, io.closing);
  }

  lemma StoredIgnoresFaults(v: N.Vfs, faults: seq<N.Fault>)
    ensures N.Stored(v.(faults := faults)) == N.Stored(v)
  {
  }

  /** Ending a transfer writes to no file but the one its handle has open. */
  lemma EndFiles(c: Config, st: St, closing: seq<N.Fault>)
    requires st.s.transfer.file.isValid && st.s.transfer.file.path in st.w.files
    ensures var h := st.s.transfer.file;
            TransferEnd(c, st, closing).w.files
            == st.w.files[h.path := N.Close(c.build, Mounted(st.w, h, closing)).data]
  {
    var h := st.s.transfer.file;
    var a := CloseConnection(st);
    assert a.w.files == st.w.files && a.s.transfer == st.s.transfer;
    hide CloseConnection, N.Close;
    assert Mounted(a.w, h, closing) == Mounted(st.w, h, closing);
    var v := VfsClose(c, a, closing);
    assert v.w.files == st.w.files[h.path := N.Close(c.build, Mounted(st.w, h, closing)).data];
    hide VfsClose;
    assert DirClose(v).w.files == v.w.files;
  }

  lemma FinishFiles(c: Config, st: St, code: nat, closing: seq<N.Fault>)
    requires st.s.transfer.file.isValid && st.s.transfer.file.path in st.w.files
    ensures var h := st.s.transfer.file;
            Finish(c, st, code, closing).w.files
            == st.w.files[h.path := N.Close(c.build, Mounted(st.w, h, closing)).data]
  {
    hide TransferEnd, N.Close;
    EndFiles(c, Say(st, code), closing);
  }

  /**
    The end of the stream is answered with a 226 before the file is closed.  The file then
    holds exactly what was stored if and only if the calls of the close turn out well.
  */
  lemma UploadCompletes(c: Config, st: St, io: Io)
    requires Storing(c, st) && io.recv.Got? && Chunk(io.recv.data) == []
    ensures var r := StorStep(c, st, io);
            && !r.s.Busy() && st.s.transfer.file.path in r.w.files
            && TrafficOf(r.log) == Count(TrafficOf(st.log), Reply(226, ""))
            && (forall p | p in st.w.files && p != st.s.transfer.file.path ::
                  p in r.w.files && r.w.files[p] == st.w.files[p])
            && (Content(r.w.files, st.s.transfer.file.path) == StoredAt(st) <==>
                  N.CloseKeeps(c.build, Mounted(st.w, st.s.transfer.file, io.closing)))
  {
    var h := st.s.transfer.file;
    var v := Mounted(st.w, h, io.closing);
    FinishTraffic(c, st, 226, io.closing);
    FinishFiles(c, st, 226, io.closing);
    StoredIgnoresFaults(v, []);
    N.CloseExact(c.build, v);
    hide N.CloseKeeps, N.Close, Finish, TrafficOf, N.Stored;
  }

  /**
    A receive that would block makes the engine seek to the number of bytes received.
    What was stored survives that exactly when the handle stands there already: not behind
    contents the file was opened with, not behind bytes still in the write buffer, and not
    before an offset left over from an earlier transfer.
  */
  lemma BlockedUpload(c: Config, st: St, io: Io)
    requires Storing(c, st) && io.recv.RecvBlocks?
    ensures StoredAt(StorStep(c, st, io)) == StoredAt(st) <==> st.s.transfer.file.off == st.s.transfer.offset
    ensures st.s.transfer.file.off == st.s.transfer.offset ==> StorStep(c, st, io) == st
  {
    N.BlockedUploadSeek(c.build, Mounted(st.w, st.s.transfer.file, []), st.s.transfer.offset);
  }
}
