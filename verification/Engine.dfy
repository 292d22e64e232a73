/**
  What one call of the transfer engine comes to, by the answers of the calls it makes: which
  bytes go out or are stored, whether the transfer goes on, and what the client is told
  (src/ftpsrv.c, lines 492 to 631).
*/
module Engine {
  import opened CText
  import opened Session
  import opened Monitor
  import opened Conduct
  import opened Transfers
  import N = NxFile

  /** A call that is asked for `most` bytes handles one at least, and no more than it is granted. */
  function Portion(granted: nat, most: nat): nat {
    if granted == 0 then 1 else if granted < most then granted else most
  }

  /**
    The transfer of `st` is over in `r`, and the client has been told so with one reply:
    its handles and all sockets but the control connection are closed.
  */
  ghost predicate Ended(st: St, r: St, code: nat) {
    && !r.s.Busy() && r.s.conn.NoConnection? && r.s.dataSock <= 0 && r.s.pasvSock <= 0
    && !r.s.transfer.file.isValid && !r.s.transfer.dir.isValid
    && r.w.fds == st.w.fds - Own(st.s.dataSock) - Own(st.s.pasvSock)
    && TrafficOf(r.log).replies == TrafficOf(st.log).replies + [code]
  }

  /** Nothing but files and marks has changed on the way from `st` to `u`. */
  ghost predicate Connected(st: St, u: St) {
    && u.w.fds == st.w.fds && u.s.dataSock == st.s.dataSock && u.s.pasvSock == st.s.pasvSock
    && TrafficOf(u.log).replies == TrafficOf(st.log).replies
    && SocketsSound(u.s, u.w.fds)
  }

  lemma FinishEnds(c: Config, st: St, u: St, code: nat, closing: seq<N.Fault>)
    requires Connected(st, u)
    ensures var r := Finish(c, u, code, closing);
            && Ended(st, r, code)
            && TrafficOf(r.log).sent == TrafficOf(u.log).sent
            && TrafficOf(r.log).received == TrafficOf(u.log).received
  {
    hide TransferEnd, TrafficOf;
    FinishTraffic(c, u, code, closing);
    TransferEndSound(c, Say(u, code), closing);
  }

  // ------------------------------------------------------------------------------ RETR

  /** What `r` is after one call of the engine for the download of a file in `st`. */
  ghost predicate RetrCalled(c: Config, st: St, io: Io, r: St) {
    var a, b, left := TrafficOf(st.log), TrafficOf(r.log), Owed(c, st);
    if io.read.ReadFail? then Ended(st, r, 426) && b.sent == a.sent
    else if left == [] then Ended(st, r, 226) && b.sent == a.sent
    else
      var n := Portion(io.read.count, if |left| < 65536 then |left| else 65536);
      match NextSend(io.sends)
      case SendBlocks => r == st
      case SendFails => Ended(st, r, 426) && b.sent == a.sent
      case Took(count) =>
        var m := Portion(count, n);
        && m <= |left| && b.sent == a.sent + left[..m]
        && if m == |left| then Ended(st, r, 226)
           else r.s.Busy() && b.replies == a.replies && Owed(c, r) == left[m..]
  }

  /**
    One call for a RETR.  It reads at most a buffer of 65536 bytes and sends as much of that
    as the client takes.  A send that would block leaves everything as it was; a read or a
    send that fails ends the transfer with a 426 and nothing else does; the last byte ends it
    with a 226.
  */
  lemma RetrCall(c: Config, st: St, io: Io)
    requires Good(c, st) && st.s.transfer.mode == Retr && Orderly(c, st)
    ensures RetrCalled(c, st, io, Progress(c, st, io))
    ensures Ended(st, Progress(c, st, io), 426) <==>
            io.read.ReadFail? || (Owed(c, st) != [] && NextSend(io.sends).SendFails?)
    ensures TrafficOf(Progress(c, st, io).log).received == TrafficOf(st.log).received
  {
    hide Finish, RetrStep, Good, TrafficOf, RetrCalled, Ended, Orderly, Owed;
    GoodSockets(c, st);
    RetrStepCall(c, st, io);
    RetrVerdict(c, st, io, RetrStep(c, st, io));
  }

  lemma GoodSockets(c: Config, st: St)
    requires Good(c, st)
    ensures SocketsSound(st.s, st.w.fds)
  {
  }

  lemma RetrStepCall(c: Config, st: St, io: Io)
    requires SocketsSound(st.s, st.w.fds) && st.s.transfer.mode == Retr && Orderly(c, st)
    ensures RetrCalled(c, st, io, RetrStep(c, st, io))
    ensures TrafficOf(RetrStep(c, st, io).log).received == TrafficOf(st.log).received
  {
    hide Finish, RetrSend, TrafficOf, Ended, SocketsSound, HandlesSound;
    var t := st.s.transfer;
    var data := Content(st.w.files, t.file.path);
    if io.read.ReadFail? {
      FinishEnds(c, st, st, 426, io.closing);
    } else {
      var n := N.ReadCount(|data|, t.file.off, FILE_BUFFER_SIZE, io.read);
      if n == 0 {
        FinishEnds(c, st, st, 226, io.closing);
      } else {
        RetrSendCall(c, st, n, io);
      }
    }
  }

  lemma RetrVerdict(c: Config, st: St, io: Io, r: St)
    requires RetrCalled(c, st, io, r) && st.s.Busy()
    ensures Ended(st, r, 426) <==> io.read.ReadFail? || (Owed(c, st) != [] && NextSend(io.sends).SendFails?)
  {
    hide TrafficOf, Owed;
    OneCode(TrafficOf(st.log).replies, 226, 426);
  }

  lemma OneCode(codes: seq<nat>, a: nat, b: nat)
    ensures codes + [a] == codes + [b] <==> a == b
  {
    assert (codes + [a])[|codes|] == a && (codes + [b])[|codes|] == b;
  }

  /** Progress of a running transfer leaves its sockets alone. */
  lemma StillConnected(st: St, u: St)
    requires SocketsSound(st.s, st.w.fds) && st.s.Busy() && u.s.Busy()
    requires u.s == st.s.(transfer := u.s.transfer) && u.w.fds == st.w.fds
    requires TrafficOf(u.log).replies == TrafficOf(st.log).replies
    ensures Connected(st, u) && SocketsSound(u.s, u.w.fds)
  {
    hide TrafficOf;
  }

  lemma RetrSendCall(c: Config, st: St, n: nat, io: Io)
    requires SocketsSound(st.s, st.w.fds) && st.s.transfer.mode == Retr && Orderly(c, st) && io.read.ReadUpTo?
    requires n > 0 && n == N.ReadCount(|Content(st.w.files, st.s.transfer.file.path)|, st.s.transfer.file.off,
                                       FILE_BUFFER_SIZE, io.read)
    ensures RetrCalled(c, st, io, RetrSend(c, st, n, io))
    ensures TrafficOf(RetrSend(c, st, n, io).log).received == TrafficOf(st.log).received
  {
    hide Finish, TrafficOf, Ended, Connected, SocketsSound, HandlesSound;
    var t := st.s.transfer;
    match NextSend(io.sends)
    case SendBlocks => assert RetrSend(c, st, n, io) == st;
    case SendFails =>
      var u := SetTransfer(st, t.(file := t.file.(off := t.file.off + n)));
      StillConnected(st, u);
      FinishEnds(c, st, u, 426, io.closing);
    case Took(count) => RetrTookCall(c, st, n, io);
  }

  lemma RetrTookCall(c: Config, st: St, n: nat, io: Io)
    requires SocketsSound(st.s, st.w.fds) && st.s.transfer.mode == Retr && Orderly(c, st) && io.read.ReadUpTo?
    requires n > 0 && n == N.ReadCount(|Content(st.w.files, st.s.transfer.file.path)|, st.s.transfer.file.off,
                                       FILE_BUFFER_SIZE, io.read)
    requires NextSend(io.sends).Took?
    ensures RetrCalled(c, st, io, RetrSend(c, st, n, io))
    ensures TrafficOf(RetrSend(c, st, n, io).log).received == TrafficOf(st.log).received
  {
    hide Finish, TrafficOf, Ended, Connected, SocketsSound, HandlesSound;
    var t := st.s.transfer;
    var data := Content(st.w.files, t.file.path);
    var m := SendCount(NextSend(io.sends).count, n);
    var at := if m == n then t.file.off + n else t.offset + m;
    var d := data[t.file.off..t.file.off + m];
    var u := SetTransfer(Emit(st, Sent(d)), t.(offset := t.offset + m, file := t.file.(off := at)));
    TrafficEmit(st, Sent(d));
    assert d == Owed(c, st)[..m] && Owed(c, u) == Owed(c, st)[m..];
    StillConnected(st, u);
    FinishEnds(c, st, u, 226, io.closing);
  }

  // -------------------------------------------------------------------------- listings

  datatype Outcome = Waits | Fails | Ends

  /**
    Sending texts one after the other: it waits where a send blocks or takes less than the
    whole text, fails where a send fails, and ends behind the last.
  */
  function Drive(texts: seq<seq<byte>>, sends: seq<SendAnswer>): (seq<byte>, Outcome) {
    if texts == [] then ([], Ends)
    else
      match NextSend(sends)
      case SendBlocks => ([], Waits)
      case SendFails => ([], Fails)
      case Took(count) =>
        var m := Portion(count, |texts[0]|);
        if m < |texts[0]| then (texts[0][..m], Waits)
        else
          var (more, o) := Drive(texts[1..], RestSends(sends));
          (texts[0] + more, o)
  }

  /** The lines that fit, as they go out. */
  function Wholes(lines: seq<CString>): seq<seq<byte>> {
    if lines == [] then []
    else (if Fits(lines[0]) then [Printed(lines[0])] else []) + Wholes(lines[1..])
  }

  /** The same when an offset has been left over: it applies to the first that fits. */
  function Cut(lines: seq<CString>, buf: ListBuf, offset: nat): seq<seq<byte>> {
    if offset == 0 then Wholes(lines)
    else if lines == [] then []
    else
      var after := Overlay(buf, Terminated(lines[0]));
      if Fits(lines[0]) then [ListBytes(after, offset, |lines[0]|)] + Wholes(lines[1..])
      else Cut(lines[1..], after, offset)
  }

  /** What a listing has yet to send, text by text: the pending one, then a text for each line. */
  function Texts(c: Config, s: Session): seq<seq<byte>> {
    var t := s.transfer;
    if t.size > 0 then [Pending(t)] + Wholes(Upcoming(c, s)) else Cut(Upcoming(c, s), t.listBuf, t.offset)
  }

  lemma {:induction false} WholesFlat(lines: seq<CString>)
    ensures Flatten(Wholes(lines)) == Render(lines)
  {
    if lines != [] {
      WholesFlat(lines[1..]);
      if Fits(lines[0]) {
        FlattenCons(Printed(lines[0]), Wholes(lines[1..]));
      } else {
        assert [] + Wholes(lines[1..]) == Wholes(lines[1..]);
        assert [] + Render(lines[1..]) == Render(lines[1..]);
      }
    }
  }

  lemma {:induction false} CutFlat(lines: seq<CString>, buf: ListBuf, offset: nat)
    ensures Flatten(Cut(lines, buf, offset)) == Stream(lines, buf, offset)
    decreases |lines|
  {
    hide Overlay, Terminated, Render;
    if offset == 0 {
      WholesFlat(lines);
    } else if lines != [] {
      var after := Overlay(buf, Terminated(lines[0]));
      if Fits(lines[0]) {
        WholesFlat(lines[1..]);
        FlattenCons(ListBytes(after, offset, |lines[0]|), Wholes(lines[1..]));
      } else {
        CutFlat(lines[1..], after, offset);
      }
    }
  }

  /** Together the texts are what the listing owes. */
  lemma TextsOwed(c: Config, st: St)
    requires Listing(st.s)
    ensures Flatten(Texts(c, st.s)) == Owed(c, st)
  {
    hide Upcoming, Stream, Wholes, Render;
    var t := st.s.transfer;
    var lines := Upcoming(c, st.s);
    if t.size > 0 {
      WholesFlat(lines);
      FlattenCons(Pending(t), Wholes(lines));
      assert Stream(lines, t.listBuf, 0) == Render(lines) by { StreamWhole(lines, t.listBuf); }
    } else {
      CutFlat(lines, t.listBuf, t.offset);
      assert Pending(t) == [];
      assert [] + Unread(c, st.s) == Unread(c, st.s);
    }
  }

  lemma StreamWhole(lines: seq<CString>, buf: ListBuf)
    ensures Stream(lines, buf, 0) == Render(lines)
  {
    hide Render;
  }

  /** Rendering the next line changes nothing in the texts. */
  lemma RenderedTexts(t: Transfer, line: CString, rest: seq<CString>)
    requires t.size == 0
    ensures var u := Build(t, line);
            Cut([line] + rest, t.listBuf, t.offset) ==
            (if u.size > 0 then [Pending(u)] + Wholes(rest) else Cut(rest, u.listBuf, u.offset))
  {
    var u := Build(t, line);
    assert ([line] + rest)[1..] == rest;
    hide Overlay, Terminated;
    if Fits(line) {
      BuiltTexts(t, line);
    } else {
      assert [] + Wholes(rest) == Wholes(rest);
    }
  }

  lemma BuiltTexts(t: Transfer, line: CString)
    requires t.size == 0 && Fits(line)
    ensures Pending(Build(t, line)) ==
            if t.offset == 0 then Printed(line) else ListBytes(Overlay(t.listBuf, Terminated(line)), t.offset, |line|)
  {
    BuiltPending(t, line);
  }

  lemma DeviceTexts(c: Config, st: St)
    requires Listing(st.s) && Orderly(c, st) && st.s.transfer.size == 0 && DeviceList(c, st.s.tempPath)
    ensures Texts(c, SetTransfer(st, NextDevice(c, st.s.transfer)).s) == Texts(c, st.s)
  {
    hide Cut, Wholes, Pending, Terminated, Overlay, Printed, DeviceLine, Fits;
    var t := st.s.transfer;
    var line := DeviceLine(c.devices[t.index], t.mode.Nlst?);
    var rest := DeviceLines(c.devices[t.index + 1..], t.mode.Nlst?);
    assert c.devices[t.index..][1..] == c.devices[t.index + 1..];
    assert Upcoming(c, st.s) == [line] + rest;
    RenderedTexts(t.(index := t.index + 1), line, rest);
  }

  lemma EntryTexts(c: Config, st: St)
    requires Listing(st.s) && Orderly(c, st) && st.s.transfer.size == 0 && !DeviceList(c, st.s.tempPath)
    requires st.s.transfer.dir.entries != []
    ensures Texts(c, SetTransfer(st, NextEntry(st.s.transfer, st.s.tempPath)).s) == Texts(c, st.s)
  {
    hide Examined, Cut, Wholes, Pending, Terminated, Overlay, Printed, EntryLine, Fits;
    var t := st.s.transfer;
    var e := t.dir.entries[0];
    var t1 := t.(dir := t.dir.(entries := t.dir.entries[1..]));
    var rest := EntryLines(t1.dir.entries, st.s.tempPath, t.mode.Nlst?);
    if Examined(e, st.s.tempPath) {
      assert Upcoming(c, st.s) == [EntryLine(e, t.mode.Nlst?)] + rest;
      RenderedTexts(t1, EntryLine(e, t.mode.Nlst?), rest);
    } else {
      assert Upcoming(c, st.s) == [] + rest == rest;
    }
  }

  /** Once the pending text is out, the rest remains. */
  lemma DrainedTexts(c: Config, s: Session)
    requires s.transfer.size > 0
    ensures Texts(c, s) == [Pending(s.transfer)] + Texts(c, s.(transfer := Drained(s.transfer)))
    ensures Pending(s.transfer) != []
  {
    hide Wholes, Overlay, EntryLines, DeviceLines;
  }

  /** What `r` is after one call of the engine for a listing in `st`. */
  ghost predicate ListCalled(c: Config, st: St, sends: seq<SendAnswer>, r: St) {
    var a, b := TrafficOf(st.log), TrafficOf(r.log);
    var (out, o) := Drive(Texts(c, st.s), sends);
    && b.received == a.received && b.sent == a.sent + out
    && match o
       case Waits => r.s.Busy() && b.replies == a.replies
       case Fails => Ended(st, r, 426)
       case Ends => Ended(st, r, 226)
  }

  /**
    One call for a listing sends the texts of its lines one after the other.  It goes on
    until a send blocks or is short; it ends with a 426 if and only if a send fails, and with
    a 226 if and only if the last text is out.
  */
  lemma {:induction false} ListCall(c: Config, st: St, sends: seq<SendAnswer>, closing: seq<N.Fault>)
    requires SocketsSound(st.s, st.w.fds) && Listing(st.s) && Orderly(c, st)
    ensures ListCalled(c, st, sends, ListStep(c, st, sends, closing))
    decreases LinesLeft(c, st.s.transfer), st.s.transfer.size
  {
    hide Finish, Examined, TrafficOf, Texts, Ended, Connected, SocketsSound, ListCalled, Drive;
    var t := st.s.transfer;
    if t.size > 0 {
      ListSending(c, st, sends, closing);
    } else if DeviceList(c, st.s.tempPath) {
      var u := SetTransfer(st, NextDevice(c, t));
      DeviceOwed(c, st);
      DeviceTexts(c, st);
      StillConnected(st, u);
      ListCall(c, u, sends, closing);
      SameTexts(c, st, u, sends, ListStep(c, u, sends, closing));
    } else if t.dir.entries == [] {
      NothingLeft(c, st, sends, closing);
    } else {
      var u := SetTransfer(st, NextEntry(t, st.s.tempPath));
      EntryOwed(c, st);
      EntryTexts(c, st);
      StillConnected(st, u);
      ListCall(c, u, sends, closing);
      SameTexts(c, st, u, sends, ListStep(c, u, sends, closing));
    }
  }

  lemma {:induction false} ListSending(c: Config, st: St, sends: seq<SendAnswer>, closing: seq<N.Fault>)
    requires SocketsSound(st.s, st.w.fds) && Listing(st.s) && Orderly(c, st) && st.s.transfer.size > 0
    ensures ListCalled(c, st, sends, ListStep(c, st, sends, closing))
    decreases LinesLeft(c, st.s.transfer), st.s.transfer.size, 0
  {
    hide Finish, TrafficOf, Texts, Ended, Connected, SocketsSound;
    var t := st.s.transfer;
    DrainedTexts(c, st.s);
    match NextSend(sends)
    case SendBlocks =>
    case SendFails =>
      StillConnected(st, st);
      FinishEnds(c, st, st, 426, closing);
    case Took(count) =>
      var m := SendCount(count, t.size);
      assert m == Portion(count, |Pending(t)|);
      var d := ListBytes(t.listBuf, t.offset, m);
      TrafficEmit(st, Sent(d));
      if m < t.size {
        assert d == Pending(t)[..m];
      } else {
        LineSent(c, st, sends, closing);
      }
  }

  lemma {:induction false} LineSent(c: Config, st: St, sends: seq<SendAnswer>, closing: seq<N.Fault>)
    requires SocketsSound(st.s, st.w.fds) && Listing(st.s) && Orderly(c, st) && st.s.transfer.size > 0
    requires NextSend(sends).Took? && SendCount(NextSend(sends).count, st.s.transfer.size) == st.s.transfer.size
    ensures ListCalled(c, st, sends, ListStep(c, st, sends, closing))
    decreases LinesLeft(c, st.s.transfer), st.s.transfer.size, -1
  {
    hide Finish, TrafficOf, Texts, Ended, Connected, SocketsSound, ListCalled, Drive;
    var t := st.s.transfer;
    var u := SetTransfer(Emit(st, Sent(Pending(t))), Drained(t));
    TrafficEmit(st, Sent(Pending(t)));
    StillConnected(st, u);
    DrainedTexts(c, st.s);
    if !t.dir.isValid && (!DeviceList(c, st.s.tempPath) || t.index == |c.devices|) {
      FinishEnds(c, st, u, 226, closing);
      LastText(c, u);
      LastSent(c, st, u, sends, Finish(c, u, 226, closing));
    } else {
      ListCall(c, u, RestSends(sends), closing);
      TextSent(c, st, u, sends, ListStep(c, u, RestSends(sends), closing));
    }
  }

  lemma LastText(c: Config, u: St)
    requires u.s.transfer.size == 0 && !u.s.transfer.dir.isValid
    requires DeviceList(c, u.s.tempPath) ==> u.s.transfer.index == |c.devices|
    ensures Texts(c, u.s) == []
  {
    assert Upcoming(c, u.s) == [];
  }

  /** The text in front has gone out whole, and no other was left. */
  lemma LastSent(c: Config, st: St, u: St, sends: seq<SendAnswer>, r: St)
    requires NextSend(sends).Took? && st.s.transfer.size > 0
    requires SendCount(NextSend(sends).count, st.s.transfer.size) == st.s.transfer.size
    requires Texts(c, st.s) == [Pending(st.s.transfer)] + Texts(c, u.s) && Texts(c, u.s) == []
    requires TrafficOf(u.log) == Count(TrafficOf(st.log), Sent(Pending(st.s.transfer)))
    requires Ended(st, r, 226) && TrafficOf(r.log).sent == TrafficOf(u.log).sent
    requires TrafficOf(r.log).received == TrafficOf(u.log).received
    ensures ListCalled(c, st, sends, r)
  {
    hide TrafficOf, Texts, Ended, Pending, Drive;
    PendingLength(st.s.transfer);
    DriveWhole(Pending(st.s.transfer), [], sends);
    assert Pending(st.s.transfer) + [] == Pending(st.s.transfer);
  }

  lemma DriveWhole(text: seq<byte>, texts: seq<seq<byte>>, sends: seq<SendAnswer>)
    requires NextSend(sends).Took? && text != [] && SendCount(NextSend(sends).count, |text|) == |text|
    ensures var (more, o) := Drive(texts, RestSends(sends));
            Drive([text] + texts, sends) == (text + more, o)
    ensures Drive([], RestSends(sends)) == ([], Ends)
  {
    assert ([text] + texts)[1..] == texts;
  }

  lemma PendingLength(t: Transfer)
    ensures |Pending(t)| == t.size
  {
  }

  /** The text in front has gone out whole, and the call goes on with the others. */
  lemma TextSent(c: Config, st: St, u: St, sends: seq<SendAnswer>, r: St)
    requires NextSend(sends).Took? && st.s.transfer.size > 0
    requires SendCount(NextSend(sends).count, st.s.transfer.size) == st.s.transfer.size
    requires Texts(c, st.s) == [Pending(st.s.transfer)] + Texts(c, u.s) && Connected(st, u)
    requires TrafficOf(u.log) == Count(TrafficOf(st.log), Sent(Pending(st.s.transfer)))
    requires ListCalled(c, u, RestSends(sends), r)
    ensures ListCalled(c, st, sends, r)
  {
    hide TrafficOf, Texts, Pending, SocketsSound, Drive;
    PendingLength(st.s.transfer);
    DriveWhole(Pending(st.s.transfer), Texts(c, u.s), sends);
    var d, out := Pending(st.s.transfer), Drive(Texts(c, u.s), RestSends(sends)).0;
    ConcatAssociative(TrafficOf(st.log).sent, d, out);
  }

  /** Rendering lines leads to the same. */
  lemma SameTexts(c: Config, st: St, u: St, sends: seq<SendAnswer>, r: St)
    requires Texts(c, st.s) == Texts(c, u.s) && Connected(st, u) && u.log == st.log
    requires ListCalled(c, u, sends, r)
    ensures ListCalled(c, st, sends, r)
  {
    hide TrafficOf, Texts, SocketsSound, Drive;
  }

  lemma NothingLeft(c: Config, st: St, sends: seq<SendAnswer>, closing: seq<N.Fault>)
    requires SocketsSound(st.s, st.w.fds) && Listing(st.s) && st.s.transfer.size == 0
    requires !DeviceList(c, st.s.tempPath) && st.s.transfer.dir.entries == []
    ensures ListCalled(c, st, sends, Finish(c, st, 226, closing))
  {
    hide Finish, TrafficOf, Ended, Connected, SocketsSound;
    assert Upcoming(c, st.s) == [];
    StillConnected(st, st);
    FinishEnds(c, st, st, 226, closing);
  }

  /**
    The same for the engine as a whole.  A client that takes nothing is waited for: as much
    is owed as before, and a line that was pending is still pending.
  */
  lemma ListingCall(c: Config, st: St, io: Io)
    requires Good(c, st) && Listing(st.s) && Orderly(c, st)
    ensures var r := Progress(c, st, io);
            && ListCalled(c, st, io.sends, r)
            && (Texts(c, st.s) != [] && NextSend(io.sends).SendBlocks? ==>
                  r.s.Busy() && Owed(c, r) == Owed(c, st) && (st.s.transfer.size > 0 ==> r == st))
  {
    hide ListStep, Good, TrafficOf, Texts, Orderly, Owed, Ended;
    GoodSockets(c, st);
    ListCall(c, st, io.sends, io.closing);
    ListDelivers(c, st, io.sends, io.closing);
    if st.s.transfer.size > 0 && NextSend(io.sends).SendBlocks? { PendingStays(c, st, io.sends, io.closing); }
    SameEnd(TrafficOf(st.log).sent, Owed(c, ListStep(c, st, io.sends, io.closing)), Owed(c, st));
    assert TrafficOf(st.log).sent + [] == TrafficOf(st.log).sent;
  }

  lemma PendingStays(c: Config, st: St, sends: seq<SendAnswer>, closing: seq<N.Fault>)
    requires st.s.transfer.size > 0 && NextSend(sends).SendBlocks?
    ensures ListStep(c, st, sends, closing) == st
  {
  }

  // ------------------------------------------------------------------------------ STOR

  /** What one receive brings: at most a buffer of 65536 bytes. */
  function Intake(data: seq<byte>): seq<byte> {
    data[..if |data| < 65536 then |data| else 65536]
  }

  /** The back end takes the bytes, by the outcomes of its calls. */
  predicate Accepts(c: Config, st: St, io: Io, d: seq<byte>) {
    N.Write(c.build, Mounted(st.w, st.s.transfer.file, io.faults), d).ok
  }

  /** What `r` is after one call of the engine for an upload in `st`. */
  ghost predicate StorCalled(c: Config, st: St, io: Io, r: St) {
    var a, b := TrafficOf(st.log), TrafficOf(r.log);
    var t := st.s.transfer;
    && b.sent == a.sent
    && match io.recv
       case RecvBlocks =>
         r.log == st.log && r.w == st.w && r.s == st.s.(transfer := t.(file := t.file.(off := t.offset)))
       case RecvFails => Ended(st, r, 426) && b.received == a.received
       case Got(data) =>
         var d := Intake(data);
         && b.received == a.received + d
         && if d == [] then Ended(st, r, 226)
            else if Accepts(c, st, io, d) then
              r.s.Busy() && b.replies == a.replies && Storing(c, r) && StoredAt(r) == StoredAt(st) + d
            else Ended(st, r, 426)
  }

  /**
    One call for a STOR.  The upload is over if and only if the receive failed, the stream
    has ended, or the back end has refused the bytes: with a 426, a 226, a 426.
  */
  lemma StorCall(c: Config, st: St, io: Io)
    requires Good(c, st) && Storing(c, st)
    ensures StorCalled(c, st, io, Progress(c, st, io))
    ensures !Progress(c, st, io).s.Busy() <==>
            io.recv.RecvFails? ||
            (io.recv.Got? && (Intake(io.recv.data) == [] || !Accepts(c, st, io, Intake(io.recv.data))))
  {
    hide Finish, Good, TrafficOf, Ended, Connected, Storing, StoredAt, StorStep;
    GoodSockets(c, st);
    StoringBusy(c, st);
    StorStepCall(c, st, io);
    EndedIdle(st, Progress(c, st, io));
  }

  lemma EndedIdle(st: St, r: St)
    ensures Ended(st, r, 226) || Ended(st, r, 426) ==> !r.s.Busy()
  {
  }

  lemma StoringBusy(c: Config, st: St)
    requires Storing(c, st)
    ensures st.s.transfer.mode == Stor
  {
  }

  lemma StorStepCall(c: Config, st: St, io: Io)
    requires SocketsSound(st.s, st.w.fds) && Storing(c, st)
    ensures StorCalled(c, st, io, StorStep(c, st, io))
  {
    hide Finish, TrafficOf, Ended, Connected, SocketsSound, Storing, StoredAt, N.Write;
    StoringBusy(c, st);
    StillConnected(st, st);
    match io.recv
    case RecvBlocks =>
    case RecvFails => FinishEnds(c, st, st, 426, io.closing);
    case Got(data) =>
      var b := Intake(data);
      assert b == Chunk(data);
      if b == [] {
        FinishEnds(c, st, st, 226, io.closing);
        assert TrafficOf(st.log).received + [] == TrafficOf(st.log).received;
      } else {
        TrafficEmit(st, Received(b));
        var w := N.Write(c.build, Mounted(st.w, st.s.transfer.file, io.faults), b);
        var u := Unmount(Emit(st, Received(b)), st.s.transfer.file.path, w.v);
        StillConnected(st, u);
        if w.ok {
          ChunkStored(c, st, io);
        } else {
          FinishEnds(c, st, u, 426, io.closing);
        }
      }
  }
}
