/**
  Transfers come to their end: a download whose client keeps reading needs no more calls of
  the engine than it owes bytes, and one; an upload to a device that works is not refused.
*/
module Completion {
  import opened CText
  import opened Session
  import opened Conduct
  import opened Frames
  import opened Transfers
  import opened Server
  import opened Deliveries
  import N = NxFile

  // ------------------------------------------------------------------------ downloads

  /** The file can be read and no send fails, though any may block. */
  predicate Patient(io: Io) {
    io.read.ReadUpTo? && SendsGoThrough(io.sends)
  }

  /** And the first send takes something. */
  predicate Cooperative(io: Io) {
    Patient(io) && NextSend(io.sends).Took?
  }

  predicate SendsGoThrough(sends: seq<SendAnswer>) {
    forall s | s in sends :: !s.SendFails?
  }

  /** From `st` to `r` a download owes no more than before, or it is over with a 226. */
  ghost predicate Holds(c: Config, st: St, r: St) {
    if r.s.Busy() then |Owed(c, r)| <= |Owed(c, st)|
    else TrafficOf(r.log).replies == TrafficOf(st.log).replies + [226]
  }

  /** It owes less than before, or it is over with a 226. */
  ghost predicate Advances(c: Config, st: St, r: St) {
    Holds(c, st, r) && (r.s.Busy() ==> |Owed(c, r)| < |Owed(c, st)|)
  }

  lemma HoldsVia(c: Config, st: St, u: St, r: St)
    requires Holds(c, u, r) && |Owed(c, u)| <= |Owed(c, st)|
    requires TrafficOf(u.log).replies == TrafficOf(st.log).replies
    ensures Holds(c, st, r)
    ensures Advances(c, u, r) || |Owed(c, u)| < |Owed(c, st)| ==> Advances(c, st, r)
  {
    hide Owed, TrafficOf;
  }

  lemma FinishedAdvances(c: Config, st: St, u: St, closing: seq<N.Fault>)
    requires TrafficOf(u.log).replies == TrafficOf(st.log).replies
    ensures Advances(c, st, Finish(c, u, 226, closing))
  {
    hide Owed, Finish;
    FinishTraffic(c, u, 226, closing);
  }

  lemma RetrAdvances(c: Config, st: St, io: Io)
    requires st.s.transfer.mode == Retr && Orderly(c, st) && Patient(io)
    ensures Holds(c, st, RetrStep(c, st, io))
    ensures NextSend(io.sends).Took? ==> Advances(c, st, RetrStep(c, st, io))
  {
    hide Finish, RetrSend, Holds, TrafficOf, Owed;
    var t := st.s.transfer;
    var n := N.ReadCount(|Content(st.w.files, t.file.path)|, t.file.off, FILE_BUFFER_SIZE, io.read);
    if n == 0 {
      FinishedAdvances(c, st, st, io.closing);
    } else {
      RetrSendAdvances(c, st, n, io);
    }
  }

  lemma RetrSendAdvances(c: Config, st: St, n: nat, io: Io)
    requires st.s.transfer.mode == Retr && Orderly(c, st) && Patient(io)
    requires n > 0 && st.s.transfer.file.off + n <= |Content(st.w.files, st.s.transfer.file.path)|
    ensures Holds(c, st, RetrSend(c, st, n, io))
    ensures NextSend(io.sends).Took? ==> Advances(c, st, RetrSend(c, st, n, io))
  {
    if NextSend(io.sends).Took? { RetrTookAdvances(c, st, n, io); }
    hide Finish;
  }

  lemma RetrTookAdvances(c: Config, st: St, n: nat, io: Io)
    requires st.s.transfer.mode == Retr && Orderly(c, st) && NextSend(io.sends).Took?
    requires n > 0 && st.s.transfer.file.off + n <= |Content(st.w.files, st.s.transfer.file.path)|
    ensures Advances(c, st, RetrSend(c, st, n, io))
  {
    hide Finish;
    var t := st.s.transfer;
    var data := Content(st.w.files, t.file.path);
    var m := SendCount(NextSend(io.sends).count, n);
    var at := if m == n then t.file.off + n else t.offset + m;
    var d := data[t.file.off..t.file.off + m];
    var u := SetTransfer(Emit(st, Sent(d)), t.(offset := t.offset + m, file := t.file.(off := at)));
    TrafficEmit(st, Sent(d));
    hide TrafficOf;
    if t.offset + m == t.size {
      FinishedAdvances(c, st, u, io.closing);
    }
  }

  /** What a listing owes, counted: the pending part of its line and all that is to come. */
  lemma ListingOwes(c: Config, st: St)
    requires Listing(st.s)
    ensures |Owed(c, st)| == st.s.transfer.size + |Unread(c, st.s)|
  {
    hide Unread;
  }

  /** Part of the pending line has gone out, or all of it. */
  lemma SentOwes(c: Config, st: St, d: seq<byte>, t': Transfer)
    requires Listing(st.s) && Later(st.s.transfer, t') && t'.size < st.s.transfer.size
    ensures |Owed(c, SetTransfer(Emit(st, Sent(d)), t'))| < |Owed(c, st)|
  {
    UnreadSame(c, st.s, t');
    ListingOwes(c, st);
    ListingOwes(c, SetTransfer(Emit(st, Sent(d)), t'));
    hide Unread, Owed;
  }

  lemma {:induction false} ListAdvances(c: Config, st: St, sends: seq<SendAnswer>, closing: seq<N.Fault>)
    requires Listing(st.s) && Orderly(c, st) && SendsGoThrough(sends)
    ensures Holds(c, st, ListStep(c, st, sends, closing))
    ensures NextSend(sends).Took? ==> Advances(c, st, ListStep(c, st, sends, closing))
    decreases LinesLeft(c, st.s.transfer), st.s.transfer.size
  {
    var t := st.s.transfer;
    if t.size > 0 {
      SendingAdvances(c, st, sends, closing);
    } else if DeviceList(c, st.s.tempPath) {
      hide Finish, Examined, Owed, TrafficOf;
      var u := SetTransfer(st, NextDevice(c, t));
      DeviceOwed(c, st);
      ListAdvances(c, u, sends, closing);
      HoldsVia(c, st, u, ListStep(c, u, sends, closing));
    } else if t.dir.entries == [] {
      hide Finish, Examined, Owed, TrafficOf;
      FinishedAdvances(c, st, st, closing);
    } else {
      hide Finish, Examined, Owed, TrafficOf;
      var u := SetTransfer(st, NextEntry(t, st.s.tempPath));
      EntryOwed(c, st);
      ListAdvances(c, u, sends, closing);
      HoldsVia(c, st, u, ListStep(c, u, sends, closing));
    }
  }

  lemma {:induction false} SendingAdvances(c: Config, st: St, sends: seq<SendAnswer>, closing: seq<N.Fault>)
    requires Listing(st.s) && Orderly(c, st) && SendsGoThrough(sends) && st.s.transfer.size > 0
    ensures Holds(c, st, ListStep(c, st, sends, closing))
    ensures NextSend(sends).Took? ==> Advances(c, st, ListStep(c, st, sends, closing))
    decreases LinesLeft(c, st.s.transfer), st.s.transfer.size, 0
  {
    hide Finish, Owed, TrafficOf;
    var t := st.s.transfer;
    match NextSend(sends)
    case SendFails =>
    case SendBlocks =>
    case Took(count) =>
      var m := SendCount(count, t.size);
      var st1 := Emit(st, Sent(ListBytes(t.listBuf, t.offset, m)));
      TrafficEmit(st, Sent(ListBytes(t.listBuf, t.offset, m)));
      if m != t.size {
        SentOwes(c, st, ListBytes(t.listBuf, t.offset, m), t.(offset := t.offset + m, size := t.size - m));
      } else {
        LineSentAdvances(c, st, sends, closing);
      }
  }

  lemma {:induction false} LineSentAdvances(c: Config, st: St, sends: seq<SendAnswer>, closing: seq<N.Fault>)
    requires Listing(st.s) && Orderly(c, st) && SendsGoThrough(sends)
    requires st.s.transfer.size > 0
    ensures var t := st.s.transfer;
            var u := SetTransfer(Emit(st, Sent(ListBytes(t.listBuf, t.offset, t.size))), Drained(t));
            Advances(c, st, if !t.dir.isValid && (!DeviceList(c, st.s.tempPath) || t.index == |c.devices|)
                            then Finish(c, u, 226, closing)
                            else ListStep(c, u, RestSends(sends), closing))
    decreases LinesLeft(c, st.s.transfer), st.s.transfer.size, -1
  {
    hide Finish, Owed, TrafficOf;
    var t := st.s.transfer;
    var st1 := Emit(st, Sent(ListBytes(t.listBuf, t.offset, t.size)));
    var u := SetTransfer(st1, Drained(t));
    TrafficEmit(st, Sent(ListBytes(t.listBuf, t.offset, t.size)));
    if !t.dir.isValid && (!DeviceList(c, st.s.tempPath) || t.index == |c.devices|) {
      FinishedAdvances(c, st, u, closing);
    } else {
      SentOwes(c, st, ListBytes(t.listBuf, t.offset, t.size), Drained(t));
      ListAdvances(c, u, RestSends(sends), closing);
      HoldsVia(c, st, u, ListStep(c, u, RestSends(sends), closing));
    }
  }

  lemma ProgressAdvances(c: Config, st: St, io: Io)
    requires Downloading(st.s) && Orderly(c, st) && Patient(io)
    ensures Holds(c, st, Progress(c, st, io))
    ensures NextSend(io.sends).Took? ==> Advances(c, st, Progress(c, st, io))
  {
    hide RetrStep, ListStep, Advances, Holds, Orderly;
    if st.s.transfer.mode == Retr {
      RetrAdvances(c, st, io);
    } else {
      ListAdvances(c, st, io.sends, io.closing);
    }
  }

  /** How often the engine is called for slot `i` while its client takes something. */
  function Calls(i: Slot, evs: seq<(Slot, Event)>): nat {
    if evs == [] then 0
    else
      var e := evs[|evs| - 1];
      Calls(i, evs[..|evs| - 1]) + if e.0 == i then Taking(e.1) else 0
  }

  function Taking(ev: Event): nat {
    if ev.DataReady? && NextSend(ev.io.sends).Took? then 1 else 0
  }

  /** No read and no send for slot `i` fails. */
  ghost predicate ClientReads(i: Slot, evs: seq<(Slot, Event)>) {
    forall e | e in evs && e.0 == i && e.1.DataReady? :: Patient(e.1.io)
  }

  /** A download after some calls: each has brought it closer to its end, and the end is a 226. */
  ghost predicate Approaches(c: Config, st: St, r: St, calls: nat) {
    if r.s.Busy() then Downloading(r.s) && Orderly(c, r) && calls + |Owed(c, r)| <= |Owed(c, st)|
    else Concluded(r, 226)
  }

  /**
    Every download ends: over any run of the whole server in which its client, however often
    it keeps the engine waiting, takes at least a byte whenever it takes any, it is over with
    a 226 after at most one such call of the engine for each byte owed, and one more.  Calls
    that block neither end it nor cost it anything.
  */
  lemma {:induction false} DownloadEnds(c: Config, sv: Server, i: Slot, evs: seq<(Slot, Event)>)
    requires SvGood(c, sv) && Downloading(sv.sessions[i]) && Orderly(c, View(sv, i))
    requires ReadInPeace(c, sv, i, evs) && ClientReads(i, evs)
    ensures Approaches(c, View(sv, i), View(Run(c, sv, evs), i), Calls(i, evs))
    ensures Calls(i, evs) > |Owed(c, View(sv, i))| ==> Concluded(View(Run(c, sv, evs), i), 226)
  {
    hide Owed, Orderly, TrafficOf, At, SvGood;
    GoodShaped(c, sv);
    if evs != [] {
      var n := |evs| - 1;
      var u := Run(c, sv, evs[..n]);
      DownloadEnds(c, sv, i, evs[..n]);
      RunGood(c, sv, evs[..n]);
      ApproachNext(c, View(sv, i), u, i, evs[n], Calls(i, evs[..n]));
    }
  }

  lemma ApproachNext(c: Config, st: St, u: Server, i: Slot, e: (Slot, Event), calls: nat)
    requires SvGood(c, u) && u.sessions[i].Busy() && Benign(i, e)
    requires Approaches(c, st, View(u, i), calls)
    requires e.0 == i && e.1.DataReady? ==> Patient(e.1.io)
    requires e.0 != i ==> Content(At(c, u, e.0, e.1).w.files, OpenPath(u, i)) == Content(u.w.files, OpenPath(u, i))
    ensures Approaches(c, st, View(At(c, u, e.0, e.1), i), calls + if e.0 == i then Taking(e.1) else 0)
  {
    assert Good(c, View(u, i));
    if e.0 == i {
      hide Step, Approaches;
      ApproachOwn(c, st, View(u, i), i, e.1, calls);
      assert View(At(c, u, i, e.1), i) == Step(c, View(u, i), e.1);
    } else {
      hide Step, Orderly, Owed, TrafficOf, Good;
      OwedElsewhere(c, View(u, i), At(c, u, e.0, e.1).w);
    }
  }

  lemma ApproachOwn(c: Config, st: St, u: St, i: Slot, ev: Event, calls: nat)
    requires Approaches(c, st, u, calls) && u.s.Busy() && u.s.active && Benign(i, (i, ev))
    requires ev.DataReady? ==> Patient(ev.io)
    ensures Approaches(c, st, Step(c, u, ev), calls + Taking(ev))
  {
    hide Owed, Orderly, TrafficOf, VerbOf, Patient;
    match ev
    case Connect(io) =>
    case DataReady(io) =>
      hide Progress;
      ProgressAdvances(c, u, io);
      ProgressDelivers(c, u, io);
    case Command(text, io) =>
      BusyGate(c, u, text, io);
      hide Step;
      SameOwed(c, u, Step(c, u, ev));
  }

  /**
    There is always such a run: with nobody else at work and a client that reads, calling
    the engine again and again brings every download to its 226.
  */
  lemma DownloadRuns(c: Config, sv: Server, i: Slot, io: Io) returns (evs: seq<(Slot, Event)>)
    requires SvGood(c, sv) && Downloading(sv.sessions[i]) && Orderly(c, View(sv, i)) && Cooperative(io)
    ensures ReadInPeace(c, sv, i, evs) && ClientReads(i, evs)
    ensures Concluded(View(Run(c, sv, evs), i), 226)
    ensures forall e | e in evs :: e == (i, DataReady(io))
  {
    hide SvGood, At, Orderly, Owed, TrafficOf, Patient, NextSend;
    GoodShaped(c, sv);
    evs := [];
    assert ReadInPeace(c, sv, i, evs);
    DownloadEnds(c, sv, i, evs);
    while Run(c, sv, evs).sessions[i].Busy()
      invariant ReadInPeace(c, sv, i, evs) && ClientReads(i, evs)
      invariant forall e | e in evs :: e == (i, DataReady(io))
      invariant Approaches(c, View(sv, i), View(Run(c, sv, evs), i), Calls(i, evs))
      decreases |Owed(c, View(sv, i))| - Calls(i, evs), Run(c, sv, evs).sessions[i].Busy()
    {
      var more := evs + [(i, DataReady(io))];
      assert more[..|more| - 1] == evs;
      DownloadEnds(c, sv, i, more);
      evs := more;
    }
  }

  // -------------------------------------------------------------------------- uploads

  /** The receive does not fail, nor does any call of the device. */
  predicate Steady(io: Io) {
    !io.recv.RecvFails? && io.faults == []
  }

  /** An upload whose handle knows how long its file is. */
  ghost predicate Sturdy(c: Config, st: St) {
    Storing(c, st) && N.Healthy(c.build, Mounted(st.w, st.s.transfer.file, []))
  }

  /** An upload after some steady calls: on, and ready for more, or over with a 226. */
  ghost predicate Thrives(c: Config, r: St) {
    if r.s.Busy() then Sturdy(c, r) else Concluded(r, 226)
  }

  /** A session that gets its connection for an upload starts it with such a handle. */
  lemma StorSturdy(c: Config, st: St, data: string, io: Io)
    requires !st.s.Busy() && CmdStor(c, st, data, io).s.Busy()
    ensures Sturdy(c, CmdStor(c, st, data, io))
  {
    var append := st.s.marker == -1;
    var mode := if append then N.APPEND else N.WRITE;
    var st1 := if append then st.(s := st.s.(marker := 0)) else st;
    var path := FixedPath(c, Resolve(st1.s, ScanLine(data, PATH_LIMIT)).path);
    StorStarts(c, st, data, io);
    OpenSturdy(c, st1, path, mode, io.faults);
    var o := VfsOpen(st1, path, mode, io.faults).st;
    DataOpenTraffic(o, io);
    var d := DataOpen(o, io).st;
    var r := SetTransfer(d, d.s.transfer.(mode := Stor));
    assert Mounted(r.w, r.s.transfer.file, []) == Mounted(o.w, o.s.transfer.file, []);
    VfsKeepsMarks(c, st1, path, mode, io.faults);
    VfsKeepsMarks(c, Say(d, 425), path, mode, io.closing);
    hide VfsOpen, VfsClose, DataOpen, TrafficOf, Storing, N.Healthy, Resolve, ScanLine;
    assert CmdStor(c, st, data, io) == r;
  }

  lemma ExecuteSturdy(c: Config, st: St, v: Verb, data: string, io: Io)
    requires !st.s.Busy() && Execute(c, st, v, data, io).s.transfer.mode == Stor
    ensures Sturdy(c, Execute(c, st, v, data, io))
  {
    hide CmdUser, CmdPass, CmdCwd, CmdCdup, CmdCode, CmdRest, CmdRnfr, CmdRnto, CmdTree, CmdSize;
    hide CmdRetr, CmdStor, CmdList, CmdPort, CmdPasv, CmdAbor, Sturdy;
    StartsItsOwn(c, st, v, data, io);
    if v == STOR {
      StorSturdy(c, st, data, io);
    } else {
      StorSturdy(c, st.(s := st.s.(marker := -1)), data, io);
    }
  }

  /** Whatever control line makes an idle session start an upload, its handle is of that kind. */
  lemma UploadStartsSturdy(c: Config, sv: Server, i: Slot, text: string, io: Io)
    requires Shaped(sv) && !sv.sessions[i].Busy()
    requires At(c, sv, i, Command(text, io)).sessions[i].transfer.mode == Stor
    ensures Sturdy(c, View(At(c, sv, i, Command(text, io)), i))
  {
    LineSturdy(c, View(sv, i), text, io);
    hide Step, Sturdy;
  }

  lemma LineSturdy(c: Config, st: St, text: string, io: Io)
    requires !st.s.Busy() && Step(c, st, Command(text, io)).s.transfer.mode == Stor
    ensures Sturdy(c, Step(c, st, Command(text, io)))
  {
    hide LineStep, Sturdy;
    if st.s.active && FindCrlf(text) < |text| {
      var len := FindCrlf(text) + 2;
      var data := LineOutcome(c, st, text, len, io);
      ExecuteSturdy(c, Emit(st, Line(text[..len])), VerbOf(text).value, data, io);
    }
  }

  lemma OpenSturdy(c: Config, st: St, path: string, mode: N.OpenMode, faults: seq<N.Fault>)
    requires mode != N.READ && VfsOpen(st, path, mode, faults).ok
    ensures var o := VfsOpen(st, path, mode, faults).st;
            N.Healthy(c.build, Mounted(o.w, o.s.transfer.file, []))
  {
    var v := Mounted(st.w, st.s.transfer.file.(path := path), faults);
    var r := N.Open(v, path in st.w.files, mode);
    N.OpenedForWriting(c.build, v, path in st.w.files, mode);
    var o := VfsOpen(st, path, mode, faults).st;
    assert Mounted(o.w, o.s.transfer.file, []) == r.v.(faults := []);
  }

  lemma StorStepThrives(c: Config, u: St, io: Io)
    requires Sturdy(c, u) && Steady(io) && (io.recv.RecvBlocks? ==> u.s.transfer.file.off == u.s.transfer.offset)
    ensures Thrives(c, StorStep(c, u, io))
  {
    StoringMode(c, u);
    hide Finish, TrafficOf, N.Healthy, N.Write, Storing;
    match io.recv
    case RecvBlocks => assert StorStep(c, u, io) == u;
    case Got(all) =>
      if Chunk(all) == [] {
        FinishTraffic(c, u, 226, io.closing);
      } else {
        ChunkThrives(c, u, io);
      }
  }

  lemma ChunkThrives(c: Config, u: St, io: Io)
    requires Sturdy(c, u) && io.faults == [] && io.recv.Got? && Chunk(io.recv.data) != []
    ensures StorStep(c, u, io).s.Busy() && Sturdy(c, StorStep(c, u, io))
  {
    hide Finish, TrafficOf, N.Write;
    var b := Chunk(io.recv.data);
    var v := Mounted(u.w, u.s.transfer.file, []);
    N.HealthyWrite(c.build, v, b);
    var w := N.Write(c.build, v, b);
    var r := StorStep(c, u, io);
    assert r.s.transfer.file == HandleOf(u.s.transfer.file.path, w.v);
    assert Mounted(r.w, r.s.transfer.file, []) == w.v.(faults := []);
  }

  ghost predicate DeviceWorks(i: Slot, evs: seq<(Slot, Event)>) {
    forall e | e in evs && e.0 == i && e.1.DataReady? :: Steady(e.1.io)
  }

  /**
    No upload is refused by a device that works: over any run of the whole server it goes
    on until the client has closed, and then it is answered with a 226.
  */
  lemma {:induction false} UploadThrives(c: Config, sv: Server, i: Slot, evs: seq<(Slot, Event)>)
    requires SvGood(c, sv) && Sturdy(c, View(sv, i))
    requires WrittenInPeace(c, sv, i, evs) && DeviceWorks(i, evs)
    ensures Thrives(c, View(Run(c, sv, evs), i))
  {
    hide Sturdy, TrafficOf, At, SvGood, Smooth;
    GoodShaped(c, sv);
    if evs != [] {
      var n := |evs| - 1;
      var u := Run(c, sv, evs[..n]);
      UploadThrives(c, sv, i, evs[..n]);
      RunGood(c, sv, evs[..n]);
      ThriveNext(c, u, i, evs[n]);
    } else {
      SturdyBusy(c, View(sv, i));
    }
  }

  lemma SturdyBusy(c: Config, st: St)
    requires Sturdy(c, st)
    ensures Thrives(c, st)
  {
  }

  lemma ThriveNext(c: Config, u: Server, i: Slot, e: (Slot, Event))
    requires SvGood(c, u) && u.sessions[i].Busy() && Benign(i, e)
    requires Sturdy(c, View(u, i))
    requires e.0 == i && e.1.DataReady? ==> Steady(e.1.io) && Smooth(View(u, i), e.1.io)
    requires e.0 != i ==> FileUntouched(u, At(c, u, e.0, e.1), OpenPath(u, i))
    ensures Thrives(c, View(At(c, u, e.0, e.1), i))
  {
    assert Good(c, View(u, i));
    if e.0 == i {
      hide Step, Thrives, Sturdy, Smooth, Good;
      ThriveOwn(c, View(u, i), i, e.1);
      assert View(At(c, u, i, e.1), i) == Step(c, View(u, i), e.1);
    } else {
      hide Step, TrafficOf, Good, N.Healthy, N.Writer;
      assert View(u, i).s.transfer.file.path in u.w.files;
    }
  }

  lemma ThriveOwn(c: Config, u: St, i: Slot, ev: Event)
    requires Sturdy(c, u) && u.s.Busy() && u.s.active && Benign(i, (i, ev))
    requires ev.DataReady? ==> Steady(ev.io) && Smooth(u, ev.io)
    ensures Thrives(c, Step(c, u, ev))
  {
    hide TrafficOf, VerbOf, Steady, N.Healthy;
    match ev
    case Connect(io) =>
    case DataReady(io) =>
      hide StorStep;
      StorStepThrives(c, u, io);
    case Command(text, io) =>
      BusyGate(c, u, text, io);
      hide Step, Storing;
  }

  // ------------------------------------------------------------------- getting started

  /** A data connection can be had: one was announced, and the network plays along. */
  predicate Reachable(st: St, io: Io) {
    !st.s.conn.NoConnection? && Granted(st.w, io.socket) && (st.s.conn.Passive? || io.connectOk)
  }

  lemma ReachableOpens(st: St, io: Io)
    requires Reachable(st, io)
    ensures var d := DataOpen(st, io);
            && d.ok && d.st.s == st.s.(dataSock := io.socket)
            && d.st.w == st.w.(fds := st.w.fds + {io.socket})
            && d.st.log == st.log + [Reply(150, ""), DataSocket(io.socket, Peer(st.s))]
  {
    hide Peer;
    var e := DataSocket(io.socket, Peer(st.s));
    assert st.log + [Reply(150, "")] + [e] == st.log + [Reply(150, ""), e];
  }

  lemma OpenWorks(st: St, path: string, mode: N.OpenMode)
    requires path in st.w.files || mode != N.READ
    ensures var o := VfsOpen(st, path, mode, []);
            && o.ok && o.st.w.fds == st.w.fds && o.st.s == st.s.(transfer := o.st.s.transfer)
            && o.st.s.transfer == st.s.transfer.(file := o.st.s.transfer.file)
  {
  }

  /** STOR of a path that resolves starts an upload whenever a connection can be had and the device works. */
  lemma StorStartsUpload(c: Config, st: St, data: string, io: Io)
    requires !st.s.Busy() && Reachable(st, io) && io.faults == []
    requires ScanLine(data, PATH_LIMIT) != "" && Resolve(st.s, ScanLine(data, PATH_LIMIT)).ok
    ensures CmdStor(c, st, data, io).s.transfer.mode == Stor
  {
    var append := st.s.marker == -1;
    var u := if append then st.(s := st.s.(marker := 0)) else st;
    var path := FixedPath(c, Resolve(u.s, ScanLine(data, PATH_LIMIT)).path);
    var mode := if append then N.APPEND else N.WRITE;
    OpenWorks(u, path, mode);
    ReachableOpens(VfsOpen(u, path, mode, []).st, io);
    hide VfsOpen, DataOpen, Resolve, ScanLine;
  }

  /** RETR of a file that is there starts a download under the same conditions. */
  lemma RetrStartsDownload(c: Config, st: St, data: string, io: Io)
    requires !st.s.Busy() && Reachable(st, io) && io.faults == [] && io.fstatOk && (st.s.marker > 0 ==> io.seekOk)
    requires ScanLine(data, PATH_LIMIT) != "" && Resolve(st.s, ScanLine(data, PATH_LIMIT)).ok
    requires FixedPath(c, Resolve(st.s, ScanLine(data, PATH_LIMIT)).path) in st.w.files
    ensures CmdRetr(c, st, data, io).s.transfer.mode == Retr
  {
    var path := FixedPath(c, Resolve(st.s, ScanLine(data, PATH_LIMIT)).path);
    OpenWorks(st, path, N.READ);
    var o := VfsOpen(st, path, N.READ, []).st;
    ReachableOpens(Positioned(o, io).st, io);
    hide VfsOpen, DataOpen, Resolve, ScanLine;
  }

  // ---------------------------------------------------------------- runs that exist

  /** The events by which `chunks` arrive on slot `i`, one call of the engine for each. */
  function Arriving(i: Slot, io: Io, chunks: seq<seq<byte>>): seq<(Slot, Event)> {
    if chunks == [] then []
    else Arriving(i, io, chunks[..|chunks| - 1]) + [(i, DataReady(io.(recv := Got(chunks[|chunks| - 1]))))]
  }

  /** Then the client closes. */
  function Upload(i: Slot, io: Io, chunks: seq<seq<byte>>): seq<(Slot, Event)> {
    Arriving(i, io, chunks) + [(i, DataReady(io.(recv := Got([]))))]
  }

  predicate Sized(chunks: seq<seq<byte>>) {
    forall b | b in chunks :: 0 < |b| <= FILE_BUFFER_SIZE
  }

  /** A sturdy upload is closed without loss if the calls of the close succeed. */
  lemma SturdyCloses(c: Config, u: St)
    requires Sturdy(c, u)
    ensures var v := Mounted(u.w, u.s.transfer.file, []); v.off <= |v.data| && N.CloseKeeps(c.build, v)
  {
    N.HealthyClose(c.build, Mounted(u.w, u.s.transfer.file, []));
    hide N.CloseKeeps;
  }

  lemma ReadyStep(c: Config, u: Server, i: Slot, io: Io)
    requires SvGood(c, u) && u.sessions[i].transfer.mode == Stor
    ensures View(At(c, u, i, DataReady(io)), i) == StorStep(c, View(u, i), io)
  {
    assert Good(c, View(u, i));
    hide StorStep;
  }

  lemma PeaceOn(c: Config, sv: Server, i: Slot, evs: seq<(Slot, Event)>, e: (Slot, Event))
    requires Shaped(sv) && WrittenInPeace(c, sv, i, evs)
    requires var u := Run(c, sv, evs);
             u.sessions[i].Busy() && e.0 == i && e.1.DataReady? && Smooth(View(u, i), e.1.io)
    ensures WrittenInPeace(c, sv, i, evs + [e])
    ensures var v := Mounted(Run(c, sv, evs).w, Run(c, sv, evs).sessions[i].transfer.file, e.1.io.closing);
            v.off <= |v.data| && N.CloseKeeps(c.build, v) ==> ClosedWell(c, sv, i, evs + [e])
    ensures Run(c, sv, evs + [e]) == At(c, Run(c, sv, evs), i, e.1)
  {
    hide At, Smooth, N.CloseKeeps;
    assert (evs + [e])[..|evs|] == evs;
  }

  /** All chunks have been taken in peace, and the upload is ready for more. */
  ghost predicate AllArrived(c: Config, sv: Server, i: Slot, io: Io, chunks: seq<seq<byte>>)
    requires Shaped(sv)
  {
    var u := Run(c, sv, Arriving(i, io, chunks));
    && WrittenInPeace(c, sv, i, Arriving(i, io, chunks))
    && Sturdy(c, View(u, i))
    && OpenPath(u, i) == OpenPath(sv, i)
    && TrafficOf(u.logs[i]) == Came(TrafficOf(sv.logs[i]), Flatten(chunks))
  }

  /** These bytes have come in. */
  function Came(t: Traffic, d: seq<byte>): Traffic {
    t.(received := t.received + d)
  }

  lemma {:induction false} ArrivingStores(c: Config, sv: Server, i: Slot, io: Io, chunks: seq<seq<byte>>)
    requires SvGood(c, sv) && Sturdy(c, View(sv, i)) && Sized(chunks) && io.faults == [] && io.closing == []
    ensures AllArrived(c, sv, i, io, chunks)
  {
    hide SvGood, Sturdy, At, AllArrived;
    GoodShaped(c, sv);
    if chunks == [] {
      NoneArrived(c, sv, i, io);
    } else {
      var n := |chunks| - 1;
      ArrivingStores(c, sv, i, io, chunks[..n]);
      OneMoreArrives(c, sv, i, io, chunks);
    }
  }

  lemma NoneArrived(c: Config, sv: Server, i: Slot, io: Io)
    requires Shaped(sv) && Sturdy(c, View(sv, i))
    ensures AllArrived(c, sv, i, io, [])
  {
    hide Sturdy, TrafficOf;
  }

  lemma OneMoreArrives(c: Config, sv: Server, i: Slot, io: Io, chunks: seq<seq<byte>>)
    requires SvGood(c, sv) && chunks != [] && Sized(chunks) && io.faults == [] && io.closing == []
    requires AllArrived(c, sv, i, io, chunks[..|chunks| - 1])
    ensures AllArrived(c, sv, i, io, chunks)
  {
    hide SvGood, Sturdy, TrafficOf, At, Run, Flatten, Smooth, WrittenInPeace, Came, Arriving;
    GoodShaped(c, sv);
    var n := |chunks| - 1;
    var io' := io.(recv := Got(chunks[n]));
    var evs := Arriving(i, io, chunks[..n]);
    assert 0 < |chunks[n]| <= FILE_BUFFER_SIZE;
    RunGood(c, sv, evs);
    ChunkArrives(c, Run(c, sv, evs), i, io');
    PeaceOn(c, sv, i, evs, (i, DataReady(io')));
    ArrivingSnoc(i, io, chunks);
    CameSnoc(TrafficOf(sv.logs[i]), chunks);
  }

  lemma ArrivingSnoc(i: Slot, io: Io, chunks: seq<seq<byte>>)
    requires chunks != []
    ensures var n := |chunks| - 1;
            Arriving(i, io, chunks) == Arriving(i, io, chunks[..n]) + [(i, DataReady(io.(recv := Got(chunks[n]))))]
  {
  }

  lemma CameSnoc(t: Traffic, chunks: seq<seq<byte>>)
    requires chunks != []
    ensures var n := |chunks| - 1;
            Came(Came(t, Flatten(chunks[..n])), chunks[n]) == Came(t, Flatten(chunks))
  {
    hide Flatten;
    StoredSnoc(t.received, chunks);
  }

  lemma StoredSnoc(init: seq<byte>, chunks: seq<seq<byte>>)
    requires chunks != []
    ensures init + Flatten(chunks[..|chunks| - 1]) + chunks[|chunks| - 1] == init + Flatten(chunks)
  {
    var n := |chunks| - 1;
    assert chunks == chunks[..n] + [chunks[n]];
    N.StoredSnoc(init, chunks[..n], chunks[n]);
    hide Flatten;
  }

  lemma ChunkArrives(c: Config, u: Server, i: Slot, io: Io)
    requires SvGood(c, u) && Sturdy(c, View(u, i)) && io.faults == [] && io.closing == []
    requires io.recv.Got? && 0 < |io.recv.data| <= FILE_BUFFER_SIZE
    ensures u.sessions[i].Busy() && Smooth(View(u, i), io)
    ensures var r := View(At(c, u, i, DataReady(io)), i);
            && Sturdy(c, r) && r.s.transfer.file.path == OpenPath(u, i)
            && TrafficOf(r.log) == Came(TrafficOf(View(u, i).log), io.recv.data)
  {
    hide Sturdy, Storing, StoredAt, TrafficOf, SvGood, At, StorStep;
    GoodShaped(c, u);
    var st := View(u, i);
    SturdyStoring(c, st);
    StoringMode(c, st);
    ReadyStep(c, u, i, io);
    ChunkThrives(c, st, io);
    ChunkStored(c, st, io);
  }

  lemma SturdyStoring(c: Config, st: St)
    requires Sturdy(c, st)
    ensures Storing(c, st)
  {
  }

  /** Any chunks can be sent one after the other, and then the client can close. */
  lemma UploadGoesThrough(c: Config, sv: Server, i: Slot, io: Io, chunks: seq<seq<byte>>)
    requires SvGood(c, sv) && Sturdy(c, View(sv, i)) && Sized(chunks) && io.faults == [] && io.closing == []
    ensures var u := Run(c, sv, Upload(i, io, chunks));
            && WrittenInPeace(c, sv, i, Upload(i, io, chunks)) && ClosedWell(c, sv, i, Upload(i, io, chunks))
            && !u.sessions[i].Busy() && OpenPath(sv, i) in u.w.files
            && TrafficOf(u.logs[i]) == Count(Came(TrafficOf(sv.logs[i]), Flatten(chunks)), Reply(226, ""))
  {
    hide SvGood, At, Run, Sturdy, Storing, TrafficOf, Smooth, WrittenInPeace, ClosedWell, N.CloseKeeps, Flatten;
    hide Arriving;
    GoodShaped(c, sv);
    var evs := Arriving(i, io, chunks);
    var u := Run(c, sv, evs);
    var last := io.(recv := Got([]));
    ArrivingStores(c, sv, i, io, chunks);
    RunGood(c, sv, evs);
    ClientCloses(c, u, i, last);
    SturdyCloses(c, View(u, i));
    PeaceOn(c, sv, i, evs, (i, DataReady(last)));
  }

  /**
    There is always such a run: whatever the chunks are, they can be sent one after the
    other, and when the client has closed the file is what was there and then all of them.
  */
  lemma UploadRuns(c: Config, sv: Server, i: Slot, io: Io, chunks: seq<seq<byte>>)
    requires SvGood(c, sv) && Sturdy(c, View(sv, i)) && Sized(chunks) && io.faults == [] && io.closing == []
    ensures var u := Run(c, sv, Upload(i, io, chunks));
            && WrittenInPeace(c, sv, i, Upload(i, io, chunks)) && Concluded(View(u, i), 226)
            && ClosedWell(c, sv, i, Upload(i, io, chunks))
            && TrafficOf(u.logs[i]) == Count(Came(TrafficOf(sv.logs[i]), Flatten(chunks)), Reply(226, ""))
            && Arrived(View(sv, i), View(u, i)) == Flatten(chunks)
            && OpenPath(sv, i) in u.w.files
            && u.w.files[OpenPath(sv, i)] == StoredAt(View(sv, i)) + Flatten(chunks)
  {
    hide SvGood, At, Run, Sturdy, Storing, StoredAt, TrafficOf, WrittenInPeace, ClosedWell, Flatten, Upload;
    hide Concluded, Arrived, Count, Came;
    GoodShaped(c, sv);
    SturdyStoring(c, View(sv, i));
    UploadGoesThrough(c, sv, i, io, chunks);
    CameConcluded(View(sv, i), View(Run(c, sv, Upload(i, io, chunks)), i), Flatten(chunks));
    UploadedFile(c, sv, i, Upload(i, io, chunks));
  }

  lemma CameConcluded(st: St, r: St, d: seq<byte>)
    requires !r.s.Busy() && TrafficOf(r.log) == Count(Came(TrafficOf(st.log), d), Reply(226, ""))
    ensures Concluded(r, 226) && Arrived(st, r) == d
  {
    hide TrafficOf;
    var before := TrafficOf(st.log).received;
    assert (before + d)[|before|..] == d;
  }

  lemma ClientCloses(c: Config, u: Server, i: Slot, io: Io)
    requires SvGood(c, u) && Sturdy(c, View(u, i)) && io.closing == [] && io.recv == Got([])
    ensures u.sessions[i].Busy() && Smooth(View(u, i), io)
    ensures var r := View(At(c, u, i, DataReady(io)), i);
            && !r.s.Busy() && OpenPath(u, i) in r.w.files
            && TrafficOf(r.log) == Count(TrafficOf(View(u, i).log), Reply(226, ""))
  {
    hide Sturdy, Storing, StoredAt, TrafficOf, SvGood, At, StorStep, N.CloseKeeps;
    GoodShaped(c, u);
    var st := View(u, i);
    SturdyStoring(c, st);
    StoringMode(c, st);
    ReadyStep(c, u, i, io);
    UploadCompletes(c, st, io);
  }

  /**
    Upload, then download, to the end: any chunks whatever, sent on slot `i` by an upload
    that has its connection, come back byte for byte, behind what was there before and from
    the restart marker on, to a client that reads on slot `j`.
  */
  lemma RoundTripRuns(c: Config, sv: Server, i: Slot, io: Io, chunks: seq<seq<byte>>, j: Slot, retr: string,
                      io': Io, reader: Io)
    returns (down: seq<(Slot, Event)>)
    requires SvGood(c, sv) && Sturdy(c, View(sv, i))
    requires Sized(chunks) && io.faults == [] && io.closing == [] && Cooperative(reader)
    requires var sv1 := Run(c, sv, Upload(i, io, chunks));
             var sv2 := At(c, sv1, j, Command(retr, io'));
             && !sv1.sessions[j].Busy()
             && sv2.sessions[j].transfer.mode == Retr && OpenPath(sv2, j) == OpenPath(sv, i)
    ensures var sv1 := Run(c, sv, Upload(i, io, chunks));
            var sv2 := At(c, sv1, j, Command(retr, io'));
            && ReadInPeace(c, sv2, j, down) && Concluded(View(Run(c, sv2, down), j), 226)
            && TrafficOf(Run(c, sv2, down).logs[j]).sent ==
               TrafficOf(sv2.logs[j]).sent + Tail(StoredAt(View(sv, i)) + Flatten(chunks), Start(sv1.sessions[j]))
  {
    hide SvGood, At, Run, Sturdy, StoredAt, TrafficOf, Concluded, ReadInPeace, WrittenInPeace, Orderly, Upload;
    hide Cooperative, Tail;
    hide ClosedWell;
    GoodShaped(c, sv);
    var sv1 := Run(c, sv, Upload(i, io, chunks));
    var sv2 := At(c, sv1, j, Command(retr, io'));
    UploadRuns(c, sv, i, io, chunks);
    RunGood(c, sv, Upload(i, io, chunks));
    AtGood(c, sv1, j, Command(retr, io'));
    RetrCommand(c, sv1, j, retr, io');
    down := DownloadRuns(c, sv2, j, reader);
    DownloadedFile(c, sv2, j, down);
  }
}
