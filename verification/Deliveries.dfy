/**
  End-to-end results over whole runs of the server: downloads and uploads that other
  sessions, blocked sockets, short sends and pipelined commands cannot corrupt.
*/
module Deliveries {
  import opened CText
  import opened Session
  import opened Conduct
  import opened Frames
  import opened Transfers
  import opened Server
  import N = NxFile
  import H = HostPort

  /** An event that does not end the transfer of slot `i` on the client's wish. */
  predicate Benign(i: Slot, e: (Slot, Event)) {
    e.0 == i ==>
      match e.1
      case Disconnect(_) => false
      case Command(text, _) => VerbOf(text) != H.Some(ABOR)
      case _ => true
  }

  predicate Downloading(s: Session) {
    s.transfer.mode == Retr || Listing(s)
  }

  /** The file that slot `i` has open. */
  function OpenPath(sv: Server, i: Slot): string
    requires Shaped(sv)
  {
    sv.sessions[i].transfer.file.path
  }

  // ------------------------------------------------------------------------ downloads

  /**
    A run during which the transfer of slot `i` is on until the last event, is not called
    off, and nobody else changes the file it reads.
  */
  ghost predicate ReadInPeace(c: Config, sv: Server, i: Slot, evs: seq<(Slot, Event)>)
    requires Shaped(sv)
  {
    evs == [] ||
    var n := |evs| - 1;
    var u := Run(c, sv, evs[..n]);
    && ReadInPeace(c, sv, i, evs[..n])
    && u.sessions[i].Busy()
    && Benign(i, evs[n])
    && (evs[n].0 != i ==>
          Content(At(c, u, evs[n].0, evs[n].1).w.files, OpenPath(u, i)) == Content(u.w.files, OpenPath(u, i)))
  }

  /**
    How far a download has got between two states: still on, with what was sent and what is
    owed adding up; or over, and the last reply says which: 226 for all of it, 426 for a
    prefix.
  */
  ghost predicate Delivered(c: Config, st: St, r: St) {
    var a, b := TrafficOf(st.log), TrafficOf(r.log);
    if r.s.Busy() then
      && Downloading(r.s) && Orderly(c, r)
      && b.sent + Owed(c, r) == a.sent + Owed(c, st)
      && a.sent <= b.sent
    else
      && b.replies != []
      && var last := b.replies[|b.replies| - 1];
         || (last == 226 && b.sent == a.sent + Owed(c, st))
         || (last == 426 && a.sent <= b.sent <= a.sent + Owed(c, st))
  }

  /** One more call of the engine. */
  lemma DeliveredOn(c: Config, st: St, u: St, r: St)
    requires Delivered(c, st, u) && u.s.Busy() && Delivers(c, u, r)
    ensures Delivered(c, st, r)
  {
    hide Owed, Orderly, TrafficOf;
  }

  /** The world around a session that stays what it is, apart from a file it does not read. */
  lemma OwedElsewhere(c: Config, u: St, w: World)
    requires Downloading(u.s) && Orderly(c, u)
    requires Content(w.files, u.s.transfer.file.path) == Content(u.w.files, u.s.transfer.file.path)
    ensures Orderly(c, u.(w := w)) && Owed(c, u.(w := w)) == Owed(c, u)
  {
  }

  /** An own event on a slot whose download is on: engine, refused command, or nothing. */
  lemma OwnEvent(c: Config, st: St, u: St, i: Slot, ev: Event)
    requires Delivered(c, st, u) && u.s.Busy() && u.s.active && Benign(i, (i, ev))
    ensures Delivered(c, st, Step(c, u, ev))
  {
    hide Owed, Orderly, TrafficOf, VerbOf;
    match ev
    case Connect(io) =>
    case DataReady(io) =>
      hide Progress, Delivered, Delivers;
      ProgressStep(c, st, u, io);
    case Command(text, io) =>
      BusyGate(c, u, text, io);
      hide Step, Delivered, Unmoved;
      Refused(c, st, u, Step(c, u, ev), text);
  }

  lemma ProgressStep(c: Config, st: St, u: St, io: Io)
    requires Delivered(c, st, u) && u.s.Busy()
    ensures Delivered(c, st, Progress(c, u, io))
  {
    hide Owed, Orderly, TrafficOf, Progress, Delivers;
    ProgressDelivers(c, u, io);
    DeliveredOn(c, st, u, Progress(c, u, io));
  }

  lemma UnmovedTraffic(u: St, r: St, text: string)
    requires Unmoved(u, r, text)
    ensures TrafficOf(r.log).sent == TrafficOf(u.log).sent
    ensures TrafficOf(r.log).received == TrafficOf(u.log).received
  {
    if FindCrlf(text) < |text| {
      var line := Line(text[..FindCrlf(text) + 2]);
      var code :| code in {500, 501, 530} && r.log == u.log + [line, Reply(code, "")];
      TrafficEmit(u, line);
      TrafficEmit(Emit(u, line), Reply(code, ""));
      assert r == Emit(Emit(u, line), Reply(code, ""));
    }
  }

  lemma Refused(c: Config, st: St, u: St, r: St, text: string)
    requires Delivered(c, st, u) && u.s.Busy() && Unmoved(u, r, text)
    ensures Delivered(c, st, r)
  {
    UnmovedTraffic(u, r, text);
    SameOwed(c, u, r);
    hide Owed, Orderly, TrafficOf, Unmoved;
  }

  lemma SameOwed(c: Config, u: St, r: St)
    requires r.s == u.s && r.w == u.w
    ensures Owed(c, r) == Owed(c, u) && (Orderly(c, u) ==> Orderly(c, r))
  {
  }

  /**
    Every download is exact: over any run of the whole server, with short and blocked
    sends, refused commands and other sessions at work, what slot `i` has sent and what it
    still owes add up to what it owed at first, and a 226 means all of it went out.
  */
  lemma {:induction false} DownloadExact(c: Config, sv: Server, i: Slot, evs: seq<(Slot, Event)>)
    requires SvGood(c, sv) && Downloading(sv.sessions[i]) && Orderly(c, View(sv, i))
    requires ReadInPeace(c, sv, i, evs)
    ensures Delivered(c, View(sv, i), View(Run(c, sv, evs), i))
  {
    if evs != [] {
      var n := |evs| - 1;
      var u := Run(c, sv, evs[..n]);
      DownloadExact(c, sv, i, evs[..n]);
      RunGood(c, sv, evs[..n]);
      DownloadNext(c, View(sv, i), u, i, evs[n]);
    } else {
      hide Owed, Orderly, TrafficOf;
    }
  }

  lemma DownloadNext(c: Config, st: St, u: Server, i: Slot, e: (Slot, Event))
    requires SvGood(c, u) && u.sessions[i].Busy() && Benign(i, e)
    requires Delivered(c, st, View(u, i))
    requires e.0 != i ==> Content(At(c, u, e.0, e.1).w.files, OpenPath(u, i)) == Content(u.w.files, OpenPath(u, i))
    ensures Delivered(c, st, View(At(c, u, e.0, e.1), i))
  {
    assert Good(c, View(u, i));
    if e.0 == i {
      hide Step, Delivered;
      OwnEvent(c, st, View(u, i), i, e.1);
      assert View(At(c, u, i, e.1), i) == Step(c, View(u, i), e.1);
    } else {
      hide Step, Orderly, Owed, TrafficOf, Good;
      OwedElsewhere(c, View(u, i), At(c, u, e.0, e.1).w);
    }
  }

  // -------------------------------------------------------------------------- uploads

  /**
    A run during which the upload of slot `i` is on until the last event: it is not called
    off, nobody else touches its file, and a blocked receive comes only while the handle
    stands where the engine will put it.
  */
  ghost predicate WrittenInPeace(c: Config, sv: Server, i: Slot, evs: seq<(Slot, Event)>)
    requires Shaped(sv)
  {
    evs == [] ||
    var n := |evs| - 1;
    var u := Run(c, sv, evs[..n]);
    && WrittenInPeace(c, sv, i, evs[..n])
    && u.sessions[i].Busy()
    && Benign(i, evs[n])
    && (evs[n].0 != i ==> FileUntouched(u, At(c, u, evs[n].0, evs[n].1), OpenPath(u, i)))
    && (evs[n].0 == i && evs[n].1.DataReady? ==> Smooth(View(u, i), evs[n].1.io))
  }

  ghost predicate FileUntouched(u: Server, u': Server, path: string) {
    path in u.w.files ==> path in u'.w.files && u'.w.files[path] == u.w.files[path]
  }

  predicate Smooth(u: St, io: Io) {
    io.recv.RecvBlocks? ==> u.s.transfer.file.off == u.s.transfer.offset
  }

  /** The bytes that arrived between two states. */
  function Arrived(st: St, r: St): seq<byte> {
    var a, b := TrafficOf(st.log).received, TrafficOf(r.log).received;
    if |a| <= |b| then b[|a|..] else []
  }

  /** The transfer of a slot is over, and its last reply was `code`. */
  ghost predicate Concluded(r: St, code: nat) {
    !r.s.Busy() && var b := TrafficOf(r.log).replies; b != [] && b[|b| - 1] == code
  }

  /**
    How far an upload has got: still on, with every byte that arrived stored in order; or
    over, with a 226 or a 426 as the last reply.
  */
  ghost predicate Uploaded(c: Config, st: St, r: St) {
    && TrafficOf(st.log).received <= TrafficOf(r.log).received
    && if r.s.Busy() then
         && Storing(c, r) && r.s.transfer.file.path == st.s.transfer.file.path
         && StoredAt(r) == StoredAt(st) + Arrived(st, r)
       else Concluded(r, 226) || Concluded(r, 426)
  }

  /** The chunk that an event brings. */
  function Brought(ev: Event): seq<byte> {
    if ev.DataReady? && ev.io.recv.Got? then Chunk(ev.io.recv.data) else []
  }

  /** The handle as the close at the end of an upload finds it: a chunk has been tried on it, if one came. */
  ghost function Closing(c: Config, u: St, ev: Event): N.Vfs {
    if Brought(ev) == [] then Mounted(u.w, u.s.transfer.file, ev.io.closing)
    else N.Write(c.build, Mounted(u.w, u.s.transfer.file, ev.io.faults), Brought(ev)).v.(faults := ev.io.closing)
  }

  /**
    An upload that began in `st` was still on in `u` and is over in `r`, by the event `ev`.
    What its handle had stored in the end is all that had arrived, but for the chunk that was
    refused: none of that in the chunked build, a prefix of it in the buffered one.  The file
    is exactly that if and only if the calls of the close turn out well.
  */
  ghost predicate EndedBy(c: Config, st: St, u: St, ev: Event, r: St) {
    var v := Closing(c, u, ev);
    && N.Writer(c.build, v)
    && Arrived(st, r) == Arrived(st, u) + Brought(ev)
    && StoredAt(st) + Arrived(st, u) <= N.Stored(v) <= StoredAt(st) + Arrived(st, r)
    && (c.build.Chunked? ==> N.Stored(v) == StoredAt(st) + Arrived(st, u))
    && (Content(r.w.files, u.s.transfer.file.path) == N.Stored(v) <==> N.CloseKeeps(c.build, v))
  }

  /** One call of the engine on an upload that goes smoothly. */
  lemma UploadStep(c: Config, st: St, u: St, io: Io)
    requires Uploaded(c, st, u) && u.s.Busy() && Smooth(u, io)
    ensures Uploaded(c, st, Progress(c, u, io))
  {
    hide StoredAt, TrafficOf, N.CloseLands, Finish;
    match io.recv
    case RecvBlocks => assert StorStep(c, u, io) == u;
    case RecvFails => FinishTraffic(c, u, 426, io.closing);
    case Got(all) =>
      if Chunk(all) == [] {
        hide StorStep;
        UploadEnds(c, st, u, io);
      } else {
        hide StorStep;
        UploadChunk(c, st, u, io);
      }
  }

  lemma UploadEnds(c: Config, st: St, u: St, io: Io)
    requires Uploaded(c, st, u) && u.s.Busy() && Smooth(u, io) && io.recv.Got? && Chunk(io.recv.data) == []
    ensures Uploaded(c, st, StorStep(c, u, io))
  {
    hide StoredAt, TrafficOf, StorStep;
    UploadCompletes(c, u, io);
  }

  lemma StoringMode(c: Config, u: St)
    requires Storing(c, u)
    ensures u.s.transfer.mode == Stor
  {
  }

  lemma UploadChunk(c: Config, st: St, u: St, io: Io)
    requires Uploaded(c, st, u) && u.s.Busy() && io.recv.Got? && Chunk(io.recv.data) != []
    ensures Uploaded(c, st, StorStep(c, u, io))
  {
    hide StoredAt, TrafficOf, StorStep, Storing, Chunk;
    StoringMode(c, u);
    var r := StorStep(c, u, io);
    var b := Chunk(io.recv.data);
    if r.s.Busy() {
      ChunkStored(c, u, io);
      assert Arrived(st, r) == Arrived(st, u) + b;
      assert StoredAt(st) + Arrived(st, u) + b == StoredAt(st) + (Arrived(st, u) + b);
    } else {
      ChunkRefused(c, u, io);
    }
  }

  /** A chunk that cannot be written ends the upload with a 426. */
  lemma ChunkRefused(c: Config, u: St, io: Io)
    requires u.s.transfer.mode == Stor && io.recv.Got? && Chunk(io.recv.data) != []
    requires !StorStep(c, u, io).s.Busy()
    ensures TrafficOf(StorStep(c, u, io).log) ==
            Count(Count(TrafficOf(u.log), Received(Chunk(io.recv.data))), Reply(426, ""))
  {
    hide Finish, N.Write;
    var b := Chunk(io.recv.data);
    TrafficEmit(u, Received(b));
    var w := N.Write(c.build, Mounted(u.w, u.s.transfer.file, io.faults), b);
    FinishTraffic(c, Unmount(Emit(u, Received(b)), u.s.transfer.file.path, w.v), 426, io.closing);
  }

  lemma UploadRefused(c: Config, st: St, u: St, r: St, text: string)
    requires Uploaded(c, st, u) && u.s.Busy() && Unmoved(u, r, text)
    ensures Uploaded(c, st, r)
  {
    UnmovedTraffic(u, r, text);
    SameStored(u, r);
    hide StoredAt, TrafficOf, Unmoved;
  }

  // How the engine ends an upload: at the end of the stream, on a failed receive, on a chunk it cannot write.

  lemma EngineEnds(c: Config, st: St, u: St, io: Io)
    requires Uploaded(c, st, u) && u.s.Busy() && !StorStep(c, u, io).s.Busy()
    ensures EndedBy(c, st, u, DataReady(io), StorStep(c, u, io))
  {
    hide StoredAt, TrafficOf, StorStep, Storing, N.Writer, N.Stored, N.CloseKeeps;
    StoringMode(c, u);
    var b := Brought(DataReady(io));
    if b != [] {
      RefusedStores(c, u, io);
      ChunkRefused(c, u, io);
      MoreArrived(st, u, StorStep(c, u, io), b);
    } else {
      NothingMoreStores(c, u, io);
      MoreArrived(st, u, StorStep(c, u, io), []);
    }
    StoredUpTo(StoredAt(st), Arrived(st, u), b);
  }

  lemma StoredUpTo(a: seq<byte>, p: seq<byte>, b: seq<byte>)
    ensures a + p + b == a + (p + b) && p + [] == p
  {
  }

  lemma MoreArrived(st: St, u: St, r: St, b: seq<byte>)
    requires TrafficOf(st.log).received <= TrafficOf(u.log).received
    requires TrafficOf(r.log).received == TrafficOf(u.log).received + b
    ensures Arrived(st, r) == Arrived(st, u) + b
  {
    hide TrafficOf;
  }

  /** The stream is at its end, or cannot be read: the close finds the handle as it was. */
  lemma NothingMoreStores(c: Config, u: St, io: Io)
    requires Storing(c, u) && Brought(DataReady(io)) == [] && !StorStep(c, u, io).s.Busy()
    ensures var v := Closing(c, u, DataReady(io));
            var r := StorStep(c, u, io);
            && N.Writer(c.build, v) && N.Stored(v) == StoredAt(u)
            && TrafficOf(r.log).received == TrafficOf(u.log).received
            && (Content(r.w.files, u.s.transfer.file.path) == StoredAt(u) <==> N.CloseKeeps(c.build, v))
  {
    hide N.CloseKeeps, N.Close, Finish, TrafficOf, N.Stored;
    var v := Closing(c, u, DataReady(io));
    StoredIgnoresFaults(v, []);
    N.CloseExact(c.build, v);
    if io.recv.Got? {
      FinishTraffic(c, u, 226, io.closing);
      FinishFiles(c, u, 226, io.closing);
    } else {
      FinishTraffic(c, u, 426, io.closing);
      FinishFiles(c, u, 426, io.closing);
    }
  }

  /** A chunk is refused: the close finds the handle as the failed write has left it. */
  lemma RefusedStores(c: Config, u: St, io: Io)
    requires Storing(c, u) && Brought(DataReady(io)) != [] && !StorStep(c, u, io).s.Busy()
    ensures var v := Closing(c, u, DataReady(io));
            && N.Writer(c.build, v)
            && StoredAt(u) <= N.Stored(v) <= StoredAt(u) + Brought(DataReady(io))
            && (c.build.Chunked? ==> N.Stored(v) == StoredAt(u))
            && (Content(StorStep(c, u, io).w.files, u.s.transfer.file.path) == N.Stored(v)
                <==> N.CloseKeeps(c.build, v))
  {
    hide N.CloseKeeps, N.Close, Finish, TrafficOf, N.Stored, N.Write;
    var h := u.s.transfer.file;
    var b := Chunk(io.recv.data);
    var m := Mounted(u.w, h, io.faults);
    StoredIgnoresFaults(m, []);
    WriteStores(c.build, m, b);
    var w := N.Write(c.build, m, b);
    var x := Unmount(Emit(u, Received(b)), h.path, w.v);
    StoredIgnoresFaults(w.v, io.closing);
    N.CloseExact(c.build, w.v.(faults := io.closing));
    assert Mounted(x.w, x.s.transfer.file, io.closing) == w.v.(faults := io.closing);
    FinishFiles(c, x, 426, io.closing);
  }

  /** The last event of a run has ended the upload of slot `i`. */
  ghost predicate Over(c: Config, sv: Server, i: Slot, evs: seq<(Slot, Event)>)
    requires Shaped(sv)
  {
    evs != [] &&
    var n := |evs| - 1;
    evs[n].0 == i && EndedBy(c, View(sv, i), View(Run(c, sv, evs[..n]), i), evs[n].1, View(Run(c, sv, evs), i))
  }

  /**
    Every upload is exact: over any run of the whole server in which it goes smoothly, what
    arrived is stored in order while it is on; and when it is over, with a 226 or a 426, the
    file holds what had been stored if and only if the close goes well.
  */
  lemma {:induction false} UploadExact(c: Config, sv: Server, i: Slot, evs: seq<(Slot, Event)>)
    requires SvGood(c, sv) && Storing(c, View(sv, i))
    requires WrittenInPeace(c, sv, i, evs)
    ensures Uploaded(c, View(sv, i), View(Run(c, sv, evs), i))
    ensures !Run(c, sv, evs).sessions[i].Busy() ==> Over(c, sv, i, evs)
  {
    hide StoredAt, TrafficOf, EndedBy, SvGood, At;
    GoodShaped(c, sv);
    if evs != [] {
      var n := |evs| - 1;
      var u := Run(c, sv, evs[..n]);
      UploadExact(c, sv, i, evs[..n]);
      RunGood(c, sv, evs[..n]);
      UploadNext(c, View(sv, i), u, i, evs[n]);
      if !Run(c, sv, evs).sessions[i].Busy() {
        OverNext(c, View(sv, i), u, i, evs[n]);
      }
    } else {
      StoringMode(c, View(sv, i));
      assert StoredAt(View(sv, i)) + [] == StoredAt(View(sv, i));
    }
  }

  lemma OverNext(c: Config, st: St, u: Server, i: Slot, e: (Slot, Event))
    requires SvGood(c, u) && u.sessions[i].Busy() && Benign(i, e)
    requires Uploaded(c, st, View(u, i))
    requires !At(c, u, e.0, e.1).sessions[i].Busy()
    ensures e.0 == i && EndedBy(c, st, View(u, i), e.1, View(At(c, u, e.0, e.1), i))
  {
    assert Good(c, View(u, i));
    hide EndedBy, Step, SvGood, Good, Uploaded;
    if e.0 == i {
      assert View(At(c, u, i, e.1), i) == Step(c, View(u, i), e.1);
      OverOwn(c, st, View(u, i), i, e.1);
    }
  }

  lemma OverOwn(c: Config, st: St, u: St, i: Slot, ev: Event)
    requires Uploaded(c, st, u) && u.s.Busy() && u.s.active && Benign(i, (i, ev)) && !Step(c, u, ev).s.Busy()
    ensures EndedBy(c, st, u, ev, Step(c, u, ev))
  {
    hide EndedBy, TrafficOf, StoredAt, VerbOf, StorStep;
    match ev
    case Connect(io) =>
    case DataReady(io) =>
      StoringMode(c, u);
      EngineEnds(c, st, u, io);
    case Command(text, io) =>
      BusyGate(c, u, text, io);
      hide Step;
  }

  lemma UploadNext(c: Config, st: St, u: Server, i: Slot, e: (Slot, Event))
    requires SvGood(c, u) && u.sessions[i].Busy() && Benign(i, e)
    requires Uploaded(c, st, View(u, i))
    requires e.0 != i ==> FileUntouched(u, At(c, u, e.0, e.1), OpenPath(u, i))
    requires e.0 == i && e.1.DataReady? ==> Smooth(View(u, i), e.1.io)
    ensures Uploaded(c, st, View(At(c, u, e.0, e.1), i))
  {
    assert Good(c, View(u, i));
    var r := View(At(c, u, e.0, e.1), i);
    if e.0 == i {
      assert r == Step(c, View(u, i), e.1);
      hide Step, Uploaded, Good;
      OwnUpload(c, st, View(u, i), i, e.1);
    } else {
      hide Step, TrafficOf, Good;
      StoredElsewhere(c, View(u, i), r.w);
    }
  }

  lemma OwnUpload(c: Config, st: St, u: St, i: Slot, ev: Event)
    requires Uploaded(c, st, u) && u.s.Busy() && u.s.active && Benign(i, (i, ev))
    requires ev.DataReady? ==> Smooth(u, ev.io)
    ensures Uploaded(c, st, Step(c, u, ev))
  {
    match ev
    case Connect(io) =>
      hide Uploaded;
    case DataReady(io) =>
      hide Uploaded, Progress, Smooth;
      UploadStep(c, st, u, io);
    case Command(text, io) =>
      BusyGate(c, u, text, io);
      hide Step, Uploaded, Unmoved;
      UploadRefused(c, st, u, Step(c, u, ev), text);
  }

  lemma StoredElsewhere(c: Config, u: St, w: World)
    requires Storing(c, u)
    requires var path := u.s.transfer.file.path; path in w.files && w.files[path] == u.w.files[path]
    ensures Storing(c, u.(w := w)) && StoredAt(u.(w := w)) == StoredAt(u)
  {
  }

  // ----------------------------------------------------------------------- round trip

  /** The calls of the close made by the last event of a run turn out so that it keeps what was stored. */
  ghost predicate ClosedWell(c: Config, sv: Server, i: Slot, evs: seq<(Slot, Event)>)
    requires Shaped(sv) && evs != []
  {
    var n := |evs| - 1;
    var u := Run(c, sv, evs[..n]);
    var v := Mounted(u.w, u.sessions[i].transfer.file, evs[n].1.io.closing);
    v.off <= |v.data| && N.CloseKeeps(c.build, v)
  }

  /**
    After the 226 of an upload the file is what was there at first and then all that
    arrived, if and only if the calls of the close that followed the 226 turned out well.
  */
  lemma UploadedFile(c: Config, sv: Server, i: Slot, evs: seq<(Slot, Event)>)
    requires SvGood(c, sv) && Storing(c, View(sv, i)) && WrittenInPeace(c, sv, i, evs)
    requires Concluded(View(Run(c, sv, evs), i), 226)
    ensures evs != []
    ensures Content(Run(c, sv, evs).w.files, OpenPath(sv, i)) ==
            StoredAt(View(sv, i)) + Arrived(View(sv, i), View(Run(c, sv, evs), i))
            <==> ClosedWell(c, sv, i, evs)
  {
    hide SvGood, At, StoredAt, TrafficOf, N.CloseKeeps, Storing, Content, Mounted, Arrived, EndedBy, WrittenInPeace;
    GoodShaped(c, sv);
    UploadExact(c, sv, i, evs);
    var n := |evs| - 1;
    var u := Run(c, sv, evs[..n]);
    OverRun(c, sv, i, evs);
    LastCode(c, u, i, evs[n].1);
    WholeStored(c, View(sv, i), View(u, i), evs[n].1, View(Run(c, sv, evs), i));
  }

  /** A run that has ended an upload was still uploading before its last event. */
  lemma OverRun(c: Config, sv: Server, i: Slot, evs: seq<(Slot, Event)>)
    requires SvGood(c, sv) && Storing(c, View(sv, i)) && WrittenInPeace(c, sv, i, evs)
    requires !Run(c, sv, evs).sessions[i].Busy()
    ensures evs != [] && evs[|evs| - 1].0 == i
    ensures var u := Run(c, sv, evs[..|evs| - 1]);
            && SvGood(c, u) && Storing(c, View(u, i)) && OpenPath(u, i) == OpenPath(sv, i)
            && Run(c, sv, evs) == At(c, u, i, evs[|evs| - 1].1)
  {
    hide SvGood, At, StoredAt, TrafficOf, Storing, EndedBy, FileUntouched;
    GoodShaped(c, sv);
    UploadExact(c, sv, i, evs);
    var n := |evs| - 1;
    UploadExact(c, sv, i, evs[..n]);
    RunGood(c, sv, evs[..n]);
  }

  /** An event that ends an upload with a 226 has brought nothing. */
  lemma LastCode(c: Config, u: Server, i: Slot, ev: Event)
    requires SvGood(c, u) && Storing(c, View(u, i)) && Concluded(View(At(c, u, i, ev), i), 226)
    ensures Brought(ev) == []
  {
    assert Good(c, View(u, i));
    StoringMode(c, View(u, i));
    assert View(At(c, u, i, ev), i) == Step(c, View(u, i), ev);
    hide At, SvGood, Good, Storing, TrafficOf, StorStep;
    if Brought(ev) != [] {
      ChunkRefused(c, View(u, i), ev.io);
    }
  }

  lemma WholeStored(c: Config, st: St, u: St, ev: Event, r: St)
    requires EndedBy(c, st, u, ev, r) && Brought(ev) == []
    ensures var v := Mounted(u.w, u.s.transfer.file, ev.io.closing);
            && v.off <= |v.data|
            && (Content(r.w.files, u.s.transfer.file.path) == StoredAt(st) + Arrived(st, r)
                <==> N.CloseKeeps(c.build, v))
  {
    hide StoredAt, TrafficOf, N.CloseKeeps, Arrived, N.Stored;
    assert Arrived(st, u) + [] == Arrived(st, u);
  }

  lemma DownloadedFile(c: Config, sv: Server, j: Slot, evs: seq<(Slot, Event)>)
    requires SvGood(c, sv) && Downloading(sv.sessions[j]) && Orderly(c, View(sv, j)) && ReadInPeace(c, sv, j, evs)
    requires Concluded(View(Run(c, sv, evs), j), 226)
    ensures TrafficOf(Run(c, sv, evs).logs[j]).sent == TrafficOf(sv.logs[j]).sent + Owed(c, View(sv, j))
  {
    hide Run, ReadInPeace, SvGood, Orderly, Owed, TrafficOf;
    DownloadExact(c, sv, j, evs);
  }

  /** What an upload starts from: the old contents if it appends, nothing otherwise. */
  function Base(sv: Server, i: Slot, text: string, path: string): seq<byte>
    requires Shaped(sv)
  {
    if VerbOf(text) == H.Some(APPE) || sv.sessions[i].marker == -1 then Content(sv.w.files, path) else []
  }

  /** Where a download starts: at the restart marker, if there is one. */
  function Start(s: Session): nat {
    if s.marker > 0 then s.marker else 0
  }

  /**
    Upload, then download.  A line on slot `i` starts an upload, which gets its 226 and is
    closed well; some other events follow that leave the file alone; a line on slot `j`
    starts a download of the same file, which gets its 226.  What `j` has been sent is what
    was there before if the upload appended, and then what `i` had uploaded, from the
    restart marker of `j` on, byte for byte, in both builds of the back end.
  */
  lemma RoundTrip(c: Config, sv: Server, i: Slot, stor: string, io: Io, up: seq<(Slot, Event)>,
                  mid: seq<(Slot, Event)>, j: Slot, retr: string, io': Io, down: seq<(Slot, Event)>)
    requires SvGood(c, sv) && !sv.sessions[i].Busy() && up != []
    requires var sv0 := At(c, sv, i, Command(stor, io));
             var sv1 := Run(c, sv0, up);
             var sv2 := Run(c, sv1, mid);
             var sv3 := At(c, sv2, j, Command(retr, io'));
             var path := OpenPath(sv0, i);
             && sv0.sessions[i].transfer.mode == Stor
             && WrittenInPeace(c, sv0, i, up) && Concluded(View(sv1, i), 226) && ClosedWell(c, sv0, i, up)
             && Content(sv2.w.files, path) == Content(sv1.w.files, path)
             && !sv2.sessions[j].Busy()
             && sv3.sessions[j].transfer.mode == Retr && OpenPath(sv3, j) == path
             && ReadInPeace(c, sv3, j, down) && Concluded(View(Run(c, sv3, down), j), 226)
    ensures var sv0 := At(c, sv, i, Command(stor, io));
            var sv1 := Run(c, sv0, up);
            var sv2 := Run(c, sv1, mid);
            var sv3 := At(c, sv2, j, Command(retr, io'));
            TrafficOf(Run(c, sv3, down).logs[j]).sent ==
            TrafficOf(sv3.logs[j]).sent
            + Tail(Base(sv, i, stor, OpenPath(sv0, i)) + Arrived(View(sv0, i), View(sv1, i)), Start(sv2.sessions[j]))
  {
    var sv0 := At(c, sv, i, Command(stor, io));
    var sv1 := Run(c, sv0, up);
    var sv2 := Run(c, sv1, mid);
    var sv3 := At(c, sv2, j, Command(retr, io'));
    StorCommand(c, sv, i, stor, io);
    AtGood(c, sv, i, Command(stor, io));
    RunGood(c, sv0, up);
    RunGood(c, sv1, mid);
    AtGood(c, sv2, j, Command(retr, io'));
    RetrCommand(c, sv2, j, retr, io');
    hide Run, At, Concluded, TrafficOf, StoredAt, Storing, WrittenInPeace, ReadInPeace, SvGood, Orderly, ClosedWell;
    hide Tail;
    UploadedFile(c, sv0, i, up);
    DownloadedFile(c, sv3, j, down);
  }

  /** A control line that leaves an idle session in an upload was a STOR or an APPE that got its connection. */
  lemma StorCommand(c: Config, sv: Server, i: Slot, text: string, io: Io)
    requires SvGood(c, sv) && !sv.sessions[i].Busy()
    requires At(c, sv, i, Command(text, io)).sessions[i].transfer.mode == Stor
    ensures var sv' := At(c, sv, i, Command(text, io));
            && (VerbOf(text) == H.Some(STOR) || VerbOf(text) == H.Some(APPE))
            && Storing(c, View(sv', i))
            && StoredAt(View(sv', i)) == Base(sv, i, text, OpenPath(sv', i))
  {
    assert Good(c, View(sv, i));
    StorLine(c, View(sv, i), text, io);
  }

  lemma StorLine(c: Config, st: St, text: string, io: Io)
    requires Good(c, st) && !st.s.Busy()
    requires Step(c, st, Command(text, io)).s.transfer.mode == Stor
    ensures var r := Step(c, st, Command(text, io));
            && (VerbOf(text) == H.Some(STOR) || VerbOf(text) == H.Some(APPE))
            && Storing(c, r)
            && StoredAt(r) == (if VerbOf(text) == H.Some(APPE) || st.s.marker == -1
                               then Content(st.w.files, r.s.transfer.file.path) else [])
  {
    var len := FindCrlf(text) + 2;
    hide LineStep, Storing, StoredAt;
    if st.s.active && FindCrlf(text) < |text| {
      var data := LineOutcome(c, st, text, len, io);
      StartsItsOwn(c, Emit(st, Line(text[..len])), VerbOf(text).value, data, io);
      hide Execute;
      ExecuteStor(c, Emit(st, Line(text[..len])), VerbOf(text).value, data, io);
    }
  }

  lemma ExecuteStor(c: Config, st: St, v: Verb, data: string, io: Io)
    requires !st.s.Busy()
    requires Execute(c, st, v, data, io).s.transfer.mode == Stor
    ensures var r := Execute(c, st, v, data, io);
            && Storing(c, r)
            && StoredAt(r)
               == (if v == APPE || st.s.marker == -1 then Content(st.w.files, r.s.transfer.file.path) else [])
  {
    hide CmdUser, CmdPass, CmdCwd, CmdCdup, CmdCode, CmdRest, CmdRnfr, CmdRnto, CmdTree, CmdSize;
    hide CmdRetr, CmdStor, CmdList, CmdPort, CmdPasv, CmdAbor, Storing, StoredAt, ScanLine, Resolve;
    if v == STOR {
      StorStarts(c, st, data, io);
    } else if v == APPE {
      StorStarts(c, st.(s := st.s.(marker := -1)), data, io);
    } else {
      StartsItsOwn(c, st, v, data, io);
      hide Execute;
    }
  }

  // Each command that can start a transfer starts one of its own mode, or none.

  lemma RetrMode(c: Config, st: St, data: string, io: Io)
    requires !st.s.Busy()
    ensures CmdRetr(c, st, data, io).s.transfer.mode in {Idle, Retr}
  {
    var path := FixedPath(c, Resolve(st.s, ScanLine(data, PATH_LIMIT)).path);
    VfsKeepsMarks(c, st, path, N.READ, io.faults);
    var o := VfsOpen(st, path, N.READ, io.faults);
    VfsKeepsMarks(c, Say(o.st, 550), path, N.READ, io.closing);
    RetrFromMode(c, o.st, io);
    hide RetrFrom, VfsOpen, VfsClose, Resolve, ScanLine;
  }

  lemma RetrFromMode(c: Config, st: St, io: Io)
    requires !st.s.Busy()
    ensures RetrFrom(c, st, io).s.transfer.mode in {Idle, Retr}
  {
    var p := Positioned(st, io).st;
    var d := DataOpen(p, io).st;
    DataOpenTraffic(p, io);
    VfsKeepsMarks(c, Say(p, 550), "", N.READ, io.closing);
    VfsKeepsMarks(c, Say(d, 425), "", N.READ, io.closing);
    hide DataOpen, VfsOpen, VfsClose, TrafficOf;
  }

  lemma StorMode(c: Config, st: St, data: string, io: Io)
    requires !st.s.Busy()
    ensures CmdStor(c, st, data, io).s.transfer.mode in {Idle, Stor}
  {
    var append := st.s.marker == -1;
    var u := if append then st.(s := st.s.(marker := 0)) else st;
    var path := FixedPath(c, Resolve(u.s, ScanLine(data, PATH_LIMIT)).path);
    var mode := if append then N.APPEND else N.WRITE;
    VfsKeepsMarks(c, u, path, mode, io.faults);
    var o := VfsOpen(u, path, mode, io.faults).st;
    var d := DataOpen(o, io).st;
    DataOpenTraffic(o, io);
    VfsKeepsMarks(c, Say(d, 425), path, mode, io.closing);
    hide DataOpen, VfsOpen, VfsClose, Resolve, ScanLine, TrafficOf;
  }

  lemma ListMode(c: Config, st: St, data: string, mode: Mode, io: Io)
    requires !st.s.Busy()
    ensures CmdList(c, st, data, mode, io).s.transfer.mode in {Idle, mode}
  {
    hide ListPath, ScanLine, DeviceList, FixedPath, ListFrom, ListDevices;
    var b := ListPath(st.s, ScanLine(data, PATH_LIMIT));
    ListFromMode(st.(s := st.s.(tempPath := b.path)), mode, io);
    ListFromMode(st.(s := st.s.(tempPath := FixedPath(c, b.path))), mode, io);
  }

  lemma ListFromMode(st: St, mode: Mode, io: Io)
    requires !st.s.Busy()
    ensures ListDevices(st, mode, io).s.transfer.mode in {Idle, mode}
    ensures ListFrom(st, mode, io).s.transfer.mode in {Idle, mode}
  {
    DataOpenTraffic(st, io);
    DataOpenTraffic(Emit(SetTransfer(st, st.s.transfer.(dir := Dir(true, io.entries))), DirOpened(st.s.tempPath)), io);
    DataOpenTraffic(SetTransfer(st, Build(st.s.transfer, io.line)), io);
    hide DataOpen, TrafficOf, Fits;
  }

  lemma StartsItsOwn(c: Config, st: St, v: Verb, data: string, io: Io)
    requires !st.s.Busy()
    ensures match Execute(c, st, v, data, io).s.transfer.mode
            case Idle => true
            case Retr => v == RETR
            case Stor => v == STOR || v == APPE
            case List => v == LIST
            case Nlst => v == NLST
  {
    hide CmdUser, CmdPass, CmdCwd, CmdCdup, CmdCode, CmdRest, CmdRnfr, CmdRnto, CmdTree, CmdSize;
    hide CmdRetr, CmdStor, CmdList, CmdPort, CmdPasv, CmdAbor;
    if IsTransferVerb(v) {
      RetrMode(c, st, data, io);
      StorMode(c, st, data, io);
      StorMode(c, st.(s := st.s.(marker := -1)), data, io);
      ListMode(c, st, data, List, io);
      ListMode(c, st, data, Nlst, io);
    } else if IsConnectionVerb(v) {
      ConnectionIdle(c, st, data, io);
    } else {
      hide Execute;
      QuickCalm(c, st, v, data, io);
    }
  }

  /** A control line that leaves an idle session in a download was a RETR that got its connection. */
  lemma RetrCommand(c: Config, sv: Server, j: Slot, text: string, io: Io)
    requires SvGood(c, sv) && !sv.sessions[j].Busy()
    requires At(c, sv, j, Command(text, io)).sessions[j].transfer.mode == Retr
    ensures var sv' := At(c, sv, j, Command(text, io));
            var st' := View(sv', j);
            && VerbOf(text) == H.Some(RETR)
            && Orderly(c, st')
            && sv'.w.files == sv.w.files
            && Owed(c, st') == Tail(Content(sv.w.files, OpenPath(sv', j)), Start(sv.sessions[j]))
  {
    assert Good(c, View(sv, j));
    RetrLine(c, View(sv, j), text, io);
  }

  lemma RetrLine(c: Config, st: St, text: string, io: Io)
    requires Good(c, st) && !st.s.Busy()
    requires Step(c, st, Command(text, io)).s.transfer.mode == Retr
    ensures var r := Step(c, st, Command(text, io));
            && VerbOf(text) == H.Some(RETR)
            && Orderly(c, r) && r.w.files == st.w.files
            && Owed(c, r)
               == Tail(Content(st.w.files, r.s.transfer.file.path), if st.s.marker > 0 then st.s.marker else 0)
  {
    var len := FindCrlf(text) + 2;
    hide LineStep, Orderly, Owed;
    if st.s.active && FindCrlf(text) < |text| {
      var data := LineOutcome(c, st, text, len, io);
      StartsItsOwn(c, Emit(st, Line(text[..len])), VerbOf(text).value, data, io);
      hide Execute;
      ExecuteRetr(c, Emit(st, Line(text[..len])), VerbOf(text).value, data, io);
    }
  }

  /** A line that changes the session at all got past the gates to its handler. */
  lemma LineOutcome(c: Config, st: St, text: string, len: nat, io: Io) returns (data: string)
    requires IsLine(text, len)
    requires LineStep(c, st, text, len, io).s != st.s
    ensures VerbOf(text).Some?
    ensures LineStep(c, st, text, len, io) == Execute(c, Emit(st, Line(text[..len])), VerbOf(text).value, data, io)
  {
    hide Execute, VerbOf, ScanLine, ArgOf;
    VerbInsideLine(text, len);
    var arg := ArgOf(text, len, VerbOf(text).value);
    data := if arg.Some? then arg.value else "";
  }

  lemma ExecuteRetr(c: Config, st: St, v: Verb, data: string, io: Io)
    requires !st.s.Busy() && !st.s.transfer.dir.isValid
    requires Execute(c, st, v, data, io).s.transfer.mode == Retr
    ensures var r := Execute(c, st, v, data, io);
            && Orderly(c, r) && r.w.files == st.w.files
            && Owed(c, r)
               == Tail(Content(st.w.files, r.s.transfer.file.path), if st.s.marker > 0 then st.s.marker else 0)
  {
    hide Orderly, Owed, Resolve, ScanLine, H.ScanInt, H.ParsePort;
    if v == RETR {
      RetrOwes(c, st, data, io);
    } else {
      StartsItsOwn(c, st, v, data, io);
      hide Execute;
    }
  }

  lemma ConnectionIdle(c: Config, st: St, data: string, io: Io)
    requires !st.s.Busy()
    ensures !CmdPort(c, st, data, io).s.Busy() && !CmdPasv(c, st, io).s.Busy() && !CmdAbor(c, st, io).s.Busy()
  {
    TransferEndIdle(c, st, io.closing);
    hide TransferEnd, H.ParsePort, H.PassiveText;
  }
}
