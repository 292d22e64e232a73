/**
  From a freshly started server to a file that has been sent there and back: what a client
  has to do, and that it can be done with any server, any name and any bytes.
*/
module Walkthrough {
  import opened CText
  import opened Session
  import opened Monitor
  import opened Conduct
  import opened Transfers
  import opened Server
  import opened Deliveries
  import opened Completion
  import opened CommandLines
  import opened Dialogues
  import opened Loop
  import opened Sockets
  import opened Limits
  import P = Pathname
  import N = NxFile
  import H = HostPort

  // ----------------------------------------------------------------- the environment

  /** There is always a descriptor that is not in use. */
  lemma {:induction false} Unused(fds: set<int>) returns (fd: int)
    ensures fd > 0 && forall x | x in fds :: x < fd
    decreases |fds|
  {
    fd := 1;
    if x :| x in fds {
      var rest := Unused(fds - {x});
      fd := if x < rest then rest else x + 1;
      assert forall y | y in fds :: y == x || y in fds - {x};
    }
  }

  /** An environment in which everything works; `fd` is the descriptor it gives out. */
  function Kind(fd: int): Io {
    Io([], [], true, true, IsDir, "", true, [], true, map[], fd, true, true, true, [127, 0, 0, 1],
       N.ReadUpTo(FILE_BUFFER_SIZE), [Took(FILE_BUFFER_SIZE)], RecvBlocks)
  }

  lemma KindWorks(fd: int)
    ensures Cooperative(Kind(fd)) && Kind(fd).faults == [] && Kind(fd).closing == []
  {
    assert Kind(fd).sends == [Took(FILE_BUFFER_SIZE)];
  }

  // ------------------------------------------------------------------------ logging in

  /** The configuration lets someone in. */
  predicate Admitting(c: Config) {
    c.anon || (Named(c.user) && |c.user| <= NAME_SIZE && Named(c.pass) && |c.pass| <= NAME_SIZE)
  }

  function LoginCodes(c: Config): seq<nat> {
    if c.anon then [220, 230] else [220, 331, 230]
  }

  /** A session at the root without a restart marker, as a login finds and leaves it. */
  predicate AtRoot(s: Session) {
    s.pwd == "/" && s.marker == 0
  }

  lemma Greeted(c: Config, st: St, fd: int)
    requires Good(c, st) && !st.s.active && Granted(st.w, fd)
    ensures var r := Step(c, st, Connect(Kind(fd)));
            && Good(c, r) && r.s.active && !r.s.Busy() && AtRoot(r.s) && r.w.files == st.w.files
            && Answered(st, r, [220])
  {
    StepGood(c, st, Connect(Kind(fd)));
    hide Good, TrafficOf;
    var u := St(BLANK.(active := true, controlSock := fd, host := [127, 0, 0, 1], pwd := "/"),
                st.w.(fds := st.w.fds + {fd}), st.log);
    TrafficEmit(u, Accepted(fd));
    TrafficEmit(Emit(u, Accepted(fd)), Reply(220, ""));
  }

  /** USER, with what it makes of a name that is the right one. */
  lemma UserSpoken(c: Config, st: St, io: Io)
    requires Admitting(c) && Good(c, st) && st.s.active && !st.s.Busy()
    ensures var r := Step(c, st, Command(Spoken(USER, H.Some(if c.anon then "anonymous" else c.user)), io));
            && Good(c, r) && r.s == st.s.(auth := if c.anon then Valid else NeedPass) && r.w == st.w
            && Answered(st, r, [if c.anon then 230 else 331])
  {
    hide Spoken, Execute, Step, Good, TrafficOf, ScanLine, Speakable;
    var name := if c.anon then "anonymous" else c.user;
    assert Speakable(H.Some(name)) by { AnonymousSpeakable(); }
    var line := Spoken(USER, H.Some(name));
    var l := Emit(st, Line(line));
    SpokenStep(c, st, USER, H.Some(name), io);
    StepGood(c, st, Command(line, io));
    ScanSpoken(name, NAME_SIZE);
    ExecuteUser(c, l, name + CRLF, io);
    LineQuiet(st, line);
    var code := if c.anon then 230 else 331;
    SayAnswers(l, code, "");
    SameLog(CmdUser(c, l, name + CRLF), Say(l, code));
  }

  lemma AnonymousSpeakable()
    ensures Speakable(H.Some("anonymous"))
  {
  }

  lemma ExecuteUser(c: Config, st: St, data: string, io: Io)
    ensures Execute(c, st, USER, data, io) == CmdUser(c, st, data)
    ensures Execute(c, st, PASS, data, io) == CmdPass(c, st, data)
  {
    hide CmdUser, CmdPass;
  }

  lemma PassSpoken(c: Config, st: St, io: Io)
    requires Admitting(c) && !c.anon && Good(c, st) && st.s.active && !st.s.Busy() && st.s.auth == NeedPass
    ensures var r := Step(c, st, Command(Spoken(PASS, H.Some(c.pass)), io));
            Good(c, r) && r.s == st.s.(auth := Valid) && r.w == st.w && Answered(st, r, [230])
  {
    hide Spoken, Execute, Step, Good, TrafficOf, ScanLine, Speakable;
    var line := Spoken(PASS, H.Some(c.pass));
    var l := Emit(st, Line(line));
    SpokenStep(c, st, PASS, H.Some(c.pass), io);
    StepGood(c, st, Command(line, io));
    ScanSpoken(c.pass, NAME_SIZE);
    ExecuteUser(c, l, c.pass + CRLF, io);
    LineQuiet(st, line);
    SayAnswers(l, 230, "");
    SameLog(CmdPass(c, l, c.pass + CRLF), Say(l, 230));
  }

  /** One more event on slot `i` of a server that has got somewhere. */
  lemma OneMore(c: Config, sv: Server, evs: seq<(Slot, Event)>, i: Slot, ev: Event) returns (more: seq<(Slot, Event)>)
    requires SvGood(c, sv)
    ensures SvGood(c, Run(c, sv, more))
    ensures View(Run(c, sv, more), i) == Step(c, View(Run(c, sv, evs), i), ev)
    ensures more == evs + [(i, ev)]
  {
    more := evs + [(i, ev)];
    assert more[..|evs|] == evs;
    RunGood(c, sv, more);
    hide Step, SvGood;
    GoodShaped(c, sv);
  }

  /** The line that gives the name. */
  function UserLine(c: Config): string {
    Spoken(USER, H.Some(if c.anon then "anonymous" else c.user))
  }

  function PassLine(c: Config): string {
    Spoken(PASS, H.Some(c.pass))
  }

  lemma LoginDialogue(c: Config, st: St, fd: int)
    requires Good(c, st) && !st.s.active && Granted(st.w, fd) && Admitting(c)
    ensures var st1 := Step(c, st, Connect(Kind(fd)));
            var st2 := Step(c, st1, Command(UserLine(c), Kind(fd)));
            var r := if c.anon then st2 else Step(c, st2, Command(PassLine(c), Kind(fd)));
            Ready(c, r) && AtRoot(r.s) && r.w.files == st.w.files && Answered(st, r, LoginCodes(c))
  {
    hide Step, Good, TrafficOf, Spoken, Admitting, Kind;
    var st1 := Step(c, st, Connect(Kind(fd)));
    var st2 := Step(c, st1, Command(UserLine(c), Kind(fd)));
    Greeted(c, st, fd);
    UserSpoken(c, st1, Kind(fd));
    AnsweredThen(st, st1, st2, [220], [if c.anon then 230 else 331]);
    if !c.anon {
      PassSpoken(c, st2, Kind(fd));
      AnsweredThen(st, st2, Step(c, st2, Command(PassLine(c), Kind(fd))), [220, 331], [230]);
    }
  }

  /** Anyone whom the configuration lets in can get in, on any free slot. */
  lemma LogIn(c: Config, sv: Server, i: Slot) returns (evs: seq<(Slot, Event)>)
    requires SvGood(c, sv) && !sv.sessions[i].active && Admitting(c)
    ensures var u := Run(c, sv, evs);
            && SvGood(c, u) && Ready(c, View(u, i)) && AtRoot(u.sessions[i]) && u.w.files == sv.w.files
            && Answered(View(sv, i), View(u, i), LoginCodes(c))
  {
    assert Shaped(sv) && Good(c, View(sv, i));
    hide SvGood, Step, Run, Ready, Answered, Good, UserLine, PassLine, Admitting, Kind, LoginCodes;
    var fd := Unused(sv.w.fds);
    RunNothing(c, sv);
    LoginDialogue(c, View(sv, i), fd);
    evs := OneMore(c, sv, [], i, Connect(Kind(fd)));
    evs := OneMore(c, sv, evs, i, Command(UserLine(c), Kind(fd)));
    if !c.anon {
      evs := OneMore(c, sv, evs, i, Command(PassLine(c), Kind(fd)));
    }
  }

  // --------------------------------------------------------------------------- there

  /** The session is still the same client's, in the same place. */
  predicate Staying(s: Session, r: Session) {
    r.active == s.active && r.auth == s.auth && r.pwd == s.pwd && r.marker == s.marker
  }

  lemma FinishStays(c: Config, st: St, code: nat, closing: seq<N.Fault>)
    ensures Staying(st.s, Finish(c, st, code, closing).s)
  {
  }

  lemma StorStays(c: Config, st: St, io: Io)
    requires st.s.transfer.mode == Stor
    ensures Staying(st.s, StorStep(c, st, io).s)
  {
    hide Finish, N.Write;
    FinishStays(c, st, 426, io.closing);
    FinishStays(c, st, 226, io.closing);
    if io.recv.Got? {
      var b := Chunk(io.recv.data);
      var u := Unmount(Emit(st, Received(b)), st.s.transfer.file.path,
                       N.Write(c.build, Mounted(st.w, st.s.transfer.file, io.faults), b).v);
      FinishStays(c, u, 426, io.closing);
    }
  }

  lemma OneCallStays(c: Config, u: Server, i: Slot, io: Io)
    requires SvGood(c, u) && Sturdy(c, View(u, i))
    ensures Staying(u.sessions[i], At(c, u, i, DataReady(io)).sessions[i])
  {
    SturdyStoring(c, View(u, i));
    StoringMode(c, View(u, i));
    ReadyStep(c, u, i, io);
    StorStays(c, View(u, i), io);
    hide StorStep, Staying, Sturdy;
  }

  lemma ArrivingReady(c: Config, sv: Server, i: Slot, io: Io, chunks: seq<seq<byte>>)
    requires SvGood(c, sv) && Sturdy(c, View(sv, i)) && Sized(chunks) && io.faults == [] && io.closing == []
    ensures var u := Run(c, sv, Arriving(i, io, chunks));
            SvGood(c, u) && Sturdy(c, View(u, i))
  {
    hide SvGood, Sturdy, At, Run, TrafficOf, WrittenInPeace, Flatten, Arriving;
    GoodShaped(c, sv);
    ArrivingStores(c, sv, i, io, chunks);
    RunGood(c, sv, Arriving(i, io, chunks));
  }

  lemma {:induction false} ArrivingStays(c: Config, sv: Server, i: Slot, io: Io, chunks: seq<seq<byte>>)
    requires SvGood(c, sv) && Sturdy(c, View(sv, i)) && Sized(chunks) && io.faults == [] && io.closing == []
    ensures Staying(sv.sessions[i], Run(c, sv, Arriving(i, io, chunks)).sessions[i])
  {
    hide SvGood, Sturdy, At;
    GoodShaped(c, sv);
    if chunks != [] {
      var n := |chunks| - 1;
      var evs := Arriving(i, io, chunks[..n]);
      var ev := DataReady(io.(recv := Got(chunks[n])));
      ArrivingStays(c, sv, i, io, chunks[..n]);
      ArrivingReady(c, sv, i, io, chunks[..n]);
      OneCallStays(c, Run(c, sv, evs), i, ev.io);
      assert (evs + [(i, ev)])[..|evs|] == evs;
    }
  }

  lemma UploadStays(c: Config, sv: Server, i: Slot, io: Io, chunks: seq<seq<byte>>)
    requires SvGood(c, sv) && Sturdy(c, View(sv, i)) && Sized(chunks) && io.faults == [] && io.closing == []
    ensures Staying(sv.sessions[i], Run(c, sv, Upload(i, io, chunks)).sessions[i])
  {
    hide SvGood, Sturdy, At;
    GoodShaped(c, sv);
    var evs := Arriving(i, io, chunks);
    var ev := DataReady(io.(recv := Got([])));
    ArrivingStays(c, sv, i, io, chunks);
    ArrivingReady(c, sv, i, io, chunks);
    OneCallStays(c, Run(c, sv, evs), i, ev.io);
    assert (evs + [(i, ev)])[..|evs|] == evs;
  }

  /** What a walk from `st` to `r` moved: bytes in, bytes out, and the replies. */
  ghost predicate Moved(st: St, r: St, received: seq<byte>, sent: seq<byte>, codes: seq<nat>) {
    var t := TrafficOf(st.log);
    TrafficOf(r.log) == Traffic(t.sent + sent, t.received + received, t.replies + codes)
  }

  lemma MovedThen(st: St, u: St, r: St, a: seq<byte>, b: seq<byte>, p: seq<nat>,
                  a': seq<byte>, b': seq<byte>, q: seq<nat>)
    requires Moved(st, u, a, b, p) && Moved(u, r, a', b', q)
    ensures Moved(st, r, a + a', b + b', p + q)
  {
    hide TrafficOf;
    var t := TrafficOf(st.log);
    assert t.sent + b + b' == t.sent + (b + b');
    assert t.received + a + a' == t.received + (a + a');
    assert t.replies + p + q == t.replies + (p + q);
  }

  lemma AnsweredThenMoved(st: St, u: St, r: St, p: seq<nat>, a: seq<byte>, b: seq<byte>, q: seq<nat>)
    requires Answered(st, u, p) && Moved(u, r, a, b, q)
    ensures Moved(st, r, a, b, p + q)
  {
    hide TrafficOf;
    assert TrafficOf(st.log).replies + p + q == TrafficOf(st.log).replies + (p + q);
  }

  lemma TransferMoved(st: St, u: St, r: St, a: seq<byte>, b: seq<byte>)
    requires Answered(st, u, [227, 150]) && Moved(u, r, a, b, [226])
    ensures Moved(st, r, a, b, [227, 150, 226])
  {
    hide Answered, Moved;
    AnsweredThenMoved(st, u, r, [227, 150], a, b, [226]);
    assert [227, 150] + [226] == [227, 150, 226];
  }

  /** PASV and STOR, with descriptors that are free. */
  lemma UploadDialogue(c: Config, st: St, name: string, fd: int, fd': int)
    requires Ready(c, st) && st.s.marker == 0 && Named(name) && Resolve(st.s, name).ok && Granted(st.w, fd)
    requires Granted(Step(c, st, Command(Spoken(PASV, H.None), Kind(fd))).w, fd')
    ensures var st1 := Step(c, st, Command(Spoken(PASV, H.None), Kind(fd)));
            var r := Step(c, st1, Command(Spoken(STOR, H.Some(name)), Kind(fd')));
            && Sturdy(c, r) && Staying(st.s, r.s)
            && r.s.transfer.file.path == PathOf(c, st.s, name) && StoredAt(r) == []
            && Answered(st, r, [227, 150])
  {
    hide Step, Good, Sturdy, StoredAt, TrafficOf, Spoken, Resolve, FixedPath, Named;
    var st1 := Step(c, st, Command(Spoken(PASV, H.None), Kind(fd)));
    PasvSpoken(c, st, Kind(fd));
    SameNames(c, st.s, st1.s, name);
    StorSpoken(c, st1, STOR, name, Kind(fd'));
    AnsweredThen(st, st1, Step(c, st1, Command(Spoken(STOR, H.Some(name)), Kind(fd'))), [227], [150]);
  }

  lemma BeginUpload(c: Config, sv: Server, i: Slot, name: string) returns (evs: seq<(Slot, Event)>, fd: int)
    requires SvGood(c, sv) && Ready(c, View(sv, i)) && sv.sessions[i].marker == 0
    requires Named(name) && Resolve(sv.sessions[i], name).ok
    ensures var u := Run(c, sv, evs);
            && SvGood(c, u) && Sturdy(c, View(u, i)) && Staying(sv.sessions[i], u.sessions[i])
            && OpenPath(u, i) == PathOf(c, sv.sessions[i], name) && StoredAt(View(u, i)) == []
            && Answered(View(sv, i), View(u, i), [227, 150])
  {
    hide SvGood, Step, Run, Ready, Sturdy, StoredAt, Answered, Staying, Spoken, Resolve, PathOf, Named, Kind;
    GoodShaped(c, sv);
    RunNothing(c, sv);
    var fd0 := Unused(sv.w.fds);
    evs := OneMore(c, sv, [], i, Command(Spoken(PASV, H.None), Kind(fd0)));
    fd := Unused(Run(c, sv, evs).w.fds);
    evs := OneMore(c, sv, evs, i, Command(Spoken(STOR, H.Some(name)), Kind(fd)));
    UploadDialogue(c, View(sv, i), name, fd0, fd);
  }

  lemma CameMoved(st: St, r: St, d: seq<byte>)
    requires TrafficOf(r.log) == Count(Came(TrafficOf(st.log), d), Reply(226, ""))
    ensures Moved(st, r, d, [], [226])
  {
    hide TrafficOf;
  }

  /** All chunks arrive, and the client closes. */
  lemma StoreAll(c: Config, u: Server, i: Slot, io: Io, chunks: seq<seq<byte>>)
    requires SvGood(c, u) && Sturdy(c, View(u, i)) && Sized(chunks) && io.faults == [] && io.closing == []
    requires StoredAt(View(u, i)) == []
    ensures var r := Run(c, u, Upload(i, io, chunks));
            && !r.sessions[i].Busy() && Staying(u.sessions[i], r.sessions[i])
            && OpenPath(u, i) in r.w.files && r.w.files[OpenPath(u, i)] == Flatten(chunks)
            && Moved(View(u, i), View(r, i), Flatten(chunks), [], [226])
  {
    hide SvGood, Run, Sturdy, StoredAt, TrafficOf, Flatten, Upload, WrittenInPeace, ClosedWell, Sized, Arrived;
    hide Staying, Concluded, Moved;
    GoodShaped(c, u);
    UploadRuns(c, u, i, io, chunks);
    UploadGoesThrough(c, u, i, io, chunks);
    UploadStays(c, u, i, io, chunks);
    CameMoved(View(u, i), View(Run(c, u, Upload(i, io, chunks)), i), Flatten(chunks));
    assert [] + Flatten(chunks) == Flatten(chunks);
  }

  /** Any chunks can be stored under any name that resolves, by any client that has logged in. */
  lemma Uploads(c: Config, sv: Server, i: Slot, name: string, chunks: seq<seq<byte>>)
    returns (evs: seq<(Slot, Event)>, u: Server)
    requires SvGood(c, sv) && Ready(c, View(sv, i)) && sv.sessions[i].marker == 0
    requires Named(name) && Resolve(sv.sessions[i], name).ok && Sized(chunks)
    ensures u == Run(c, sv, evs)
    ensures && SvGood(c, u) && Ready(c, View(u, i)) && Staying(sv.sessions[i], u.sessions[i])
            && PathOf(c, sv.sessions[i], name) in u.w.files
            && u.w.files[PathOf(c, sv.sessions[i], name)] == Flatten(chunks)
            && Moved(View(sv, i), View(u, i), Flatten(chunks), [], [227, 150, 226])
  {
    hide SvGood, Run, Ready, Staying, Sturdy, StoredAt, Answered, Moved, Resolve, PathOf, Named, Flatten, Upload;
    hide Sized, Kind;
    GoodShaped(c, sv);
    var begin, fd := BeginUpload(c, sv, i, name);
    var b := Run(c, sv, begin);
    KindWorks(fd);
    StoreAll(c, b, i, Kind(fd), chunks);
    evs := begin + Upload(i, Kind(fd), chunks);
    u := Run(c, b, Upload(i, Kind(fd), chunks));
    RunConcat(c, sv, begin, Upload(i, Kind(fd), chunks));
    RunGood(c, b, Upload(i, Kind(fd), chunks));
    ReadyAgain(c, View(sv, i), b.sessions[i], u, i);
    TransferMoved(View(sv, i), View(b, i), View(u, i), Flatten(chunks), []);
  }

  lemma ReadyAgain(c: Config, st: St, s: Session, r: Server, i: Slot)
    requires Ready(c, st) && Staying(st.s, s) && SvGood(c, r)
    requires Staying(s, r.sessions[i]) && !r.sessions[i].Busy()
    ensures Ready(c, View(r, i)) && Staying(st.s, r.sessions[i])
  {
  }

  // -------------------------------------------------------------------------- and back

  /** From `st` to `r` nothing came in, and there was no reply but one at the end of the transfer. */
  ghost predicate Replied(st: St, r: St) {
    var a, b := TrafficOf(st.log), TrafficOf(r.log);
    && b.received == a.received
    && a.replies <= b.replies && |b.replies| == |a.replies| + if r.s.Busy() then 0 else 1
  }

  lemma RepliedThen(st: St, u: St, r: St)
    requires Replied(st, u) && u.s.Busy() && Replied(u, r)
    ensures Replied(st, r)
  {
    hide TrafficOf;
  }

  /** While only the engine is called, a download is answered once, at its end. */
  lemma {:induction false} ReadReplies(c: Config, sv: Server, i: Slot, evs: seq<(Slot, Event)>, io: Io)
    requires SvGood(c, sv) && Downloading(sv.sessions[i]) && Orderly(c, View(sv, i)) && ReadInPeace(c, sv, i, evs)
    requires forall e | e in evs :: e == (i, DataReady(io))
    ensures Replied(View(sv, i), View(Run(c, sv, evs), i))
  {
    hide SvGood, At, Orderly, Owed, TrafficOf, Replied;
    GoodShaped(c, sv);
    if evs != [] {
      var n := |evs| - 1;
      var u := Run(c, sv, evs[..n]);
      assert forall e | e in evs[..n] :: e in evs;
      ReadReplies(c, sv, i, evs[..n], io);
      DownloadExact(c, sv, i, evs[..n]);
      RunGood(c, sv, evs[..n]);
      assert evs[n] in evs;
      OneCallReplies(c, u, i, io);
      RepliedThen(View(sv, i), View(u, i), View(At(c, u, i, DataReady(io)), i));
    } else {
      NothingReplied(View(sv, i));
    }
  }

  lemma NothingReplied(st: St)
    requires Downloading(st.s)
    ensures Replied(st, st)
  {
  }

  lemma OneCallReplies(c: Config, u: Server, i: Slot, io: Io)
    requires SvGood(c, u) && Downloading(u.sessions[i]) && Orderly(c, View(u, i))
    ensures Replied(View(u, i), View(At(c, u, i, DataReady(io)), i))
  {
    assert Good(c, View(u, i));
    hide Orderly, Progress, TrafficOf, Owed;
    ProgressDelivers(c, View(u, i), io);
  }

  /** PASV and RETR, with descriptors that are free. */
  lemma DownloadDialogue(c: Config, st: St, name: string, fd: int, fd': int)
    requires Ready(c, st) && st.s.marker == 0 && Named(name) && Resolve(st.s, name).ok && Granted(st.w, fd)
    requires PathOf(c, st.s, name) in st.w.files
    requires Granted(Step(c, st, Command(Spoken(PASV, H.None), Kind(fd))).w, fd')
    ensures var st1 := Step(c, st, Command(Spoken(PASV, H.None), Kind(fd)));
            var r := Step(c, st1, Command(Spoken(RETR, H.Some(name)), Kind(fd')));
            && r.s.transfer.mode == Retr && Orderly(c, r)
            && Owed(c, r) == st.w.files[PathOf(c, st.s, name)]
            && Answered(st, r, [227, 150])
  {
    hide Step, Good, Orderly, Owed, TrafficOf, Spoken, Resolve, FixedPath, Named;
    var st1 := Step(c, st, Command(Spoken(PASV, H.None), Kind(fd)));
    PasvSpoken(c, st, Kind(fd));
    SameNames(c, st.s, st1.s, name);
    RetrSpokenStarts(c, st1, name, Kind(fd'));
    AnsweredThen(st, st1, Step(c, st1, Command(Spoken(RETR, H.Some(name)), Kind(fd'))), [227], [150]);
  }

  lemma BeginDownload(c: Config, sv: Server, i: Slot, name: string) returns (evs: seq<(Slot, Event)>)
    requires SvGood(c, sv) && Ready(c, View(sv, i)) && sv.sessions[i].marker == 0
    requires Named(name) && Resolve(sv.sessions[i], name).ok && PathOf(c, sv.sessions[i], name) in sv.w.files
    ensures var u := Run(c, sv, evs);
            && SvGood(c, u) && Downloading(u.sessions[i]) && Orderly(c, View(u, i))
            && Owed(c, View(u, i)) == sv.w.files[PathOf(c, sv.sessions[i], name)]
            && Answered(View(sv, i), View(u, i), [227, 150])
  {
    hide SvGood, Step, Run, Ready, Orderly, Owed, Answered, Spoken, Resolve, PathOf, Named, Kind;
    GoodShaped(c, sv);
    RunNothing(c, sv);
    var fd := Unused(sv.w.fds);
    evs := OneMore(c, sv, [], i, Command(Spoken(PASV, H.None), Kind(fd)));
    var fd' := Unused(Run(c, sv, evs).w.fds);
    evs := OneMore(c, sv, evs, i, Command(Spoken(RETR, H.Some(name)), Kind(fd')));
    DownloadDialogue(c, View(sv, i), name, fd, fd');
  }

  /** The client reads on until there is no more. */
  lemma ReadAll(c: Config, u: Server, i: Slot) returns (calls: seq<(Slot, Event)>)
    requires SvGood(c, u) && Downloading(u.sessions[i]) && Orderly(c, View(u, i))
    ensures var r := Run(c, u, calls);
            !r.sessions[i].Busy() && Moved(View(u, i), View(r, i), [], Owed(c, View(u, i)), [226])
  {
    hide SvGood, Run, Orderly, Owed, TrafficOf, ReadInPeace, Cooperative, ClientReads;
    GoodShaped(c, u);
    KindWorks(0);
    calls := DownloadRuns(c, u, i, Kind(0));
    DownloadedFile(c, u, i, calls);
    ReadReplies(c, u, i, calls, Kind(0));
    OneReplyMore(TrafficOf(u.logs[i]).replies, TrafficOf(Run(c, u, calls).logs[i]).replies, 226);
    assert TrafficOf(u.logs[i]).received + [] == TrafficOf(u.logs[i]).received;
  }

  /** Any file that is there can be fetched, whole, by any client that has logged in. */
  lemma Downloads(c: Config, sv: Server, i: Slot, name: string) returns (evs: seq<(Slot, Event)>, u: Server)
    requires SvGood(c, sv) && Ready(c, View(sv, i)) && sv.sessions[i].marker == 0
    requires Named(name) && Resolve(sv.sessions[i], name).ok && PathOf(c, sv.sessions[i], name) in sv.w.files
    ensures u == Run(c, sv, evs)
    ensures && SvGood(c, u) && !u.sessions[i].Busy()
            && Moved(View(sv, i), View(u, i), [], sv.w.files[PathOf(c, sv.sessions[i], name)], [227, 150, 226])
  {
    hide SvGood, Run, Orderly, Owed, Ready, Answered, Moved, Resolve, PathOf, Named, Downloading;
    GoodShaped(c, sv);
    var data := sv.w.files[PathOf(c, sv.sessions[i], name)];
    var begin := BeginDownload(c, sv, i, name);
    var b := Run(c, sv, begin);
    var calls := ReadAll(c, b, i);
    evs := begin + calls;
    u := Run(c, b, calls);
    RunConcat(c, sv, begin, calls);
    RunGood(c, b, calls);
    TransferMoved(View(sv, i), View(b, i), View(u, i), [], data);
  }

  lemma OneReplyMore(a: seq<nat>, b: seq<nat>, code: nat)
    requires a <= b && |b| == |a| + 1 && b[|b| - 1] == code
    ensures b == a + [code]
  {
  }

  // --------------------------------------------------------------------- all the way

  /**
    From the start of the server: whatever the files, the configuration that lets someone
    in, the name that resolves and the chunks, there is a run in which a client logs in,
    sends the chunks, fetches the file, and has got back exactly what it had sent.
  */
  lemma ThereAndBack(c: Config, files: Files, sock: int, i: Slot, name: string, chunks: seq<seq<byte>>)
    returns (evs: seq<(Slot, Event)>)
    requires Admitting(c) && Named(name) && P.BuildFullpath("/", name).ok && Sized(chunks)
    ensures var u := Run(c, Boot(files, sock), evs);
            && !u.sessions[i].Busy()
            && TrafficOf(u.logs[i])
               == Traffic(Flatten(chunks), Flatten(chunks), LoginCodes(c) + [227, 150, 226, 227, 150, 226])
  {
    hide SvGood, Run, TrafficOf, P.BuildFullpath, Named, Flatten, Good, Admitting, Sized, LoginCodes, Boot;
    hide Moved, Answered, PathOf, Resolve;
    var sv := Boot(files, sock);
    BootGood(c, files, sock);
    BootBlank(files, sock, i);
    var login := LogIn(c, sv, i);
    var sv1 := Run(c, sv, login);
    RootNames(c, sv1.sessions[i], name);
    var there, sv2 := Uploads(c, sv1, i, name, chunks);
    SameNames(c, sv1.sessions[i], sv2.sessions[i], name);
    var back, u := Downloads(c, sv2, i, name);
    RunConcat(c, sv, login, there);
    RunConcat(c, sv, login + there, back);
    evs := login + there + back;
    AnsweredThenMoved(View(sv, i), View(sv1, i), View(sv2, i), LoginCodes(c), Flatten(chunks), [], [227, 150, 226]);
    MovedThen(View(sv, i), View(sv2, i), View(u, i), Flatten(chunks), [], LoginCodes(c) + [227, 150, 226],
              [], Flatten(chunks), [227, 150, 226]);
    AllTold(View(sv, i), View(u, i), Flatten(chunks), LoginCodes(c));
  }

  lemma BootBlank(files: Files, sock: int, i: Slot)
    ensures View(Boot(files, sock), i) == St(BLANK, World(files, Own(sock), H.FIRST_PORT), [])
  {
  }

  lemma RootNames(c: Config, s: Session, name: string)
    requires AtRoot(s)
    ensures Resolve(s, name) == P.BuildFullpath("/", name)
  {
  }

  lemma AllTold(st: St, r: St, data: seq<byte>, codes: seq<nat>)
    requires st.log == []
    requires Moved(st, r, data + [], [] + data, codes + [227, 150, 226] + [227, 150, 226])
    ensures TrafficOf(r.log) == Traffic(data, data, codes + [227, 150, 226, 227, 150, 226])
  {
    assert TrafficOf(st.log) == Traffic([], [], []);
    assert data + [] == data == [] + data;
    assert codes + [227, 150, 226] + [227, 150, 226] == codes + [227, 150, 226, 227, 150, 226];
  }

  // ------------------------------------------------------------------- and out of the way

  /** What the end of a run loses, the whole run loses. */
  lemma {:induction false} LostConcat(c: Config, sv: Server, a: seq<(Slot, Event)>, b: seq<(Slot, Event)>)
    requires Shaped(sv)
    ensures Lost(c, Run(c, sv, a), b) <= Lost(c, sv, a + b)
  {
    hide At, Step, Overwritten;
    if b != [] {
      var n := |b| - 1;
      LostConcat(c, sv, a, b[..n]);
      RunConcat(c, sv, a, b[..n]);
      LostSnoc(c, sv, a + b[..n], b[n].0, b[n].1);
      assert a + b == a + b[..n] + [(b[n].0, b[n].1)];
    }
  }

  /** The three lines by which a client makes the server forget a socket, with descriptors that are free. */
  lemma Forgetting(c: Config, sv: Server, i: Slot, name: string) returns (evs: seq<(Slot, Event)>)
    requires SvGood(c, sv) && Ready(c, View(sv, i)) && sv.sessions[i].marker == 0
    requires Named(name) && Resolve(sv.sessions[i], name).ok && PathOf(c, sv.sessions[i], name) in sv.w.files
    ensures Lost(c, sv, evs) != {}
  {
    hide SvGood, Step, Ready, Spoken, Resolve, PathOf, Named, H.PassiveText, At, Lost, Run;
    GoodShaped(c, sv);
    var a := H.Address([127, 0, 0, 1], 2);
    var port := Command(Spoken(PORT, H.Some(H.PassiveText(a))), Kind(0));
    var sv1 := At(c, sv, i, port);
    var fd := Unused(sv1.w.fds);
    var io2 := Kind(fd).(connectOk := false);
    var retr := Command(Spoken(RETR, H.Some(name)), io2);
    var sv2 := At(c, sv1, i, retr);
    var fd' := Unused(sv2.w.fds);
    var list := Command(Spoken(LIST, H.None), Kind(fd'));
    ThreeLines(c, sv, i, port, retr, list);
    ForgettingWorks(c, View(sv, i), a, name, Kind(0), io2, Kind(fd'));
    SocketLost(c, sv, i, a, name, Kind(0), io2, Kind(fd'));
    evs := [(i, port), (i, retr), (i, list)];
  }

  lemma ForgettingWorks(c: Config, st: St, a: H.Address, name: string, io1: Io, io2: Io, io3: Io)
    requires Ready(c, st) && st.s.marker == 0 && H.ValidAddress(a)
    requires Named(name) && Resolve(st.s, name).ok && PathOf(c, st.s, name) in st.w.files
    requires io2.faults == [] && io2.fstatOk && !io2.connectOk
    requires var st1 := Step(c, st, Command(Spoken(PORT, H.Some(H.PassiveText(a))), io1));
             Granted(Step(c, st1, Command(Spoken(RETR, H.Some(name)), io2)).w, io3.socket) && io3.connectOk
    ensures Readable(st.s, io2)
    ensures var st1 := Step(c, st, Command(Spoken(PORT, H.Some(H.PassiveText(a))), io1));
            Reachable(Step(c, st1, Command(Spoken(RETR, H.Some(name)), io2)), io3)
  {
    hide Spoken, Step, Resolve, FixedPath, Named, H.PassiveText, Good, TrafficOf, H.ValidAddress;
    var st1 := Step(c, st, Command(Spoken(PORT, H.Some(H.PassiveText(a))), io1));
    PortSpoken(c, st, a, io1);
    SameNames(c, st.s, st1.s, name);
    RetrSpoken(c, st1, name, io2);
  }

  /**
    The account of the descriptors needs its last part: on a server with a file, there is a
    run from its start after which a socket is open that nobody holds.
  */
  lemma SocketsGetLost(c: Config, files: Files, sock: int, i: Slot, name: string) returns (evs: seq<(Slot, Event)>)
    requires Admitting(c) && Named(name) && P.BuildFullpath("/", name).ok
    requires FixedPath(c, P.BuildFullpath("/", name).path) in files
    ensures Lost(c, Boot(files, sock), evs) != {}
  {
    hide SvGood, Run, Lost, P.BuildFullpath, FixedPath, Named, Good, Admitting, LoginCodes, Boot, Answered;
    var sv := Boot(files, sock);
    BootGood(c, files, sock);
    BootBlank(files, sock, i);
    var login := LogIn(c, sv, i);
    var u := Run(c, sv, login);
    RootNames(c, u.sessions[i], name);
    var three := Forgetting(c, u, i, name);
    LostConcat(c, sv, login, three);
    evs := login + three;
  }
}
