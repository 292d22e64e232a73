/**
  The Switch file back end (src/platform/nx/vfs_nx.c): a file handle that writes either
  through a 1 MiB buffer or into a file that is over-allocated in chunks and shrunk on
  close.  Both are shown to be an append-only byte sequence.
*/
module NxFile {
  import opened CText

  const BUF_SIZE: nat := 0x10_0000
  const CHUNK_SIZE: nat := 0x10_0000

  /** The two builds of the back end: VFS_NX_BUFFER_WRITES set or not. */
  datatype Build = Buffered | Chunked

  datatype OpenMode = READ | WRITE | APPEND

  // ------------------------------------------------------------ the device's files

  /** How one device call turns out; a failed write may have stored its first bytes. */
  datatype Fault = Pass | Fail(stored: nat)

  datatype Done = Done(ok: bool, data: seq<byte>)

  function Resize(d: seq<byte>, n: nat): (r: seq<byte>)
    ensures |r| == n
    ensures forall i | 0 <= i < n && i < |d| :: r[i] == d[i]
  {
    if n <= |d| then d[..n] else d + seq(n - |d|, _ => NUL)
  }

  function Overwrite(d: seq<byte>, off: nat, b: seq<byte>): seq<byte>
    requires off + |b| <= |d|
  {
    d[..off] + b + d[off + |b|..]
  }

  function SetSize(d: seq<byte>, n: nat, f: Fault): Done {
    if f.Pass? then Done(true, Resize(d, n)) else Done(false, d)
  }

  /** A file opened without the append flag refuses to grow by writing. */
  function WriteAt(d: seq<byte>, off: nat, b: seq<byte>, f: Fault): Done {
    if off + |b| > |d| then Done(false, d)
    else if f.Pass? then Done(true, Overwrite(d, off, b))
    else Done(false, Overwrite(d, off, b[..if f.stored < |b| then f.stored else |b|]))
  }

  ghost predicate NoFaults(faults: seq<Fault>) {
    forall f | f in faults :: f.Pass?
  }

  function Next(faults: seq<Fault>): (f: Fault)
    ensures NoFaults(faults) ==> f.Pass?
  {
    if faults == [] then Pass else faults[0]
  }

  function Rest(faults: seq<Fault>): (r: seq<Fault>)
    ensures NoFaults(faults) ==> NoFaults(r)
  {
    if faults == [] then [] else faults[1..]
  }

  // ------------------------------------------------- the handle, as a value

  /**
    A handle together with the device file behind it and the outcomes of the device
    calls still to come (`Pass` once the list runs out).
  */
  datatype Vfs = Vfs(data: seq<byte>, faults: seq<Fault>,
                     isValid: bool, off: nat, chunkSize: nat, buf: Buffer)

  /** The bytes waiting in the write buffer. */
  type Buffer = b: seq<byte> | |b| <= BUF_SIZE witness []

  datatype Result = Result(v: Vfs, ok: bool)

  function Flush(v: Vfs): Result {
    var s := SetSize(v.data, v.off + |v.buf|, Next(v.faults));
    var u := v.(data := s.data, faults := Rest(v.faults));
    if !s.ok then Result(u, false)
    else
      var w := WriteAt(u.data, u.off, u.buf, Next(u.faults));
      Result(u.(data := w.data, faults := Rest(u.faults)), w.ok)
  }

  /** A flush of a buffer that holds something, and the fresh start behind it if it succeeds. */
  function FlushAndStart(u: Vfs): Result {
    var r := Flush(u);
    if r.ok then Result(r.v.(off := r.v.off + |r.v.buf|, buf := []), true) else r
  }

  /** Filling the buffer to the brim and flushing it, as one step of a buffered write. */
  function FillAndFlush(v: Vfs, b: seq<byte>): Result
    requires |v.buf| + |b| > BUF_SIZE
  {
    FlushAndStart(v.(buf := v.buf + b[..BUF_SIZE - |v.buf|]))
  }

  function WriteBuffered(v: Vfs, b: seq<byte>): Result
    decreases |b|, |v.buf|
  {
    if b == [] then Result(v, true)
    else if |v.buf| + |b| > BUF_SIZE then
      var r := FillAndFlush(v, b);
      if !r.ok then r else WriteBuffered(r.v, b[BUF_SIZE - |v.buf|..])
    else Result(v.(buf := v.buf + b), true)
  }

  /** Makes sure the file reaches `need`, at the price of at most one more chunk. */
  function Grow(v: Vfs, need: nat): Result {
    if v.chunkSize < need then
      var u := v.(chunkSize := v.chunkSize + CHUNK_SIZE);
      var s := SetSize(u.data, u.chunkSize, Next(u.faults));
      Result(u.(data := s.data, faults := Rest(u.faults)), s.ok)
    else Result(v, true)
  }

  function WriteChunked(v: Vfs, b: seq<byte>): Result {
    var g := Grow(v, v.off + |b|);
    if !g.ok then g
    else
      var w := WriteAt(g.v.data, g.v.off, b, Next(g.v.faults));
      var x := g.v.(data := w.data, faults := Rest(g.v.faults));
      Result(if w.ok then x.(off := x.off + |b|) else x, w.ok)
  }

  function Write(build: Build, v: Vfs, b: seq<byte>): Result {
    if build.Buffered? then WriteBuffered(v, b) else WriteChunked(v, b)
  }

  function Seek(v: Vfs, off: nat): Vfs {
    v.(off := off)
  }

  function Close(build: Build, v: Vfs): Vfs {
    if !v.isValid then v
    else if build.Buffered? then
      if v.buf == [] then v.(isValid := false)
      else Flush(Flush(v).v).v.(isValid := false)
    else if v.chunkSize > 0 then
      v.(data := SetSize(v.data, v.off, Next(v.faults)).data, faults := Rest(v.faults), isValid := false)
    else v.(isValid := false)
  }

  /** What a read returns: an error, or at most so many bytes. */
  datatype ReadAnswer = ReadFail | ReadUpTo(count: nat)

  /** Reading stops at the end of the file; short of it, at least one byte is returned. */
  function ReadCount(length: nat, off: nat, size: nat, a: ReadAnswer): (n: nat)
    requires a.ReadUpTo?
    ensures n <= size && (n > 0 ==> off + n <= length)
    ensures n == 0 <==> size == 0 || off >= length
  {
    if off >= length || size == 0 then 0
    else
      var most := if size < length - off then size else length - off;
      if a.count == 0 then 1 else if a.count < most then a.count else most
  }

  /**
    Opening: a missing file is created unless it is to be read, WRITE truncates, and
    APPEND starts at the end.  `v.data` is the content found under the path, if any.
  */
  function Open(v: Vfs, present: bool, mode: OpenMode): Result {
    var c := if mode == READ then v
             else if present || Next(v.faults).Fail? then v.(faults := Rest(v.faults))
             else v.(data := [], faults := Rest(v.faults));
    var found := present || (mode != READ && Next(v.faults).Pass?);
    var d := c.(faults := Rest(c.faults));
    if !found || Next(c.faults).Fail? then Result(d, false) else Begin(d, mode)
  }

  /** The part of opening that follows once the file is there: where to start, and how long it is. */
  function Begin(v: Vfs, mode: OpenMode): Result {
    var o := v.(off := 0, chunkSize := 0, buf := []);
    if mode == READ then Result(o.(isValid := true), true)
    else
      var e := o.(faults := Rest(o.faults));
      if Next(o.faults).Fail? then Result(e, false)
      else if mode == WRITE then Result(e.(data := [], isValid := true), true)
      else Result(e.(off := |e.data|, chunkSize := |e.data|, isValid := true), true)
  }

  // ------------------------------------------------------------- what is stored

  /** What a writer has stored so far: the file up to `off`, then the buffer. */
  ghost function Stored(v: Vfs): seq<byte> {
    Resize(v.data, v.off) + v.buf
  }

  /** Kept by every write; a failed growth may leave the file shorter than `chunkSize`. */
  ghost predicate Writer(build: Build, v: Vfs) {
    && v.isValid && v.off <= |v.data|
    && (build.Buffered? && v.buf == [] ==> |v.data| == v.off)
    && (build.Chunked? ==> v.buf == [] && |v.data| <= v.chunkSize)
  }

  lemma FlushKeeps(v: Vfs)
    requires v.off <= |v.data|
    ensures var r := Flush(v);
            && r.v == v.(data := r.v.data, faults := r.v.faults)
            && v.off <= |r.v.data| && Stored(r.v) == Stored(v)
            && (r.ok ==> r.v.data == Stored(v))
    ensures Next(v.faults).Pass? && Next(Rest(v.faults)).Pass? ==> Flush(v).ok
  {
    var r := Flush(v);
    assert forall i | 0 <= i < v.off :: r.v.data[i] == v.data[i];
    assert Resize(r.v.data, v.off) == Resize(v.data, v.off);
    if r.ok {
      assert r.v.data[v.off..] == v.buf;
    }
  }

  lemma StoredLength(v: Vfs)
    ensures |Stored(v)| == v.off + |v.buf|
  {
  }

  /** With an empty buffer and the file ending at the position, the file is what is stored. */
  lemma StoredInFile(v: Vfs)
    requires v.buf == [] && |v.data| == v.off
    ensures Stored(v) == v.data
  {
  }

  lemma FilledStores(v: Vfs, d: Buffer)
    requires |v.buf| + |d| <= BUF_SIZE
    ensures Stored(v.(buf := v.buf + d)) == Stored(v) + d
  {
  }

  lemma FlushAndStartKeeps(u: Vfs)
    requires u.isValid && u.off <= |u.data| && u.buf != []
    ensures var r := FlushAndStart(u);
            && Writer(Buffered, r.v) && Stored(r.v) == Stored(u)
            && (NoFaults(u.faults) ==> r.ok && NoFaults(r.v.faults))
  {
    FlushKeeps(u);
    StoredLength(u);
    FlushSpends(u);
    hide Flush, Stored, NoFaults;
    if FlushAndStart(u).ok {
      StoredInFile(FlushAndStart(u).v);
    }
  }

  lemma FillAndFlushKeeps(v: Vfs, b: seq<byte>)
    requires Writer(Buffered, v) && |v.buf| + |b| > BUF_SIZE
    ensures var r := FillAndFlush(v, b);
            Writer(Buffered, r.v) && Stored(r.v) == Stored(v) + b[..BUF_SIZE - |v.buf|]
    ensures NoFaults(v.faults) ==> FillAndFlush(v, b).ok && NoFaults(FillAndFlush(v, b).v.faults)
  {
    hide Stored, NoFaults, FlushAndStart, Writer, Resize;
    var d := b[..BUF_SIZE - |v.buf|];
    var u := v.(buf := v.buf + d);
    Filling(v, d);
    FilledStores(v, d);
    FlushAndStartKeeps(u);
  }

  lemma Filling(v: Vfs, d: Buffer)
    requires Writer(Buffered, v) && |v.buf| + |d| == BUF_SIZE
    ensures v.isValid && v.off <= |v.data| && v.buf + d != []
  {
    assert |v.buf + d| == BUF_SIZE;
  }

  lemma FlushSpends(v: Vfs)
    ensures NoFaults(v.faults) ==> Flush(v).ok && NoFaults(Flush(v).v.faults)
  {
  }

  /** The outcome `r` of writing `b`: all of it is stored, or on failure a prefix of it. */
  ghost predicate Appended(v: Vfs, b: seq<byte>, r: Result) {
    && Writer(Buffered, r.v)
    && Stored(v) <= Stored(r.v) <= Stored(v) + b
    && (r.ok ==> Stored(r.v) == Stored(v) + b)
    && (NoFaults(v.faults) ==> r.ok && NoFaults(r.v.faults))
  }

  /** A buffered write appends; one that fails has still stored a prefix of its bytes. */
  lemma {:induction false} BufferedAppends(v: Vfs, b: seq<byte>)
    requires Writer(Buffered, v)
    ensures Appended(v, b, WriteBuffered(v, b))
    decreases |b|, |v.buf|
  {
    hide Stored, NoFaults, Writer, Appended, FillAndFlush;
    if b == [] {
      AppendedBuffer(v, []);
      assert v.buf + [] == v.buf;
    } else if |v.buf| + |b| > BUF_SIZE {
      var room := BUF_SIZE - |v.buf|;
      FillAndFlushKeeps(v, b);
      var x := FillAndFlush(v, b);
      if x.ok {
        FlushEmpties(v, b);
        BufferedAppends(x.v, b[room..]);
        AppendedTwice(v, b, room, x, WriteBuffered(x.v, b[room..]));
      } else {
        AppendedPart(v, b, room, x);
      }
    } else {
      AppendedBuffer(v, b);
    }
  }

  lemma FlushEmpties(v: Vfs, b: seq<byte>)
    requires |v.buf| + |b| > BUF_SIZE && FillAndFlush(v, b).ok
    ensures FillAndFlush(v, b).v.buf == []
  {
    hide Flush;
  }

  /** Bytes for which there is room only go to the buffer. */
  lemma AppendedBuffer(v: Vfs, b: seq<byte>)
    requires Writer(Buffered, v) && |v.buf| + |b| <= BUF_SIZE
    ensures Appended(v, b, Result(v.(buf := v.buf + b), true))
  {
    hide Stored, Resize;
    FilledStores(v, b);
  }

  lemma AppendedPart(v: Vfs, b: seq<byte>, room: nat, x: Result)
    requires room <= |b| && Writer(Buffered, x.v) && !x.ok && !NoFaults(v.faults)
    requires Stored(x.v) == Stored(v) + b[..room]
    ensures Appended(v, b, x)
  {
    hide Stored, NoFaults, Writer;
    assert Stored(v) + b == Stored(v) + b[..room] + b[room..];
  }

  lemma AppendedTwice(v: Vfs, b: seq<byte>, room: nat, x: Result, r: Result)
    requires room <= |b|
    requires Stored(x.v) == Stored(v) + b[..room]
    requires NoFaults(v.faults) ==> NoFaults(x.v.faults)
    requires Appended(x.v, b[room..], r)
    ensures Appended(v, b, r)
  {
    hide Stored, NoFaults, Writer;
    assert b == b[..room] + b[room..];
    assert Stored(x.v) + b[room..] == Stored(v) + b;
  }

  lemma GrowKeeps(v: Vfs, need: nat)
    requires Writer(Chunked, v)
    ensures var g := Grow(v, need);
            && g.v == v.(data := g.v.data, faults := g.v.faults, chunkSize := g.v.chunkSize)
            && Writer(Chunked, g.v) && Stored(g.v) == Stored(v)
  {
    assert Resize(Grow(v, need).v.data, v.off) == Resize(v.data, v.off);
  }

  /** A chunked write appends all or nothing, whatever a failed call left in the file. */
  lemma ChunkedAppends(v: Vfs, b: seq<byte>)
    requires Writer(Chunked, v)
    ensures var r := WriteChunked(v, b);
            && Writer(Chunked, r.v)
            && Stored(r.v) == (if r.ok then Stored(v) + b else Stored(v))
  {
    var g := Grow(v, v.off + |b|);
    GrowKeeps(v, v.off + |b|);
    if g.ok {
      WriteAtTail(g.v.data, v.off, b, Next(g.v.faults));
    }
  }

  lemma WriteAtTail(d: seq<byte>, off: nat, b: seq<byte>, f: Fault)
    requires off <= |d|
    ensures var w := WriteAt(d, off, b, f);
            && |w.data| == |d| && w.data[..off] == d[..off]
            && (w.ok ==> off + |b| <= |d| && w.data[..off + |b|] == d[..off] + b)
  {
  }

  /**
    With the file as long as the handle believes, one growth step is enough exactly for
    the writes that need at most one chunk more.
  */
  lemma OneChunkSuffices(v: Vfs, b: seq<byte>)
    requires Writer(Chunked, v) && |v.data| == v.chunkSize && NoFaults(v.faults)
    ensures WriteChunked(v, b).ok <==> v.off + |b| <= v.chunkSize + 0x10_0000
    ensures var r := WriteChunked(v, b).v; NoFaults(r.faults) && |r.data| == r.chunkSize
  {
  }

  /**
    A growth that fails is not tried again: the handle takes the file to be as long as it
    should have become, and a write into that part fails although the device works again.
  */
  lemma FailedGrowthSticks(v: Vfs, b: seq<byte>)
    requires Writer(Chunked, v) && v.off + |b| > v.chunkSize && Next(v.faults).Fail?
    ensures var r := WriteChunked(v, b);
            && !r.ok && r.v.data == v.data && r.v.off == v.off && r.v.chunkSize == v.chunkSize + 0x10_0000
            && forall d | |v.data| < v.off + |d| <= r.v.chunkSize :: !WriteChunked(r.v.(faults := []), d).ok
  {
  }

  // ------------------------------------------------------------ open, seek, close

  lemma OpenedForWriting(build: Build, v: Vfs, present: bool, mode: OpenMode)
    requires mode != READ && Open(v, present, mode).ok
    ensures var r := Open(v, present, mode).v;
            && Writer(build, r) && |r.data| == r.chunkSize
            && Stored(r) == (if mode == WRITE || !present then [] else v.data)
  {
    var r := Open(v, present, mode).v;
    assert Stored(r) == r.data;
  }

  /** How the k-th call of the device turns out. */
  function Call(faults: seq<Fault>, k: nat): Fault {
    if k < |faults| then faults[k] else Pass
  }

  /**
    When opening succeeds.  To be read a file has to be there, and one call has to go through;
    to be written it has to be there or be made, and be opened, and be measured or emptied.
    Failing, it leaves the contents alone.
  */
  lemma OpenExact(v: Vfs, present: bool, mode: OpenMode)
    requires present || v.data == []
    ensures Open(v, present, mode).ok <==>
            if mode == READ then present && Call(v.faults, 0).Pass?
            else (present || Call(v.faults, 0).Pass?) && Call(v.faults, 1).Pass? && Call(v.faults, 2).Pass?
    ensures mode == READ || !Open(v, present, mode).ok ==> Open(v, present, mode).v.data == v.data
    ensures mode == READ && Open(v, present, mode).ok ==> Open(v, present, mode).v.off == 0
  {
    SecondCall(v.faults);
  }

  lemma SecondCall(faults: seq<Fault>)
    ensures Next(faults) == Call(faults, 0) && Next(Rest(faults)) == Call(faults, 1)
    ensures Next(Rest(Rest(faults))) == Call(faults, 2)
  {
  }

  /** However a close turns out, what is in the file in front of the position stays. */
  lemma CloseSpares(build: Build, v: Vfs)
    requires Writer(build, v)
    ensures v.off <= |Close(build, v).data| && Close(build, v).data[..v.off] == v.data[..v.off]
  {
    if build.Buffered? && v.buf != [] {
      FlushSpares(v);
      FlushSpares(Flush(v).v);
    }
  }

  lemma FlushSpares(v: Vfs)
    requires v.off <= |v.data|
    ensures var u := Flush(v).v;
            u.off == v.off && u.off <= |u.data| && u.data[..v.off] == v.data[..v.off]
  {
  }

  /**
    The seek that follows a blocked receive goes to the number of bytes received.  It leaves
    what was stored alone exactly when that is where the handle stands.
  */
  lemma BlockedUploadSeek(build: Build, v: Vfs, transferred: nat)
    requires Writer(build, v)
    ensures Stored(Seek(v, transferred)) == Stored(v) <==> v.off == transferred
  {
    assert |Stored(Seek(v, transferred))| == transferred + |v.buf|;
    assert |Stored(v)| == v.off + |v.buf|;
  }

  // -------------------------------------------------------- what a close leaves behind

  /** What a flush achieves, by the outcomes of its calls: the size is set, and so many bytes are in the file. */
  datatype Landing = Landing(sized: bool, stored: nat)

  function FlushLanding(v: Vfs): (l: Landing)
    ensures l.stored <= |v.buf| && (!l.sized ==> l.stored == 0)
  {
    if Next(v.faults).Fail? then Landing(false, 0)
    else match Next(Rest(v.faults))
         case Pass => Landing(true, |v.buf|)
         case Fail(k) => Landing(true, if k < |v.buf| then k else |v.buf|)
  }

  /** The two flushes of a close together: either may set the size, the longer write counts. */
  function CloseLanding(v: Vfs): (l: Landing)
    ensures l.stored <= |v.buf| && (!l.sized ==> l.stored == 0)
  {
    var a, b := FlushLanding(v), FlushLanding(Flush(v).v);
    Landing(a.sized || b.sized, if a.stored < b.stored then b.stored else a.stored)
  }

  /** The file once the size is set if `sized`, and `k` bytes of the buffer are in it. */
  function Landed(v: Vfs, l: Landing): seq<byte>
    requires v.off <= |v.data| && l.stored <= |v.buf|
  {
    if l.sized then Overwrite(Resize(v.data, v.off + |v.buf|), v.off, v.buf[..l.stored]) else v.data
  }

  lemma FlushLands(v: Vfs)
    requires v.off <= |v.data|
    ensures Flush(v).v == v.(data := Landed(v, FlushLanding(v)), faults := Flush(v).v.faults)
  {
    assert v.buf[..|v.buf|] == v.buf;
  }

  /** Two landings on the same file are one: the size is set once, and the longer prefix stays. */
  lemma LandedTwice(v: Vfs, a: Landing, b: Landing)
    requires v.off <= |v.data| && a.stored <= |v.buf| && b.stored <= |v.buf|
    requires (!a.sized ==> a.stored == 0) && (!b.sized ==> b.stored == 0)
    ensures var u := v.(data := Landed(v, a));
            && u.off <= |u.data|
            && Landed(u, b)
               == Landed(v, Landing(a.sized || b.sized, if a.stored < b.stored then b.stored else a.stored))
  {
    var n := v.off + |v.buf|;
    var u := v.(data := Landed(v, a));
    var both := Landing(a.sized || b.sized, if a.stored < b.stored then b.stored else a.stored);
    if a.sized {
      assert Resize(u.data, n) == u.data;
      if !b.sized {
        assert Landed(u, b) == u.data;
      }
    } else {
      assert u.data == v.data;
    }
    assert |Landed(u, b)| == |Landed(v, both)|;
    assert forall i | 0 <= i < |Landed(u, b)| :: Landed(u, b)[i] == Landed(v, both)[i];
  }

  lemma CloseLeaves(v: Vfs)
    requires Writer(Buffered, v) && v.buf != []
    ensures Close(Buffered, v).data == Landed(v, CloseLanding(v))
  {
    hide Landed, FlushLanding, Flush;
    FlushLands(v);
    LandedTwice(v, FlushLanding(v), FlushLanding(Flush(v).v));
    var u := v.(data := Landed(v, FlushLanding(v)));
    FlushLands(Flush(v).v);
    LandedFaults(u, Flush(v).v.faults, FlushLanding(Flush(v).v));
  }

  lemma LandedFaults(v: Vfs, faults: seq<Fault>, l: Landing)
    requires v.off <= |v.data| && l.stored <= |v.buf|
    ensures Landed(v.(faults := faults), l) == Landed(v, l)
  {
  }

  /**
    When a close keeps what was stored, by the outcomes of its calls.  Buffered: a set-size
    went through or the file already has the length, and behind the longest part that got
    written the file already holds the buffer's bytes.  Chunked: the shrink goes through or
    there is nothing to shrink.
  */
  predicate CloseKeeps(build: Build, v: Vfs)
    requires v.off <= |v.data|
  {
    match build
    case Buffered =>
      var n := v.off + |v.buf|;
      var l := CloseLanding(v);
      v.buf == [] || ((l.sized || |v.data| == n) && v.buf[l.stored..] == Resize(v.data, n)[v.off + l.stored..])
    case Chunked => Next(v.faults).Pass? || |v.data| == v.off
  }

  /** Closing a writer leaves exactly what was stored if and only if its calls turn out so. */
  lemma CloseExact(build: Build, v: Vfs)
    requires Writer(build, v)
    ensures Close(build, v).data == Stored(v) <==> CloseKeeps(build, v)
  {
    if build.Chunked? {
      ChunkedCloseExact(v);
    } else if v.buf == [] {
      assert Stored(v) == v.data;
    } else {
      CloseLeaves(v);
      LandedStores(v, CloseLanding(v));
    }
  }

  lemma LandedStores(v: Vfs, l: Landing)
    requires v.off <= |v.data| && l.stored <= |v.buf| && (!l.sized ==> l.stored == 0)
    ensures var n := v.off + |v.buf|;
            Landed(v, l) == Stored(v) <==>
            (l.sized || |v.data| == n) && v.buf[l.stored..] == Resize(v.data, n)[v.off + l.stored..]
  {
    var n, k := v.off + |v.buf|, l.stored;
    var d := Resize(v.data, n);
    assert v.buf == v.buf[..k] + v.buf[k..];
    assert Resize(v.data, v.off) == d[..v.off];
    if l.sized {
      assert Landed(v, l) == d[..v.off] + v.buf[..k] + d[v.off + k..];
      assert Stored(v) == d[..v.off] + v.buf[..k] + v.buf[k..];
      SameEnd(d[..v.off] + v.buf[..k], d[v.off + k..], v.buf[k..]);
    } else if |v.data| == n {
      assert d == v.data == d[..v.off] + d[v.off..];
      SameEnd(d[..v.off], d[v.off..], v.buf);
    }
  }

  /** In particular it is enough that one of the two flushes, or the one shrink, succeeds. */
  predicate CloseLands(build: Build, v: Vfs) {
    if build.Buffered? then v.buf == [] || Flush(v).ok || Flush(Flush(v).v).ok
    else v.chunkSize == 0 || Next(v.faults).Pass?
  }

  /** Closing a writer leaves exactly what was stored: the second flush repairs or repeats the first. */
  lemma CloseStores(build: Build, v: Vfs)
    requires Writer(build, v) && CloseLands(build, v)
    ensures Close(build, v).data == Stored(v) && !Close(build, v).isValid
  {
    if build.Buffered? && v.buf != [] {
      var f := Flush(v);
      FlushKeeps(v);
      FlushKeeps(f.v);
      if f.ok {
        FlushAgain(f.v);
      }
    } else {
      assert Stored(v) == Resize(v.data, v.off);
    }
  }

  /** Flushing what the file already holds changes nothing, whether or not the calls succeed. */
  lemma FlushAgain(v: Vfs)
    requires v.off <= |v.data| && v.data == Stored(v)
    ensures Flush(v).v.data == v.data
  {
    assert Resize(v.data, v.off + |v.buf|) == v.data;
    assert v.data[v.off..] == v.buf;
    forall k | 0 <= k <= |v.buf| ensures Overwrite(v.data, v.off, v.buf[..k]) == v.data {
      OverwriteSame(v.data, v.off, v.buf[..k]);
    }
    assert v.buf[..|v.buf|] == v.buf;
  }

  lemma OverwriteSame(d: seq<byte>, off: nat, b: seq<byte>)
    requires off + |b| <= |d| && d[off..off + |b|] == b
    ensures Overwrite(d, off, b) == d
  {
    assert d == d[..off] + d[off..off + |b|] + d[off + |b|..];
  }

  /** Closing a chunked writer is exact precisely when it shrinks, or has nothing to shrink. */
  lemma ChunkedCloseExact(v: Vfs)
    requires Writer(Chunked, v)
    ensures Close(Chunked, v).data == Stored(v) <==> Next(v.faults).Pass? || |v.data| == v.off
  {
  }

  /** A handle opened for reading never changes the file, not even when it is closed. */
  lemma CloseReader(build: Build, v: Vfs)
    requires v.buf == [] && v.chunkSize == 0
    ensures Close(build, v).data == v.data
    ensures Close(build, v) == v.(isValid := false)
  {
  }

  // --------------------------------------------------------- whole runs of writes

  /** The handle after a run of writes, and the chunks whose write reported success. */
  function WriteAll(build: Build, v: Vfs, chunks: seq<seq<byte>>): (Vfs, seq<seq<byte>>) {
    if chunks == [] then (v, [])
    else
      var n := |chunks| - 1;
      var (u, accepted) := WriteAll(build, v, chunks[..n]);
      var w := Write(build, u, chunks[n]);
      (w.v, if w.ok then accepted + [chunks[n]] else accepted)
  }

  /** Over any run with any faults, the chunked build stores exactly the accepted chunks. */
  lemma {:induction false} ChunkedRun(v: Vfs, chunks: seq<seq<byte>>)
    requires Writer(Chunked, v)
    ensures var r := WriteAll(Chunked, v, chunks);
            Writer(Chunked, r.0) && Stored(r.0) == Stored(v) + Flatten(r.1)
  {
    if chunks == [] {
      assert Stored(v) + [] == Stored(v);
    } else {
      var n := |chunks| - 1;
      ChunkedRun(v, chunks[..n]);
      var r := WriteAll(Chunked, v, chunks[..n]);
      ChunkedAppends(r.0, chunks[n]);
      StoredSnoc(Stored(v), r.1, chunks[n]);
    }
  }

  lemma StoredSnoc(init: seq<byte>, accepted: seq<seq<byte>>, c: seq<byte>)
    ensures init + Flatten(accepted) + c == init + Flatten(accepted + [c])
  {
    FlattenSnoc(accepted, c);
  }

  /** What a build needs to accept every write of at most a chunk. */
  ghost predicate Healthy(build: Build, v: Vfs) {
    Writer(build, v) && NoFaults(v.faults) && (build.Chunked? ==> |v.data| == v.chunkSize)
  }

  lemma HealthyWrite(build: Build, v: Vfs, c: seq<byte>)
    requires Healthy(build, v)
    requires build.Chunked? ==> |c| <= CHUNK_SIZE
    ensures var w := Write(build, v, c);
            w.ok && Healthy(build, w.v) && Stored(w.v) == Stored(v) + c
  {
    if build.Buffered? {
      BufferedAppends(v, c);
    } else {
      ChunkedAppends(v, c);
      OneChunkSuffices(v, c);
    }
  }

  /** Without faults every chunk that fits is accepted, by both builds, and stored in order. */
  lemma {:induction false} FaultFreeRun(build: Build, v: Vfs, chunks: seq<seq<byte>>)
    requires Healthy(build, v)
    requires build.Chunked? ==> forall c | c in chunks :: |c| <= CHUNK_SIZE
    ensures var r := WriteAll(build, v, chunks);
            && r.1 == chunks && Healthy(build, r.0)
            && Stored(r.0) == Stored(v) + Flatten(chunks)
  {
    if chunks == [] {
      assert Stored(v) + [] == Stored(v);
    } else {
      hide Write, Healthy, Stored, Flatten;
      var n := |chunks| - 1;
      assert chunks == chunks[..n] + [chunks[n]];
      FaultFreeRun(build, v, chunks[..n]);
      HealthyWrite(build, WriteAll(build, v, chunks[..n]).0, chunks[n]);
      StoredSnoc(Stored(v), chunks[..n], chunks[n]);
    }
  }

  lemma HealthyClose(build: Build, v: Vfs)
    requires Healthy(build, v)
    ensures CloseKeeps(build, v) && Close(build, v).data == Stored(v)
  {
    FlushKeeps(v);
    CloseStores(build, v);
    CloseExact(build, v);
    hide CloseKeeps, Close, Stored;
  }

  /** Open, write, close, without faults: both builds leave the same file. */
  lemma BuildsAgree(v: Vfs, present: bool, mode: OpenMode, chunks: seq<seq<byte>>)
    requires mode != READ && NoFaults(v.faults)
    requires forall c | c in chunks :: |c| <= CHUNK_SIZE
    ensures var o := Open(v, present, mode);
            && o.ok
            && Close(Buffered, WriteAll(Buffered, o.v, chunks).0).data
               == (if mode == WRITE || !present then [] else v.data) + Flatten(chunks)
               == Close(Chunked, WriteAll(Chunked, o.v, chunks).0).data
  {
    var o := Open(v, present, mode);
    assert NoFaults(o.v.faults);
    OpenedForWriting(Buffered, v, present, mode);
    OpenedForWriting(Chunked, v, present, mode);
    FaultFreeRun(Buffered, o.v, chunks);
    FaultFreeRun(Chunked, o.v, chunks);
    HealthyClose(Buffered, WriteAll(Buffered, o.v, chunks).0);
    HealthyClose(Chunked, WriteAll(Chunked, o.v, chunks).0);
  }
}
