/**
  The handle of the Switch back end as the program keeps it: fields and a buffer that are
  updated in place.  Every method does to the state what the functions of NxFile say.
*/
module NxHandle {
  import opened CText
  import N = NxFile

  /** A file on the device, and the outcomes of the calls that will be made on it. */
  class FsFile {
    var data: seq<byte>
    var present: bool
    var faults: seq<N.Fault>

    constructor (data: seq<byte>, present: bool, faults: seq<N.Fault>)
      ensures this.data == data && this.present == present && this.faults == faults
    {
      this.data, this.present, this.faults := data, present, faults;
    }

    method Outcome() returns (f: N.Fault)
      modifies this`faults
      ensures f == N.Next(old(faults)) && faults == N.Rest(old(faults))
    {
      if |faults| == 0 {
        f := N.Pass;
      } else {
        f := faults[0];
        faults := faults[1..];
      }
    }

    /** fsFileSetSize */
    method SetSize(n: nat) returns (ok: bool)
      modifies this
      ensures N.Done(ok, data) == N.SetSize(old(data), n, N.Next(old(faults)))
      ensures faults == N.Rest(old(faults)) && present == old(present)
    {
      var f := Outcome();
      ok := f.Pass?;
      if ok {
        data := N.Resize(data, n);
      }
    }

    /** fsFileWrite, without the append flag */
    method Write(off: nat, src: array<byte>, n: nat) returns (ok: bool)
      requires n <= src.Length
      modifies this
      ensures N.Done(ok, data) == N.WriteAt(old(data), off, src[..n], N.Next(old(faults)))
      ensures faults == N.Rest(old(faults)) && present == old(present)
    {
      var f := Outcome();
      ok := false;
      if off + n <= |data| {
        var stored := if f.Pass? || f.stored >= n then n else f.stored;
        data := data[..off] + src[..stored] + data[off + stored..];
        ok := f.Pass?;
        assert src[..n][..stored] == src[..stored];
      }
    }
  }

  class FtpVfsFile {
    var fd: FsFile
    var off: nat
    var chunkSize: nat
    var isValid: bool
    var bufOff: nat
    const buf: array<byte>

    ghost predicate Valid()
      reads this
    {
      buf.Length == N.BUF_SIZE && bufOff <= N.BUF_SIZE
    }

    ghost function State(): N.Vfs
      requires Valid()
      reads this, fd, buf
    {
      N.Vfs(fd.data, fd.faults, isValid, off, chunkSize, buf[..bufOff])
    }

    constructor (fd: FsFile)
      ensures Valid() && this.fd == fd && fresh(buf) && !isValid
    {
      this.fd := fd;
      off, chunkSize, bufOff, isValid := 0, 0, 0, false;
      buf := new byte[N.BUF_SIZE](_ => NUL);
    }

    /** This handle's own fields, over a file it may or may not have open. */
    ghost function Over(file: FsFile): N.Vfs
      requires Valid()
      reads this, file, buf
    {
      N.Vfs(file.data, file.faults, isValid, off, chunkSize, buf[..bufOff])
    }

    /** ftp_vfs_open on the file `file` that the path leads to, whatever the handle was used for before */
    method Open(file: FsFile, mode: N.OpenMode) returns (ok: bool)
      requires Valid()
      modifies this, file
      ensures Valid() && (ok ==> fd == file)
      ensures N.Open(old(Over(file)), old(file.present), mode) == N.Result(Over(file), ok)
    {
      if mode != N.READ {
        var created := file.Outcome();
        if !file.present && created.Pass? {
          file.data, file.present := [], true;
        }
      }
      var answered := file.Outcome();
      if !file.present || answered.Fail? {
        return false;
      }
      fd := file;
      ok := Begin(mode);
    }

    /** The part of ftp_vfs_open that follows once the file is there. */
    method Begin(mode: N.OpenMode) returns (ok: bool)
      requires Valid()
      modifies this`off, this`chunkSize, this`bufOff, this`isValid, fd
      ensures Valid() && N.Begin(old(State()), mode) == N.Result(State(), ok)
    {
      off, chunkSize, bufOff := 0, 0, 0;
      if mode == N.WRITE {
        var cut := fd.SetSize(0);
        if !cut {
          return false;
        }
      } else if mode == N.APPEND {
        var sized := fd.Outcome();
        if sized.Fail? {
          return false;
        }
        off := |fd.data|;
        chunkSize := off;
      }
      isValid := true;
      return true;
    }

    /** flush_buffered_write */
    method FlushBufferedWrite() returns (ok: bool)
      requires Valid()
      modifies fd
      ensures Valid() && N.Result(State(), ok) == N.Flush(old(State()))
    {
      hide N.SetSize, N.WriteAt, N.Resize, N.Overwrite;
      ok := fd.SetSize(off + bufOff);
      if ok {
        ok := fd.Write(off, buf, bufOff);
      }
    }

    /** memcpy(f->buf + f->buf_off, src + from, n); f->buf_off += n */
    method Append(src: array<byte>, from: nat, n: nat)
      requires Valid() && src != buf && from + n <= src.Length && bufOff + n <= N.BUF_SIZE
      modifies this`bufOff, buf
      ensures Valid() && State() == old(State()).(buf := old(buf[..bufOff]) + src[from..from + n])
    {
      forall i | 0 <= i < n {
        buf[bufOff + i] := src[from + i];
      }
      bufOff := bufOff + n;
    }

    /** The branch of the write loop for bytes that do not all fit: fill, flush, start afresh. */
    method FillAndFlush(src: array<byte>, from: nat, size: nat) returns (ok: bool, sz: nat)
      requires Valid() && src != buf && from + size <= src.Length && bufOff + size > N.BUF_SIZE
      modifies this, fd, buf
      ensures Valid() && fd == old(fd) && sz == N.BUF_SIZE - old(bufOff)
      ensures N.Result(State(), ok) == N.FillAndFlush(old(State()), src[from..from + size])
      ensures ok ==> bufOff == 0
    {
      hide N.Flush;
      sz := N.BUF_SIZE - bufOff;
      assert src[from..from + size][..sz] == src[from..from + sz];
      Append(src, from, sz);
      ok := FlushBufferedWrite();
      if ok {
        off := off + bufOff;
        bufOff := 0;
      }
    }

    /** ftp_vfs_write with VFS_NX_BUFFER_WRITES: copy until the buffer is full, flush, go on */
    method WriteBuffered(src: array<byte>, length: nat) returns (ok: bool)
      requires Valid() && src != buf && length <= src.Length
      modifies this, fd, buf
      ensures Valid() && fd == old(fd)
      ensures N.Result(State(), ok) == N.WriteBuffered(old(State()), src[..length])
    {
      hide N.FillAndFlush, N.Flush;
      var pos: nat, size: nat := 0, length;
      ghost var goal := N.WriteBuffered(State(), src[..length]);
      while size > 0
        invariant pos + size == length && Valid() && fd == old(fd)
        invariant goal == N.WriteBuffered(State(), src[pos..pos + size])
        decreases size, bufOff
      {
        if bufOff + size > N.BUF_SIZE {
          var filled, sz := FillAndFlush(src, pos, size);
          if !filled {
            return false;
          }
          assert src[pos..pos + size][sz..] == src[pos + sz..pos + size];
          pos, size := pos + sz, size - sz;
        } else {
          Append(src, pos, size);
          pos, size := length, 0;
        }
      }
      return true;
    }

    /** ftp_vfs_write without it: at most one more chunk, then write */
    method WriteChunked(src: array<byte>, size: nat) returns (ok: bool)
      requires Valid() && size <= src.Length
      modifies this, fd
      ensures Valid() && fd == old(fd)
      ensures N.Result(State(), ok) == N.WriteChunked(old(State()), src[..size])
    {
      hide N.SetSize, N.WriteAt, N.Resize, N.Overwrite;
      if chunkSize < off + size {
        chunkSize := chunkSize + N.CHUNK_SIZE;
        ok := fd.SetSize(chunkSize);
        if !ok {
          return;
        }
      }
      ok := fd.Write(off, src, size);
      if ok {
        off := off + size;
      }
    }

    /** ftp_vfs_read: at most `size` bytes into `dst`, and the position moves past them */
    method Read(dst: array<byte>, size: nat, answer: N.ReadAnswer) returns (n: int)
      requires Valid() && dst != buf && size <= dst.Length
      modifies this`off, dst
      ensures Valid() && -1 <= n <= size
      ensures n == if answer.ReadFail? then -1 else N.ReadCount(|fd.data|, old(off), size, answer)
      ensures n < 0 ==> State() == old(State())
      ensures n >= 0 ==> State() == old(State()).(off := old(off) + n)
      ensures n > 0 ==> dst[..n] == fd.data[old(off)..old(off) + n]
    {
      if answer.ReadFail? {
        return -1;
      }
      n := N.ReadCount(|fd.data|, off, size, answer);
      forall i | 0 <= i < n {
        dst[i] := fd.data[off + i];
      }
      off := off + n;
    }

    /** ftp_vfs_seek */
    method Seek(position: nat)
      requires Valid()
      modifies this`off
      ensures Valid() && State() == N.Seek(old(State()), position)
    {
      off := position;
    }

    /** The second flush of a buffered close, whose outcome nobody looks at. */
    method FlushOnClose()
      requires Valid()
      modifies fd
      ensures Valid() && State() == N.Flush(old(State())).v
    {
      hide N.SetSize, N.WriteAt, N.Resize, N.Overwrite;
      var sized := fd.SetSize(off + bufOff);
      if sized {
        var written := fd.Write(off, buf, bufOff);
      }
    }

    /** ftp_vfs_close */
    method Close(build: N.Build) returns (ok: bool)
      requires Valid()
      modifies this, fd
      ensures Valid() && fd == old(fd) && ok == old(isValid)
      ensures State() == N.Close(build, old(State()))
    {
      hide N.Flush, N.SetSize;
      if !isValid {
        return false;
      }
      if build.Buffered? {
        if bufOff != 0 {
          var flushed := FlushBufferedWrite();
          FlushOnClose();
        }
      } else if chunkSize != 0 {
        var shrunk := fd.SetSize(off);
      }
      isValid := false;
      return true;
    }
  }
}
