/**
  A session as the program keeps it, and the handlers of src/ftpsrv.c that update it in
  place.  `Ftp` stands for the global `g_ftp` and, in `files` and `fds`, for the part of the
  outside world its calls change.  Each method does to the state what the function of the
  same name in Session says; the functions are where the results are proved.
*/
module FtpServer {
  import opened CText
  import opened Session
  import opened Conduct
  import opened Frames
  import opened Server
  import P = Pathname
  import N = NxFile
  import H = HostPort
  import S = Session
  import M = Monitor
  import SV = Server
  import L = Loop

  class FtpSession {
    var active: bool
    var auth: AuthMode
    var conn: DataConnection
    var transfer: Transfer
    var controlSock: int
    var dataSock: int
    var pasvSock: int
    var host: seq<nat>
    var dataAddr: H.Address
    var marker: int
    var pwd: string
    var tempPath: string

    /** What the slot has done so far; kept for the sake of the specifications. */
    var log: seq<Effect>

    function Value(): Session
      reads this
    {
      Session(active, auth, conn, transfer, controlSock, dataSock, pasvSock, host, dataAddr, marker, pwd, tempPath)
    }

    constructor ()
      ensures Value() == BLANK && log == []
    {
      active, auth, conn, transfer := false, NoAuth, NoConnection, NO_TRANSFER;
      controlSock, dataSock, pasvSock := 0, 0, 0;
      host, dataAddr := NO_ADDRESS.host, NO_ADDRESS;
      marker, pwd, tempPath, log := 0, "", "", [];
    }

    /** memset(session, 0, sizeof(*session)) */
    method Clear()
      modifies this
      ensures Value() == BLANK && log == old(log)
    {
      ClearConnections();
      ClearRest();
    }

    method ClearConnections()
      modifies `conn, `controlSock, `dataSock, `pasvSock, `host, `dataAddr
      ensures conn == BLANK.conn && controlSock == dataSock == pasvSock == 0
      ensures host == BLANK.host && dataAddr == BLANK.dataAddr
    {
      conn, controlSock, dataSock, pasvSock := NoConnection, 0, 0, 0;
      host, dataAddr := NO_ADDRESS.host, NO_ADDRESS;
    }

    method ClearRest()
      modifies `active, `auth, `transfer, `marker, `pwd, `tempPath
      ensures !active && auth == BLANK.auth && transfer == BLANK.transfer
      ensures marker == 0 && pwd == tempPath == ""
    {
      active, auth, transfer := false, NoAuth, NO_TRANSFER;
      marker, pwd, tempPath := 0, "", "";
    }

    /** ftp_session_init: a fresh slot for an accepted connection */
    method Begin(fd: int, localHost: seq<nat>)
      modifies this
      ensures Value() == BLANK.(active := true, controlSock := fd, host := localHost, pwd := "/")
      ensures log == old(log) + [Accepted(fd)]
    {
      Clear();
      active, controlSock, host, pwd := true, fd, localHost, "/";
      log := log + [Accepted(fd)];
    }
  }

  class Ftp {
    const c: Config
    var files: Files
    var fds: set<int>
    var port: nat
    var count: int
    var initialised: bool
    var serverSock: int
    const sessions: array<FtpSession>
    const dataBuf: array<byte>

    /** The table has all its slots, each with a session of its own. */
    ghost predicate Valid()
      reads this, sessions
    {
      && sessions.Length == MAX_SESSIONS && dataBuf.Length == FILE_BUFFER_SIZE
      && forall i, j | 0 <= i < j < MAX_SESSIONS :: sessions[i] != sessions[j]
    }

    /** The server as a value. */
    ghost predicate Shows(sv: Server)
      requires Valid()
      reads this, sessions, sessions[..]
    {
      && Shaped(sv) && sv.w == World(files, fds, port) && sv.count == count
      && forall i: Slot :: sv.sessions[i] == sessions[i].Value() && sv.logs[i] == sessions[i].log
    }

    /** ftpsrv_init */
    constructor (c: Config, files: Files, serverSock: int)
      ensures Valid() && this.c == c && initialised && this.serverSock == serverSock
      ensures fresh(dataBuf) && fresh(sessions)
      ensures Shows(Boot(files, serverSock))
    {
      this.c, this.files, fds, port, count := c, files, M.Own(serverSock), H.FIRST_PORT, 0;
      initialised, this.serverSock := true, serverSock;
      dataBuf := new byte[FILE_BUFFER_SIZE](_ => NUL);
      var first := new FtpSession();
      sessions := new FtpSession[MAX_SESSIONS](_ => first);
      new;
      var i := 1;
      while i < MAX_SESSIONS
        invariant 1 <= i <= MAX_SESSIONS
        invariant forall k | 0 <= k < i :: sessions[k].Value() == BLANK && sessions[k].log == []
        invariant forall k, l | 0 <= k < l < i :: sessions[k] != sessions[l]
        invariant initialised && this.serverSock == serverSock
        invariant this.files == files && fds == M.Own(serverSock) && port == H.FIRST_PORT && count == 0
      {
        var s := new FtpSession();
        sessions[i] := s;
        i := i + 1;
      }
    }

    function State(s: FtpSession): St
      reads this, s
    {
      St(s.Value(), World(files, fds, port), s.log)
    }

    // ---- sockets and replies

    method Say(s: FtpSession, code: nat)
      modifies s`log
      ensures State(s) == S.Say(old(State(s)), code)
    {
      s.log := s.log + [Reply(code, "")];
    }

    /** socket_open or socket_accept: a descriptor that was not open, or -1 */
    method NewSocket(wish: int) returns (fd: int)
      modifies this`fds
      ensures fd == if Granted(old(World(files, fds, port)), wish) then wish else -1
      ensures fds == if fd > 0 then old(fds) + {fd} else old(fds)
    {
      fd := -1;
      if wish > 0 && wish !in fds {
        fd := wish;
        fds := fds + {fd};
      }
    }

    /** ftp_close_socket on the control socket */
    method CloseControl(s: FtpSession)
      modifies this`fds, s
      ensures State(s) == S.CloseControl(old(State(s)))
    {
      if s.controlSock > 0 {
        fds := fds - {s.controlSock};
        s.log := s.log + [SocketClosed(s.controlSock)];
        s.controlSock := -1;
      }
    }

    method CloseData(s: FtpSession)
      modifies this`fds, s
      ensures State(s) == S.CloseData(old(State(s)))
    {
      if s.dataSock > 0 {
        fds := fds - {s.dataSock};
        s.log := s.log + [SocketClosed(s.dataSock)];
        s.dataSock := -1;
      }
    }

    method ClosePasv(s: FtpSession)
      modifies this`fds, s
      ensures State(s) == S.ClosePasv(old(State(s)))
    {
      if s.pasvSock > 0 {
        fds := fds - {s.pasvSock};
        s.log := s.log + [SocketClosed(s.pasvSock)];
        s.pasvSock := -1;
      }
    }

    // ---- the file back end

    method VfsOpen(s: FtpSession, path: string, mode: N.OpenMode, faults: seq<N.Fault>) returns (ok: bool)
      modifies this`files, s
      ensures Attempt(State(s), ok) == S.VfsOpen(old(State(s)), path, mode, faults)
    {
      hide N.Open;
      var present := path in files;
      var r := N.Open(Mounted(World(files, fds, port), s.transfer.file.(path := path), faults), present, mode);
      if present || (mode != N.READ && N.Next(faults).Pass?) {
        files := files[path := r.v.data];
      }
      s.transfer := s.transfer.(file := HandleOf(path, r.v));
      ok := r.ok;
      if ok {
        s.log := s.log + [FileOpened(path, mode)];
      }
    }

    method VfsClose(s: FtpSession, faults: seq<N.Fault>)
      modifies this`files, s
      ensures State(s) == S.VfsClose(c, old(State(s)), faults)
    {
      hide N.Close;
      var h := s.transfer.file;
      if h.isValid {
        var v := N.Close(c.build, Mounted(World(files, fds, port), h, faults));
        if h.path in files {
          files := files[h.path := v.data];
        }
        s.transfer := s.transfer.(file := HandleOf(h.path, v));
        s.log := s.log + [FileClosed];
      }
    }

    method DirClose(s: FtpSession)
      modifies s
      ensures State(s) == S.DirClose(old(State(s)))
    {
      if s.transfer.dir.isValid {
        s.transfer := s.transfer.(dir := s.transfer.dir.(isValid := false));
        s.log := s.log + [DirClosed];
      }
    }

    // ---- the data connection

    /** ftp_data_open */
    method DataOpen(s: FtpSession, io: Io) returns (ok: bool)
      modifies this`fds, s
      ensures Attempt(State(s), ok) == S.DataOpen(old(State(s)), io)
    {
      Say(s, 150);
      ok := false;
      match s.conn
      case NoConnection =>
      case Active =>
        s.dataSock := NewSocket(io.socket);
        if s.dataSock > 0 {
          s.log := s.log + [DataSocket(s.dataSock, H.Some(s.dataAddr))];
          ok := io.connectOk;
        }
      case Passive =>
        s.dataSock := NewSocket(io.socket);
        if s.dataSock > 0 {
          s.log := s.log + [DataSocket(s.dataSock, H.None)];
          ok := true;
        }
    }

    /** ftp_data_transfer_end */
    method TransferEnd(s: FtpSession, closing: seq<N.Fault>)
      modifies this`files, this`fds, s
      ensures State(s) == S.TransferEnd(c, old(State(s)), closing)
    {
      hide S.CloseData, S.ClosePasv, S.VfsClose, S.DirClose;
      match s.conn {
        case NoConnection =>
        case Active => CloseData(s);
        case Passive => CloseData(s); ClosePasv(s);
      }
      VfsClose(s, closing);
      DirClose(s);
      s.tempPath := "";
      s.transfer := s.transfer.(offset := 0, size := 0, mode := Idle);
      s.conn := NoConnection;
    }

    /** The end of a transfer, announced first. */
    method Finish(s: FtpSession, code: nat, closing: seq<N.Fault>)
      modifies this`files, this`fds, s
      ensures State(s) == S.Finish(c, old(State(s)), code, closing)
    {
      hide S.TransferEnd;
      Say(s, code);
      TransferEnd(s, closing);
    }

    /** ftp_vfs_read into the shared buffer */
    method VfsRead(s: FtpSession, answer: N.ReadAnswer) returns (n: int)
      requires dataBuf.Length == FILE_BUFFER_SIZE
      modifies s`transfer, dataBuf
      ensures var st := old(State(s));
              var h, data := st.s.transfer.file, Content(st.w.files, st.s.transfer.file.path);
              && n == (if answer.ReadFail? then -1 else N.ReadCount(|data|, h.off, FILE_BUFFER_SIZE, answer))
              && (n <= 0 ==> State(s) == st)
              && (n > 0 ==> && State(s) == SetTransfer(st, st.s.transfer.(file := h.(off := h.off + n)))
                            && dataBuf[..n] == data[h.off..h.off + n])
    {
      if answer.ReadFail? {
        return -1;
      }
      var h := s.transfer.file;
      var data := Content(files, h.path);
      n := N.ReadCount(|data|, h.off, FILE_BUFFER_SIZE, answer);
      forall i | 0 <= i < n {
        dataBuf[i] := data[h.off + i];
      }
      s.transfer := s.transfer.(file := h.(off := h.off + n));
    }

    /** ftp_vfs_write from the shared buffer */
    method VfsWrite(s: FtpSession, n: nat, faults: seq<N.Fault>) returns (ok: bool)
      requires n <= dataBuf.Length
      modifies this`files, s`transfer
      ensures var st := old(State(s));
              var r := N.Write(c.build, Mounted(st.w, st.s.transfer.file, faults), dataBuf[..n]);
              ok == r.ok && State(s) == Unmount(st, st.s.transfer.file.path, r.v)
    {
      hide N.Write;
      var h := s.transfer.file;
      var r := N.Write(c.build, Mounted(World(files, fds, port), h, faults), dataBuf[..n]);
      if h.path in files {
        files := files[h.path := r.v.data];
      }
      s.transfer := s.transfer.(file := HandleOf(h.path, r.v));
      ok := r.ok;
    }

    /** ftp_file_data_transfer_progress for RETR: through the buffer that all sessions share */
    method RetrProgress(s: FtpSession, io: Io)
      requires dataBuf.Length == FILE_BUFFER_SIZE
      modifies this`files, this`fds, s, dataBuf
      ensures State(s) == S.RetrStep(c, old(State(s)), io)
    {
      hide S.Finish, S.RetrSend;
      var read := VfsRead(s, io.read);
      if read < 0 {
        Finish(s, 426, io.closing);
      } else if read == 0 {
        Finish(s, 226, io.closing);
      } else {
        RetrSend(s, read, io, old(State(s)));
      }
    }

    /** The part after the read; `before` is the state it started from. */
    method RetrSend(s: FtpSession, read: nat, io: Io, ghost before: St)
      requires dataBuf.Length == FILE_BUFFER_SIZE && 0 < read <= FILE_BUFFER_SIZE
      requires HasRead(s, read, before)
      modifies this`files, this`fds, s
      ensures State(s) == S.RetrSend(c, before, read, io)
    {
      hide S.Finish;
      match NextSend(io.sends)
      case SendBlocks =>
        s.transfer := s.transfer.(file := s.transfer.file.(off := s.transfer.offset));
      case SendFails =>
        Finish(s, 426, io.closing);
      case Took(count) =>
        RetrTook(s, read, SendCount(count, read), io, before);
    }

    /** The buffer holds the `read` bytes that were read from the file, whose position has moved on. */
    ghost predicate HasRead(s: FtpSession, read: nat, before: St)
      requires 0 < read <= dataBuf.Length
      reads this, s, dataBuf
    {
      var h, data := before.s.transfer.file, Content(before.w.files, before.s.transfer.file.path);
      && h.off + read <= |data| && dataBuf[..read] == data[h.off..h.off + read]
      && State(s) == SetTransfer(before, before.s.transfer.(file := h.(off := h.off + read)))
    }

    /** `n` of the bytes read have been taken: back to what has been sent, and perhaps to the end. */
    method RetrTook(s: FtpSession, read: nat, n: nat, io: Io, ghost before: St)
      requires dataBuf.Length == FILE_BUFFER_SIZE && 0 < read <= FILE_BUFFER_SIZE
      requires HasRead(s, read, before)
      requires NextSend(io.sends).Took? && n == SendCount(NextSend(io.sends).count, read)
      modifies this`files, this`fds, s
      ensures State(s) == S.RetrSend(c, before, read, io)
    {
      hide S.Finish;
      ghost var h, data := before.s.transfer.file, Content(before.w.files, before.s.transfer.file.path);
      assert dataBuf[..n] == dataBuf[..read][..n] == data[h.off..h.off + n];
      s.log := s.log + [Sent(dataBuf[..n])];
      s.transfer := s.transfer.(offset := s.transfer.offset + n,
                                file := s.transfer.file.(off := if n != read then s.transfer.offset + n
                                                                else s.transfer.file.off));
      ghost var at := if n == read then h.off + n else before.s.transfer.offset + n;
      assert State(s) == SetTransfer(Emit(before, Sent(data[h.off..h.off + n])),
                                     before.s.transfer.(offset := before.s.transfer.offset + n, file := h.(off := at)));
      if s.transfer.offset == s.transfer.size {
        Finish(s, 226, io.closing);
      }
    }

    /** socket_recv into the shared buffer; an error is negative, the end of the stream 0 */
    method Recv(all: seq<byte>) returns (n: nat)
      requires dataBuf.Length == FILE_BUFFER_SIZE
      modifies dataBuf
      ensures n <= FILE_BUFFER_SIZE && dataBuf[..n] == Chunk(all)
    {
      n := if |all| < FILE_BUFFER_SIZE then |all| else FILE_BUFFER_SIZE;
      forall i | 0 <= i < n {
        dataBuf[i] := all[i];
      }
    }

    /** ftp_file_data_transfer_progress for STOR */
    method StorProgress(s: FtpSession, io: Io)
      requires dataBuf.Length == FILE_BUFFER_SIZE
      modifies this`files, this`fds, s, dataBuf
      ensures State(s) == S.StorStep(c, old(State(s)), io)
    {
      hide S.Finish, N.Write, Chunk, Unmount, Mounted;
      match io.recv
      case RecvBlocks =>
        s.transfer := s.transfer.(file := s.transfer.file.(off := s.transfer.offset));
      case RecvFails =>
        Finish(s, 426, io.closing);
      case Got(all) =>
        var n := Recv(all);
        if n == 0 {
          Finish(s, 226, io.closing);
        } else {
          s.log := s.log + [S.Received(dataBuf[..n])];
          var offset := s.transfer.offset;
          var ok := VfsWrite(s, n, io.faults);
          if ok {
            s.transfer := s.transfer.(offset := offset + n);
          } else {
            Finish(s, 426, io.closing);
          }
        }
    }

    /** ftp_dir_data_transfer_progress: send as much as possible, line by line */
    method DirProgress(s: FtpSession, io: Io)
      requires ListingSound(c, s.Value())
      modifies this`files, this`fds, s
      ensures State(s) == S.ListStep(c, old(State(s)), io.sends, io.closing)
    {
      hide S.Finish, Examined, DeviceLine, EntryLine, Terminated, Overlay, ListBytes;
      var nlist := s.transfer.mode == Nlst;
      var deviceList := c.devices != [] && s.tempPath == "/";
      var sends := io.sends;
      ghost var goal := S.ListStep(c, State(s), io.sends, io.closing);
      while true
        invariant goal == S.ListStep(c, State(s), sends, io.closing)
        invariant ListingSound(c, s.Value())
        invariant nlist == s.transfer.mode.Nlst? && deviceList == DeviceList(c, s.tempPath)
        decreases LinesLeft(c, s.transfer), s.transfer.size
      {
        if s.transfer.size > 0 {
          var done := SendLine(s, NextSend(sends), io.closing, sends);
          if done {
            return;
          }
          sends := RestSends(sends);
        } else if deviceList {
          var mount := c.devices[s.transfer.index];
          s.transfer := Build(s.transfer.(index := s.transfer.index + 1), DeviceLine(mount, nlist));
        } else {
          if s.transfer.dir.entries == [] {
            Finish(s, 226, io.closing);
            return;
          }
          var entry := s.transfer.dir.entries[0];
          s.transfer := s.transfer.(dir := s.transfer.dir.(entries := s.transfer.dir.entries[1..]));
          if Examined(entry, s.tempPath) {
            s.transfer := Build(s.transfer, EntryLine(entry, nlist));
          }
        }
      }
    }

    /** The branch of the loop that sends the pending line; it may be the last. */
    method SendLine(s: FtpSession, answer: SendAnswer, closing: seq<N.Fault>, ghost sends: seq<SendAnswer>)
      returns (done: bool)
      requires s.transfer.size > 0 && answer == NextSend(sends) && ListingSound(c, s.Value())
      modifies this`files, this`fds, s
      ensures done ==> State(s) == S.ListStep(c, old(State(s)), sends, closing)
      ensures !done ==>
                && S.ListStep(c, State(s), RestSends(sends), closing) == S.ListStep(c, old(State(s)), sends, closing)
                && s.transfer == Drained(old(s.transfer)) && s.tempPath == old(s.tempPath)
                && ListingSound(c, s.Value())
    {
      hide S.Finish, Examined, Fits, Printed;
      match answer
      case SendBlocks =>
        return true;
      case SendFails =>
        Finish(s, 426, closing);
        return true;
      case Took(count) =>
        var n := SendCount(count, s.transfer.size);
        s.log := s.log + [Sent(ListBytes(s.transfer.listBuf, s.transfer.offset, n))];
        if n != s.transfer.size {
          s.transfer := s.transfer.(offset := s.transfer.offset + n, size := s.transfer.size - n);
          return true;
        }
        s.transfer := Drained(s.transfer);
        if !s.transfer.dir.isValid {
          if c.devices == [] || s.tempPath != "/" || s.transfer.index == |c.devices| {
            Finish(s, 226, closing);
            return true;
          }
        }
        return false;
    }

    /** ftp_data_transfer_progress */
    method Progress(s: FtpSession, io: Io)
      requires dataBuf.Length == FILE_BUFFER_SIZE
      requires s.transfer.mode == List || s.transfer.mode == Nlst ==> ListingSound(c, s.Value())
      modifies this`files, this`fds, s, dataBuf
      ensures State(s) == S.Progress(c, old(State(s)), io)
    {
      hide S.RetrStep, S.StorStep, S.ListStep, ListingSound;
      if s.transfer.mode != Idle {
        if s.transfer.mode == Retr {
          RetrProgress(s, io);
        } else if s.transfer.mode == Stor {
          StorProgress(s, io);
        } else {
          DirProgress(s, io);
        }
      }
    }

    // ---- the command handlers

    method Answer(s: FtpSession, code: nat, text: string)
      modifies s`log
      ensures State(s) == Emit(old(State(s)), Reply(code, text))
    {
      s.log := s.log + [Reply(code, text)];
    }

    method CmdUser(s: FtpSession, data: string)
      modifies s
      ensures State(s) == S.CmdUser(c, old(State(s)), data)
    {
      var username := ScanLine(data, NAME_SIZE);
      if username == "" {
        Say(s, 501);
      } else if c.anon {
        if username != "anonymous" {
          Say(s, 530);
        } else {
          s.auth := AuthMode.Valid;
          Say(s, 230);
        }
      } else if username != c.user {
        Say(s, 530);
      } else {
        s.auth := NeedPass;
        Say(s, 331);
      }
    }

    method CmdPass(s: FtpSession, data: string)
      modifies s
      ensures State(s) == S.CmdPass(c, old(State(s)), data)
    {
      var password := ScanLine(data, NAME_SIZE);
      if password == "" {
        Say(s, 501);
      } else if s.auth != NeedPass {
        Say(s, 503);
      } else if password != c.pass {
        Say(s, 530);
      } else {
        s.auth := AuthMode.Valid;
        Say(s, 230);
      }
    }

    /** build_fullpath */
    method BuildFullpath(s: FtpSession, arg: CString) returns (b: P.Built)
      requires |arg| < P.PATHNAME_SIZE
      ensures b == Resolve(s.Value(), arg)
    {
      if s.pwd == "" {
        return P.Built(false, "");
      }
      b := P.FullPath(s.pwd, arg);
    }

    method SetDirectory(s: FtpSession, arg: CString, io: Io)
      requires |arg| < P.PATHNAME_SIZE
      modifies s
      ensures State(s) == S.SetDirectory(old(State(s)), arg, io)
    {
      var fullpath := BuildFullpath(s, arg);
      var ok := fullpath.ok;
      if ok && fullpath.path != "/" {
        ok := io.entry.IsDir?;
      }
      if !ok {
        Say(s, 550);
      } else {
        s.pwd := fullpath.path;
        Say(s, 200);
      }
    }

    method CmdCwd(s: FtpSession, data: string, io: Io)
      modifies s
      ensures State(s) == S.CmdCwd(old(State(s)), data, io)
    {
      var pathname := ScanLine(data, PATH_LIMIT);
      if pathname == "" {
        Say(s, 501);
      } else {
        SetDirectory(s, pathname, io);
      }
    }

    method CmdCdup(s: FtpSession, io: Io)
      modifies s
      ensures State(s) == S.CmdCdup(old(State(s)), io)
    {
      if s.pwd == "/" {
        Say(s, 550);
      } else {
        SetDirectory(s, "..", io);
      }
    }

    method CmdPort(s: FtpSession, data: string, io: Io)
      modifies this`files, this`fds, s
      ensures State(s) == S.CmdPort(c, old(State(s)), data, io)
    {
      hide S.TransferEnd, H.ParsePort;
      TransferEnd(s, io.closing);
      match H.ParsePort(data, s.dataAddr)
      case None => Say(s, 501);
      case Some(a) =>
        s.dataAddr := a;
        s.conn := Active;
        Say(s, 200);
    }

    /** socket_bind_port */
    method BindPort() returns (p: nat)
      modifies this`port
      ensures p == old(port) && port == H.NextPort(old(port))
    {
      p := port;
      port := if port == H.LAST_PORT then H.FIRST_PORT else port + 1;
    }

    method CmdPasv(s: FtpSession, io: Io)
      modifies this`files, this`fds, this`port, s
      ensures State(s) == S.CmdPasv(c, old(State(s)), io)
    {
      hide S.TransferEnd, H.PassiveText;
      TransferEnd(s, io.closing);
      s.pasvSock := NewSocket(io.socket);
      if s.pasvSock < 0 {
        Say(s, 501);
      } else {
        var picked := BindPort();
        s.log := s.log + [Listener(s.pasvSock, picked)];
        if io.bindOk {
          if io.listenOk {
            s.conn := Passive;
            Answer(s, 227, H.PassiveText(H.Address(s.host, picked)));
            return;
          } else {
            Say(s, 501);
          }
        } else {
          Say(s, 501);
        }
        ClosePasv(s);
      }
    }

    method CmdCode(s: FtpSession, data: string, known: set<char>)
      modifies s`log
      ensures State(s) == S.CmdCode(old(State(s)), data, known)
    {
      if data == "" {
        Say(s, 501);
      } else if data[0] in known {
        Say(s, 200);
      } else {
        Say(s, 504);
      }
    }

    method CmdRetr(s: FtpSession, data: string, io: Io)
      modifies this`files, this`fds, s
      ensures State(s) == S.CmdRetr(c, old(State(s)), data, io)
    {
      hide S.VfsOpen, S.VfsClose, S.RetrFrom, Resolve, FixedPath;
      var pathname := ScanLine(data, PATH_LIMIT);
      if pathname == "" {
        Say(s, 501);
      } else {
        var fullpath := BuildFullpath(s, pathname);
        if !fullpath.ok {
          Say(s, 550);
        } else {
          var ok := VfsOpen(s, FixedPath(c, fullpath.path), N.READ, io.faults);
          if !ok {
            Say(s, 550);
          } else if !io.fstatOk {
            Say(s, 550);
            VfsClose(s, io.closing);
          } else {
            RetrFrom(s, io);
          }
        }
      }
    }

    /** The part of RETR after the file has been opened and measured. */
    method RetrFrom(s: FtpSession, io: Io)
      modifies this`files, this`fds, s
      ensures State(s) == S.RetrFrom(c, old(State(s)), io)
    {
      hide S.DataOpen, S.VfsClose;
      s.transfer := s.transfer.(offset := 0, size := |Content(files, s.transfer.file.path)|);
      var ok := true;
      if s.marker > 0 {
        s.transfer := s.transfer.(offset := s.marker);
        if io.seekOk {
          s.transfer := s.transfer.(file := s.transfer.file.(off := s.transfer.offset));
        }
        ok := io.seekOk;
        s.marker := 0;
      }
      if !ok {
        Say(s, 550);
      } else {
        ok := DataOpen(s, io);
        if !ok {
          Say(s, 425);
        } else {
          s.transfer := s.transfer.(mode := Retr);
          return;
        }
      }
      VfsClose(s, io.closing);
    }

    method CmdStor(s: FtpSession, data: string, io: Io)
      modifies this`files, this`fds, s
      ensures State(s) == S.CmdStor(c, old(State(s)), data, io)
    {
      hide S.VfsOpen, S.VfsClose, S.DataOpen, FixedPath;
      var pathname := ScanLine(data, PATH_LIMIT);
      if pathname == "" {
        Say(s, 501);
      } else {
        var flags := N.WRITE;
        if s.marker == -1 {
          flags := N.APPEND;
          s.marker := 0;
        }
        var fullpath := BuildFullpath(s, pathname);
        if !fullpath.ok {
          Say(s, 551);
        } else {
          var ok := VfsOpen(s, FixedPath(c, fullpath.path), flags, io.faults);
          if !ok {
            Say(s, 551);
          } else {
            ok := DataOpen(s, io);
            if !ok {
              Say(s, 425);
            } else {
              s.transfer := s.transfer.(mode := Stor);
              return;
            }
            VfsClose(s, io.closing);
          }
        }
      }
    }

    method CmdAppe(s: FtpSession, data: string, io: Io)
      modifies this`files, this`fds, s
      ensures State(s) == S.CmdAppe(c, old(State(s)), data, io)
    {
      hide S.CmdStor;
      s.marker := -1;
      CmdStor(s, data, io);
    }

    method CmdRest(s: FtpSession, data: string)
      modifies s
      ensures State(s) == S.CmdRest(old(State(s)), data)
    {
      hide H.ScanInt;
      match H.ScanInt(data)
      case None => Say(s, 501);
      case Some(marker) =>
        if marker < 0 {
          Say(s, 501);
        } else {
          s.marker := marker;
          Say(s, 350);
        }
    }

    method CmdRnfr(s: FtpSession, data: string)
      modifies s
      ensures State(s) == S.CmdRnfr(old(State(s)), data)
    {
      var pathname := ScanLine(data, PATH_LIMIT);
      if pathname == "" {
        Say(s, 501);
      } else {
        var b := BuildFullpath(s, pathname);
        s.tempPath := b.path;
        Say(s, if b.ok then 350 else 550);
      }
    }

    method CmdRnto(s: FtpSession, data: string, io: Io)
      modifies this`files, s
      ensures State(s) == S.CmdRnto(old(State(s)), data, io)
    {
      hide Resolve;
      var pathname := ScanLine(data, PATH_LIMIT);
      if pathname == "" {
        Say(s, 501);
      } else if s.tempPath == "" {
        Say(s, 503);
      } else {
        var dst := BuildFullpath(s, pathname);
        if !dst.ok || !io.vfsOk {
          Say(s, 553);
        } else {
          files := io.tree;
          s.log := s.log + [TreeChanged(Rename, s.tempPath, dst.path)];
          Say(s, 250);
        }
      }
      s.tempPath := "";
    }

    method CmdAbor(s: FtpSession, io: Io)
      modifies this`files, this`fds, s
      ensures State(s) == S.CmdAbor(c, old(State(s)), io)
    {
      hide S.TransferEnd;
      if s.conn == NoConnection {
        Say(s, 226);
      } else if s.transfer.mode == Idle {
        TransferEnd(s, io.closing);
        Say(s, 225);
      } else {
        TransferEnd(s, io.closing);
        Say(s, 426);
        Say(s, 226);
      }
    }

    /** ftp_remove_file and MKD */
    method CmdTree(s: FtpSession, data: string, io: Io, op: TreeOp)
      modifies this`files, s`log
      ensures State(s) == S.CmdTree(c, old(State(s)), data, io, op)
    {
      hide Resolve, FixedPath;
      var pathname := ScanLine(data, PATH_LIMIT);
      if pathname == "" {
        Say(s, 501);
      } else {
        var b := BuildFullpath(s, pathname);
        if !b.ok || !io.vfsOk {
          Say(s, 550);
        } else {
          files := io.tree;
          s.log := s.log + [TreeChanged(op, FixedPath(c, b.path), "")];
          if op == Mkdir {
            Answer(s, 257, Shown(b.path));
          } else {
            Say(s, 250);
          }
        }
      }
    }

    method CmdSize(s: FtpSession, data: string, io: Io)
      modifies s`log
      ensures State(s) == S.CmdSize(old(State(s)), data, io)
    {
      hide Resolve;
      var pathname := ScanLine(data, PATH_LIMIT);
      if pathname == "" {
        Say(s, 501);
      } else {
        var b := BuildFullpath(s, pathname);
        if !b.ok {
          Say(s, 501);
        } else if io.entry.Missing? {
          Say(s, 550);
        } else {
          Say(s, 213);
        }
      }
    }

    /** ftp_list_directory */
    method CmdList(s: FtpSession, data: string, mode: Mode, io: Io)
      requires mode == List || mode == Nlst
      modifies this`fds, s
      ensures State(s) == S.CmdList(c, old(State(s)), data, mode, io)
    {
      hide S.DataOpen, S.ListFrom, Resolve, FixedPath;
      var pathname := ScanLine(data, PATH_LIMIT);
      var ok := true;
      if pathname == "" || pathname == "-a" || pathname == "-la" {
        s.tempPath := s.pwd;
      } else {
        var b := BuildFullpath(s, pathname);
        s.tempPath := b.path;
        ok := b.ok;
      }
      if !ok {
        Say(s, 501);
      } else if c.devices != [] && s.tempPath == "/" {
        ok := DataOpen(s, io);
        if !ok {
          Say(s, 425);
        } else {
          s.transfer := s.transfer.(index := 0, mode := mode);
        }
      } else {
        s.tempPath := FixedPath(c, s.tempPath);
        ListFrom(s, mode, io);
      }
    }

    method ListFrom(s: FtpSession, mode: Mode, io: Io)
      requires mode == List || mode == Nlst
      modifies this`fds, s
      ensures State(s) == S.ListFrom(old(State(s)), mode, io)
    {
      hide S.DataOpen, S.DirClose, Fits, Printed;
      match io.entry
      case Missing => Say(s, 450);
      case IsDir =>
        if !io.dirOk {
          Say(s, 450);
        } else {
          s.transfer := s.transfer.(dir := Dir(true, io.entries));
          s.log := s.log + [DirOpened(s.tempPath)];
          var ok := DataOpen(s, io);
          if !ok {
            Say(s, 425);
          } else {
            s.transfer := s.transfer.(mode := mode);
            return;
          }
          DirClose(s);
        }
      case IsFile =>
        if mode == List {
          s.transfer := Build(s.transfer, io.line);
          if !Fits(io.line) {
            Say(s, 450);
          } else {
            var ok := DataOpen(s, io);
            if !ok {
              Say(s, 425);
            } else {
              s.transfer := s.transfer.(mode := List);
            }
          }
        } else {
          Say(s, 450);
        }
    }

    // ---- dispatch

    /** The search through the command table */
    method FindCommand(name: string) returns (r: H.Option<Verb>)
      ensures r == Lookup(name, 0)
    {
      var i := 0;
      while i < |VERBS|
        invariant 0 <= i <= |VERBS|
        invariant Lookup(name, 0) == Lookup(name, i)
      {
        if StartsWithNoCase(name, Name(VERBS[i])) {
          return H.Some(VERBS[i]);
        }
        i := i + 1;
      }
      return H.None;
    }

    /** The handlers that only change a parameter of the session, or nothing */
    method ExecuteQuick(s: FtpSession, v: Verb, data: string, io: Io)
      requires !IsTransferVerb(v) && !IsConnectionVerb(v)
      modifies this`files, s
      ensures State(s) == S.Execute(c, old(State(s)), v, data, io)
    {
      hide S.CmdUser, S.CmdPass, S.CmdCwd, S.CmdCdup, S.CmdCode, S.CmdRest, S.CmdRnfr, S.CmdRnto, S.CmdTree, S.CmdSize;
      hide S.CmdRetr, S.CmdStor, S.CmdAppe, S.CmdList, S.CmdPort, S.CmdPasv, S.CmdAbor;
      match v
      case USER => CmdUser(s, data);
      case PASS => CmdPass(s, data);
      case CWD => CmdCwd(s, data, io);
      case CDUP => CmdCdup(s, io);
      case TYPE => CmdCode(s, data, {'A', 'I'});
      case STRU => CmdCode(s, data, {'F'});
      case MODE => CmdCode(s, data, {'S'});
      case REST => CmdRest(s, data);
      case RNFR => CmdRnfr(s, data);
      case RNTO => CmdRnto(s, data, io);
      case DELE => CmdTree(s, data, io, Unlink);
      case RMD => CmdTree(s, data, io, Rmdir);
      case MKD => CmdTree(s, data, io, Mkdir);
      case PWD => Answer(s, 257, Shown(s.pwd));
      case SIZE => CmdSize(s, data, io);
      case QUIT => Say(s, 221);
      case SYST => Say(s, 215);
      case HELP => Say(s, 214);
      case FEAT => Say(s, 211);
      case ALLO | NOOP => Say(s, 200);
      case ACCT | SMNT | REIN | SITE | STAT => Say(s, 500);
    }

    method Execute(s: FtpSession, v: Verb, data: string, io: Io)
      modifies this`files, this`fds, this`port, s
      ensures State(s) == S.Execute(c, old(State(s)), v, data, io)
    {
      hide S.Execute;
      if IsTransferVerb(v) {
        ExecuteTransfer(s, v, data, io);
      } else if IsConnectionVerb(v) {
        ExecuteConnection(s, v, data, io);
      } else {
        ExecuteQuick(s, v, data, io);
      }
    }

    method ExecuteTransfer(s: FtpSession, v: Verb, data: string, io: Io)
      requires IsTransferVerb(v)
      modifies this`files, this`fds, s
      ensures State(s) == S.Execute(c, old(State(s)), v, data, io)
    {
      hide S.CmdUser, S.CmdPass, S.CmdCwd, S.CmdCdup, S.CmdCode, S.CmdRest, S.CmdRnfr, S.CmdRnto, S.CmdTree, S.CmdSize;
      hide S.CmdRetr, S.CmdStor, S.CmdAppe, S.CmdList, S.CmdPort, S.CmdPasv, S.CmdAbor;
      hide State;
      match v
      case RETR => CmdRetr(s, data, io);
      case STOR => CmdStor(s, data, io);
      case APPE => CmdAppe(s, data, io);
      case LIST => CmdList(s, data, List, io);
      case NLST => CmdList(s, data, Nlst, io);
    }

    method ExecuteConnection(s: FtpSession, v: Verb, data: string, io: Io)
      requires IsConnectionVerb(v)
      modifies this`files, this`fds, this`port, s
      ensures State(s) == S.Execute(c, old(State(s)), v, data, io)
    {
      hide S.CmdUser, S.CmdPass, S.CmdCwd, S.CmdCdup, S.CmdCode, S.CmdRest, S.CmdRnfr, S.CmdRnto, S.CmdTree, S.CmdSize;
      hide S.CmdRetr, S.CmdStor, S.CmdAppe, S.CmdList, S.CmdPort, S.CmdPasv, S.CmdAbor;
      match v
      case PORT => CmdPort(s, data, io);
      case PASV => CmdPasv(s, io);
      case ABOR => CmdAbor(s, io);
    }

    /** ftp_session_progress_line: `text` starts with the line, of length `len` */
    method ProgressLine(s: FtpSession, text: string, len: nat, io: Io)
      requires IsLine(text, len)
      modifies this`files, this`fds, this`port, s
      ensures State(s) == S.LineStep(c, old(State(s)), text, len, io)
    {
      hide S.Execute, ScanLine, Lookup, ArgOf;
      s.log := s.log + [Line(text[..len])];
      var name := ScanLine(text, 4);
      if name == "" {
        Say(s, 500);
        return;
      }
      var found := FindCommand(name);
      if found.None? {
        Say(s, 500);
        return;
      }
      var v := found.value;
      VerbInsideLine(text, len);
      if NeedsAuth(v) && s.auth != AuthMode.Valid {
        Say(s, 530);
      } else if s.transfer.mode != Idle && v != ABOR {
        Say(s, 501);
      } else {
        var arg := ArgOf(text, len, v);
        if arg.Some? {
          if Args(v).NoArg? {
            Say(s, 501);
          } else {
            Execute(s, v, arg.value, io);
          }
        } else if Args(v).RequiredArg? {
          Say(s, 501);
        } else {
          Execute(s, v, "", io);
        }
      }
    }

    // ---- begin and end of a session

    /** ftp_session_init */
    method SessionInit(s: FtpSession, io: Io)
      modifies this`fds, this`count, s
      ensures State(s) == S.SessionInit(old(State(s)), io).st
      ensures count == old(count) + if S.SessionInit(old(State(s)), io).ok then 1 else 0
    {
      var controlSock := NewSocket(io.socket);
      if controlSock > 0 {
        s.Begin(controlSock, io.host);
        count := count + 1;
        Say(s, 220);
      }
    }

    /** ftp_session_close */
    method SessionClose(s: FtpSession, io: Io)
      modifies this`files, this`fds, this`count, s
      ensures State(s) == if old(s.active) then S.SessionClose(c, old(State(s)), io) else old(State(s))
      ensures count == old(count) - if old(s.active) then 1 else 0
    {
      hide S.CloseControl, S.TransferEnd;
      if s.active {
        CloseControl(s);
        TransferEnd(s, io.closing);
        s.Clear();
        s.log := s.log + [HungUp];
        count := count - 1;
      }
    }

    // ---- the control connection

    /** memset and recv: the received bytes, then NULs to the end of the buffer */
    method RecvControl(control: seq<byte>)
      requires dataBuf.Length == FILE_BUFFER_SIZE
      modifies dataBuf
      ensures Text(dataBuf[..]) == L.Received(control)
    {
      var n := if |control| < FILE_BUFFER_SIZE then |control| else FILE_BUFFER_SIZE - 1;
      forall i | 0 <= i < dataBuf.Length {
        dataBuf[i] := if i < n then control[i] else NUL;
      }
      var t := L.Received(control);
      assert dataBuf[..][|t|] == NUL;
      assert forall k | 0 <= k < |t| :: t[k] != NUL;
      assert IndexOf(dataBuf[..], NUL) == |t|;
      assert dataBuf[..|t|] == t;
    }

    /** The first line of a text, with what it leaves still to be served. */
    method ServeLine(s: FtpSession, text: string, ios: seq<Io>)
      requires Good(c, State(s)) && s.active && FindCrlf(text) < |text|
      modifies this`files, this`fds, this`port, s
      ensures Good(c, State(s)) && s.active
      ensures L.ServeText(c, old(State(s)), text, ios) ==
              L.ServeText(c, State(s), text[FindCrlf(text) + 2..], L.RestIos(ios))
    {
      hide Good, FindCrlf, L.ServeText, S.LineStep;
      LineIsServed(c, State(s), text, ios);
      ProgressLine(s, text, FindCrlf(text) + 2, L.FirstIo(ios));
    }

    /** ftp_session_poll: the complete lines of what was received, one after the other */
    method SessionPoll(s: FtpSession, control: seq<byte>, ios: seq<Io>, io: Io)
      requires Valid() && Good(c, State(s)) && s.active
      modifies this`files, this`fds, this`port, this`count, s, dataBuf
      ensures control == [] ==>
                State(s) == S.Step(c, old(State(s)), Disconnect(io)) && count == old(count) - 1
      ensures control != [] ==>
                State(s) == L.ServeText(c, old(State(s)), L.Received(control), ios) && count == old(count)
    {
      hide Good, S.Step, IndexOf, FindCrlf, Text, L.Received, L.ServeText;
      if control == [] {
        SessionCloseStep(s, io);
        return;
      }
      RecvControl(control);
      var lineOffset := 0;
      var left := ios;
      ghost var goal := L.ServeText(c, State(s), L.Received(control), ios);
      assert dataBuf[0..] == dataBuf[..];
      while true
        invariant 0 <= lineOffset <= dataBuf.Length && count == old(count)
        invariant Good(c, State(s)) && s.active
        invariant goal == L.ServeText(c, State(s), Text(dataBuf[lineOffset..]), left)
        decreases dataBuf.Length - lineOffset
      {
        var text := Text(dataBuf[lineOffset..]);
        var end := FindCrlf(text);
        if end == |text| {
          LineIsServed(c, State(s), text, left);
          break;
        }
        LineShorter(dataBuf[lineOffset..]);
        ServeLine(s, text, left);
        assert dataBuf[lineOffset..][end + 2..] == dataBuf[lineOffset + end + 2..];
        lineOffset := lineOffset + end + 2;
        left := L.RestIos(left);
      }
    }

    // ---- the loop

    /** What poll is asked about for slot `i`: its control socket and, during a transfer, its data socket. */
    ghost predicate Filled(pollFds: array<int>, sv: Server, i: Slot)
      requires pollFds.Length == 1 + 2 * MAX_SESSIONS && Shaped(sv)
      reads pollFds
    {
      && pollFds[1 + 2 * i] == L.ControlFd(sv.sessions[i])
      && pollFds[2 + 2 * i] == L.DataFd(sv.sessions[i])
    }

    /**
     * The sockets poll is asked about: the server's, and for each session the control and, during a
     * transfer, the data socket.
     */
    method FillFds(pollFds: array<int>, ghost sv: Server)
      requires Valid() && Shows(sv) && SvGood(c, sv) && pollFds.Length == 1 + 2 * MAX_SESSIONS
      modifies pollFds
      ensures pollFds[0] == serverSock && forall i: Slot :: Filled(pollFds, sv, i)
    {
      hide SvGood;
      var k := 0;
      while k < pollFds.Length
        invariant 0 <= k <= pollFds.Length
        invariant forall l | 0 <= l < k :: pollFds[l] == -1
      {
        pollFds[k] := -1;
        k := k + 1;
      }
      pollFds[0] := serverSock;
      var i := 0;
      while i < MAX_SESSIONS
        invariant 0 <= i <= MAX_SESSIONS && pollFds[0] == serverSock
        invariant forall l | 1 + 2 * i <= l < pollFds.Length :: pollFds[l] == -1
        invariant forall j: Slot | j < i :: pollFds[1 + 2 * j] == L.ControlFd(sv.sessions[j]) &&
                                            pollFds[2 + 2 * j] == L.DataFd(sv.sessions[j])
      {
        var s := sessions[i];
        if s.active {
          pollFds[1 + 2 * i] := s.controlSock;
          if s.transfer.mode != Idle {
            pollFds[2 + 2 * i] := s.dataSock;
          }
        }
        i := i + 1;
      }
    }

    /** The new connection goes to the first free slot, if there is one. */
    method Accept(ghost sv: Server, p: L.Poll) returns (ghost u: Server)
      requires Valid() && Shows(sv)
      modifies this`fds, this`count, sessions[..]
      ensures Valid() && Shows(u)
      ensures Shaped(sv) && u == Run(c, sv, L.AcceptEvents(sv, p))
    {
      hide S.SessionInit, Run, At;
      AcceptSplits(c, sv, p);
      u := sv;
      if !p.incoming {
        return;
      }
      var i := 0;
      while i < MAX_SESSIONS && sessions[i].active
        invariant 0 <= i <= MAX_SESSIONS
        invariant L.FirstFree(sv.sessions, 0) == L.FirstFree(sv.sessions, i)
      {
        i := i + 1;
      }
      if i < MAX_SESSIONS {
        SessionInit(sessions[i], p.accept);
        ConnectShown(c, sv, i, p.accept);
        u := At(c, sv, i, Connect(p.accept));
      }
    }

    /** The part of poll's answer that concerns sockets it was asked about. */
    method Answered(pollFds: array<int>, ghost sv: Server, i: Slot, q: L.SlotPoll) returns (seen: L.SlotPoll)
      requires pollFds.Length == 1 + 2 * MAX_SESSIONS && Shaped(sv) && Filled(pollFds, sv, i)
      requires L.Pollable(sv.sessions[i])
      ensures seen == L.Asked(sv.sessions[i], q)
      ensures seen.readable ==> sv.sessions[i].active
    {
      seen := q.(hangup := q.hangup && pollFds[1 + 2 * i] > 0,
                 readable := q.readable && pollFds[1 + 2 * i] > 0,
                 ready := q.ready && pollFds[2 + 2 * i] > 0);
    }

    /** The turn of slot `i`: what poll said about its sockets is acted on. */
    method Turn(ghost sv: Server, ghost sv1: Server, p: L.Poll, pollFds: array<int>, i: Slot, ghost u: Server)
        returns (ghost u': Server)
      requires Valid() && Shaped(sv) && SvGood(c, sv1) && Shows(u) && L.Kept(sv, sv1) && SvGood(c, u)
      requires u == Run(c, sv1, L.ServeEvents(sv, p, i))
      requires pollFds.Length == 1 + 2 * MAX_SESSIONS && Filled(pollFds, sv, i) && L.Pollable(sv.sessions[i])
      modifies this`files, this`fds, this`port, this`count, sessions[..], dataBuf
      ensures Valid() && Shows(u') && SvGood(c, u')
      ensures Shaped(sv1) && u' == Run(c, sv1, L.ServeEvents(sv, p, i + 1))
    {
      hide SvGood, Shows, Filled, L.Pollable, L.Kept, L.ServeEvents, L.SlotEvents, L.Asked, Run, Valid;
      GoodShaped(c, sv1);
      var seen := Answered(pollFds, sv, i, p.slots(i));
      ServeTurn(c, sv, sv1, p, i);
      u' := ServeSlot(u, i, seen);
    }

    /** The second half of the pass: every slot's control connection, then its data connection. */
    method Serve(ghost sv: Server, ghost sv1: Server, p: L.Poll, pollFds: array<int>) returns (ghost u: Server)
      requires Valid() && Shaped(sv) && SvGood(c, sv1) && Shows(sv1) && L.Kept(sv, sv1)
      requires pollFds.Length == 1 + 2 * MAX_SESSIONS && pollFds as object != dataBuf as object
      requires forall i: Slot :: Filled(pollFds, sv, i) && L.Pollable(sv.sessions[i])
      modifies this`files, this`fds, this`port, this`count, sessions[..], dataBuf
      ensures Valid() && Shows(u)
      ensures Shaped(sv1) && u == Run(c, sv1, L.ServeEvents(sv, p, MAX_SESSIONS))
    {
      hide SvGood, Shows, Filled, L.Pollable, L.Kept, L.ServeEvents, Run, Valid;
      GoodShaped(c, sv1);
      var i := 0;
      u := sv1;
      NoEvents(c, sv1, sv, p);
      while i < MAX_SESSIONS
        invariant 0 <= i <= MAX_SESSIONS && Valid()
        invariant u == Run(c, sv1, L.ServeEvents(sv, p, i)) && Shows(u) && SvGood(c, u)
      {
        u := Turn(sv, sv1, p, pollFds, i, u);
        i := i + 1;
      }
    }

    method ServeSlot(ghost sv: Server, i: Slot, q: L.SlotPoll) returns (ghost u: Server)
      requires Valid() && Shows(sv) && SvGood(c, sv) && (q.readable ==> sv.sessions[i].active)
      modifies this`files, this`fds, this`port, this`count, sessions[..], dataBuf
      ensures Valid() && Shows(u)
      ensures Shaped(sv) && u == Run(c, sv, L.SlotEvents(i, q))
    {
      hide SvGood, Shows, Run, At, L.ControlEvents, L.SlotEvents;
      GoodShaped(c, sv);
      u := ServeControl(sv, i, q);
      SlotSplits(c, sv, i, q);
      RunGood(c, sv, L.ControlEvents(i, q));
      if q.ready {
        ServeData(u, i, q.io);
        u := At(c, u, i, DataReady(q.io));
      }
    }

    method ServeControl(ghost sv: Server, i: Slot, q: L.SlotPoll) returns (ghost u: Server)
      requires Valid() && Shows(sv) && SvGood(c, sv) && (q.readable ==> sv.sessions[i].active)
      modifies this`files, this`fds, this`port, this`count, sessions[..], dataBuf
      ensures Valid() && Shows(u)
      ensures Shaped(sv) && u == Run(c, sv, L.ControlEvents(i, q))
    {
      hide SvGood, Shows, Run, At;
      GoodShaped(c, sv);
      ControlSplits(c, sv, i, q);
      if q.hangup {
        ServeHangup(sv, i, q.io);
        u := At(c, sv, i, Disconnect(q.io));
      } else if q.readable {
        u := ServeReadable(sv, i, q);
      } else {
        u := sv;
      }
    }

    method ServeHangup(ghost sv: Server, i: Slot, io: Io)
      requires Valid() && Shows(sv)
      modifies this`files, this`fds, this`count, sessions[..]
      ensures Valid() && Shows(At(c, sv, i, Disconnect(io)))
    {
      hide S.Step, S.SessionClose;
      assert State(sessions[i]) == View(sv, i);
      SessionClose(sessions[i], io);
      DisconnectShown(c, sv, i, io);
    }

    method ServeReadable(ghost sv: Server, i: Slot, q: L.SlotPoll) returns (ghost u: Server)
      requires Valid() && Shows(sv) && SvGood(c, sv) && sv.sessions[i].active
      modifies this`files, this`fds, this`port, this`count, sessions[..], dataBuf
      ensures Valid() && Shows(u)
      ensures Shaped(sv) && u == if q.control == [] then At(c, sv, i, Disconnect(q.io))
                                 else Run(c, sv, L.Commands(i, L.Received(q.control), q.ios))
    {
      hide S.Step, S.SessionClose, L.ServeText, Good, Run, L.Commands, SvGood, L.Received;
      GoodAt(c, sv, i);
      assert State(sessions[i]) == View(sv, i);
      SessionPoll(sessions[i], q.control, q.ios, q.io);
      if q.control == [] {
        DisconnectShown(c, sv, i, q.io);
        u := At(c, sv, i, Disconnect(q.io));
      } else {
        L.ServeTextIsRun(c, sv, i, L.Received(q.control), q.ios);
        u := Run(c, sv, L.Commands(i, L.Received(q.control), q.ios));
      }
    }

    /** The data connection, unless the control connection has just ended the transfer. */
    method ServeData(ghost sv: Server, i: Slot, io: Io)
      requires Valid() && Shows(sv) && SvGood(c, sv)
      modifies this`files, this`fds, sessions[..], dataBuf
      ensures Valid() && Shows(At(c, sv, i, DataReady(io)))
    {
      hide S.Progress, Good, SvGood, ListingSound;
      GoodAt(c, sv, i);
      var s := sessions[i];
      assert State(s) == View(sv, i);
      if s.active && s.transfer.mode != Idle {
        Progress(s, io);
      }
    }

    /** ftpsrv_loop: one pass, given what poll reports; false asks for a restart */
    method Pass(ghost sv: Server, p: L.Poll) returns (ok: bool)
      requires Valid() && Shows(sv) && SvGood(c, sv)
      modifies this`files, this`fds, this`port, this`count, sessions[..], dataBuf
      ensures Valid() && Shows(if initialised then Run(c, sv, L.PassEvents(sv, p)) else sv)
      ensures ok <==> initialised && !p.failed && !p.serverError
    {
      hide SvGood, Shows, Run, L.PassEvents;
      ok := initialised;
      if initialised {
        ghost var u;
        ok, u := PollPass(sv, p);
      }
    }

    method PollPass(ghost sv: Server, p: L.Poll) returns (ok: bool, ghost u: Server)
      requires Valid() && Shows(sv) && SvGood(c, sv)
      modifies this`files, this`fds, this`port, this`count, sessions[..], dataBuf
      ensures Valid() && Shows(u)
      ensures Shaped(sv) && u == Run(c, sv, L.PassEvents(sv, p))
      ensures ok <==> !p.failed && !p.serverError
    {
      hide SvGood, Shows, Filled, Run, L.PassEvents, L.Pollable, L.AcceptEvents, L.ServeEvents;
      GoodShaped(c, sv);
      var pollFds := new int[1 + 2 * MAX_SESSIONS];
      FillFds(pollFds, sv);
      PassSplits(c, sv, p);
      ok, u := !p.failed && !p.serverError, sv;
      if ok {
        SocketsPositive(c, sv);
        u := ActOn(sv, p, pollFds);
      }
    }

    /** What poll found: a new connection first, then every slot. */
    method ActOn(ghost sv: Server, p: L.Poll, pollFds: array<int>) returns (ghost u: Server)
      requires Valid() && Shows(sv) && SvGood(c, sv)
      requires pollFds.Length == 1 + 2 * MAX_SESSIONS && pollFds as object != dataBuf as object
      requires forall i: Slot :: Filled(pollFds, sv, i) && L.Pollable(sv.sessions[i])
      modifies this`files, this`fds, this`port, this`count, sessions[..], dataBuf
      ensures Valid() && Shows(u)
      ensures Shaped(sv) && u == Run(c, Run(c, sv, L.AcceptEvents(sv, p)), L.ServeEvents(sv, p, MAX_SESSIONS))
    {
      hide SvGood, Shows, Filled, Run, L.AcceptEvents, L.ServeEvents, L.Pollable, L.Kept;
      GoodShaped(c, sv);
      ghost var sv1 := Accept(sv, p);
      RunGood(c, sv, L.AcceptEvents(sv, p));
      L.AcceptKeeps(c, sv, p);
      u := Serve(sv, sv1, p, pollFds);
    }

    /** ftpsrv_exit: every active session is closed, then the server's socket; nothing is left initialised */
    method Exit(ghost sv: Server, ios: Slot -> Io)
      requires Valid() && Shows(sv) && SvGood(c, sv)
      modifies this`files, this`fds, this`count, this`serverSock, this`initialised, sessions[..]
      ensures Valid() && !initialised && (old(initialised) ==> serverSock <= 0)
      ensures old(initialised) ==> Shows(SV.Exit(c, sv, old(serverSock), ios))
      ensures !old(initialised) ==> Shows(sv)
    {
      hide SvGood, Shows, Run, ExitEvents, SV.Exit;
      if initialised {
        ghost var e := CloseSessions(sv, ios);
        ExitShape(c, sv, serverSock, ios);
        CloseServer(e);
      }
    }

    /** ftp_close_socket on the server's socket; the server is not initialised any more */
    method CloseServer(ghost sv: Server)
      requires Valid() && Shows(sv)
      modifies this`fds, this`serverSock, this`initialised
      ensures Valid() && serverSock <= 0 && !initialised
      ensures Shows(sv.(w := sv.w.(fds := sv.w.fds - M.Own(old(serverSock)))))
    {
      if serverSock > 0 {
        fds := fds - {serverSock};
        serverSock := -1;
      }
      initialised := false;
    }

    method CloseSessions(ghost sv: Server, ios: Slot -> Io) returns (ghost u: Server)
      requires Valid() && Shows(sv) && SvGood(c, sv)
      modifies this`files, this`fds, this`count, sessions[..]
      ensures Valid() && Shows(u)
      ensures Shaped(sv) && u == Run(c, sv, ExitEvents(ios, MAX_SESSIONS))
    {
      hide SvGood, S.SessionClose, S.Step;
      var i := 0;
      u := sv;
      while i < MAX_SESSIONS
        invariant 0 <= i <= MAX_SESSIONS && Valid()
        invariant u == Run(c, sv, ExitEvents(ios, i)) && Shows(u)
      {
        ServeHangup(u, i, ios(i));
        ghost var evs := ExitEvents(ios, i + 1);
        assert evs[..|evs| - 1] == ExitEvents(ios, i);
        u := At(c, u, i, Disconnect(ios(i)));
        i := i + 1;
      }
    }

    method SessionCloseStep(s: FtpSession, io: Io)
      requires s.active
      modifies this`files, this`fds, this`count, s
      ensures State(s) == S.Step(c, old(State(s)), Disconnect(io)) && count == old(count) - 1
    {
      hide S.SessionClose;
      SessionClose(s, io);
    }
  }

  /** The events of accepting: one, or none. */
  lemma AcceptSplits(c: Config, sv: Server, p: L.Poll)
    requires Shaped(sv)
    ensures var k := L.FirstFree(sv.sessions, 0);
            Run(c, sv, L.AcceptEvents(sv, p)) ==
            if p.incoming && k < MAX_SESSIONS then At(c, sv, k, Connect(p.accept)) else sv
  {
    hide At;
    var k := L.FirstFree(sv.sessions, 0);
    if k < MAX_SESSIONS { L.RunOne(c, sv, (k, Connect(p.accept))); }
  }

  lemma ControlSplits(c: Config, sv: Server, i: Slot, q: L.SlotPoll)
    requires Shaped(sv)
    ensures Run(c, sv, L.ControlEvents(i, q)) ==
            if q.hangup || (q.readable && q.control == []) then At(c, sv, i, Disconnect(q.io))
            else if q.readable then Run(c, sv, L.Commands(i, L.Received(q.control), q.ios))
            else sv
  {
    hide At;
    L.RunOne(c, sv, (i, Disconnect(q.io)));
  }

  lemma SlotSplits(c: Config, sv: Server, i: Slot, q: L.SlotPoll)
    requires Shaped(sv)
    ensures var u := Run(c, sv, L.ControlEvents(i, q));
            Run(c, sv, L.SlotEvents(i, q)) == if q.ready then At(c, u, i, DataReady(q.io)) else u
  {
    hide At, Run, L.ControlEvents;
    var evs := L.ControlEvents(i, q);
    L.RunConcat(c, sv, evs, [(i, DataReady(q.io))]);
    L.RunOne(c, Run(c, sv, evs), (i, DataReady(q.io)));
    assert evs + [] == evs;
  }

  lemma PassSplits(c: Config, sv: Server, p: L.Poll)
    requires Shaped(sv)
    ensures Run(c, sv, L.PassEvents(sv, p)) ==
            if p.failed || p.serverError then sv
            else Run(c, Run(c, sv, L.AcceptEvents(sv, p)), L.ServeEvents(sv, p, MAX_SESSIONS))
  {
    hide At, L.AcceptEvents, L.ServeEvents;
    L.RunConcat(c, sv, L.AcceptEvents(sv, p), L.ServeEvents(sv, p, MAX_SESSIONS));
  }

  lemma GoodAt(c: Config, sv: Server, i: Slot)
    requires SvGood(c, sv)
    ensures Good(c, View(sv, i))
    ensures Listing(sv.sessions[i]) ==> ListingSound(c, sv.sessions[i])
  {
    assert Good(c, View(sv, i));
  }

  lemma ExitShape(c: Config, sv: Server, sock: int, ios: Slot -> Io)
    requires Shaped(sv)
    ensures var e := Run(c, sv, ExitEvents(ios, MAX_SESSIONS));
            SV.Exit(c, sv, sock, ios) == e.(w := e.w.(fds := e.w.fds - M.Own(sock)))
  {
    hide Run, ExitEvents;
  }

  lemma NoEvents(c: Config, sv1: Server, sv: Server, p: L.Poll)
    requires Shaped(sv1) && Shaped(sv)
    ensures Run(c, sv1, L.ServeEvents(sv, p, 0)) == sv1
  {
  }

  /** One more slot's turn: its events come next, it is as it was at the poll, and order is kept. */
  lemma ServeTurn(c: Config, sv: Server, sv1: Server, p: L.Poll, i: Slot)
    requires Shaped(sv) && SvGood(c, sv1) && L.Kept(sv, sv1)
    ensures var u := Run(c, sv1, L.ServeEvents(sv, p, i));
            var seen := L.Asked(sv.sessions[i], p.slots(i));
            && (sv.sessions[i].active ==> u.sessions[i] == sv.sessions[i])
            && SvGood(c, Run(c, u, L.SlotEvents(i, seen)))
            && Run(c, u, L.SlotEvents(i, seen)) == Run(c, sv1, L.ServeEvents(sv, p, i + 1))
  {
    hide SvGood, Run, L.Kept, L.SlotEvents;
    GoodShaped(c, sv1);
    var u := Run(c, sv1, L.ServeEvents(sv, p, i));
    var seen := L.Asked(sv.sessions[i], p.slots(i));
    if sv.sessions[i].active { L.TurnUnchanged(c, sv, sv1, p, i); }
    L.RunConcat(c, sv1, L.ServeEvents(sv, p, i), L.SlotEvents(i, seen));
    RunGood(c, sv1, L.ServeEvents(sv, p, i));
    RunGood(c, u, L.SlotEvents(i, seen));
  }

  /** An accepted connection, seen as an event. */
  lemma ConnectShown(c: Config, sv: Server, i: Slot, io: Io)
    requires Shaped(sv) && !sv.sessions[i].active
    ensures var r := S.SessionInit(View(sv, i), io);
            At(c, sv, i, Connect(io)) ==
            Server(sv.sessions[i := r.st.s], sv.logs[i := r.st.log], r.st.w, sv.count + if r.ok then 1 else 0)
  {
  }

  /** The end of a session, seen as an event. */
  lemma DisconnectShown(c: Config, sv: Server, i: Slot, io: Io)
    requires Shaped(sv)
    ensures Step(c, View(sv, i), Disconnect(io)) ==
            if sv.sessions[i].active then S.SessionClose(c, View(sv, i), io) else View(sv, i)
    ensures At(c, sv, i, Disconnect(io)).count == sv.count - if sv.sessions[i].active then 1 else 0
  {
  }

  lemma SocketsPositive(c: Config, sv: Server)
    requires SvGood(c, sv)
    ensures forall i: Slot :: L.Pollable(sv.sessions[i])
  {
    forall i: Slot ensures L.Pollable(sv.sessions[i]) {
      assert Good(c, View(sv, i));
    }
  }

  /** For an active session in good order a line is an event, and keeps it so. */
  lemma LineIsStep(c: Config, st: St, text: string, io: Io)
    requires Good(c, st) && st.s.active && FindCrlf(text) < |text|
    ensures var r := LineStep(c, st, text, FindCrlf(text) + 2, io);
            r == Step(c, st, Command(text, io)) && Good(c, r) && r.s.active
  {
    hide Good, LineStep, FdFrame, Progress, SessionClose, SessionInit;
    StepGood(c, st, Command(text, io));
    StepFrame(c, st, Command(text, io));
  }

  /** One turn of the splitting loop: the first line is an event, the rest is served after it. */
  lemma LineIsServed(c: Config, st: St, text: string, ios: seq<Io>)
    requires Good(c, st) && st.s.active
    ensures FindCrlf(text) == |text| ==> L.ServeText(c, st, text, ios) == st
    ensures var n := FindCrlf(text);
            n < |text| ==>
              var r := LineStep(c, st, text, n + 2, L.FirstIo(ios));
              && Good(c, r) && r.s.active
              && L.ServeText(c, st, text, ios) == L.ServeText(c, r, text[n + 2..], L.RestIos(ios))
  {
    hide Good, LineStep;
    if FindCrlf(text) < |text| {
      LineIsStep(c, st, text, L.FirstIo(ios));
    }
    hide Step;
  }

  /** A line found in the text of a buffer lies in the buffer, and the text goes on behind it. */
  lemma LineShorter(b: string)
    requires var t := Text(b); FindCrlf(t) < |t|
    ensures var t := Text(b); var n := FindCrlf(t);
            n + 2 <= |t| <= |b| && IsLine(t, n + 2) && Text(b[n + 2..]) == t[n + 2..]
  {
    TextDrop(b, FindCrlf(Text(b)) + 2);
  }

  /** The text of a buffer goes on behind any part of it. */
  lemma TextDrop(b: string, n: nat)
    requires n <= |Text(b)|
    ensures Text(b[n..]) == Text(b)[n..]
  {
    var t := Text(b);
    assert forall k | 0 <= k < |b| - n :: b[n..][k] == b[n + k];
    assert IndexOf(b[n..], NUL) == |t| - n;
  }
}
