/**
  Accepted connections and the addresses announced on them, over whole runs of the server
  (src/ftpsrv.c, lines 764 to 803 and 1289 to 1315).
*/
module Addresses {
  import opened Session
  import opened Conduct
  import opened Frames
  import opened Server
  import opened Loop
  import opened Records
  import H = HostPort

  // ------------------------------------------------------------- accepting a connection

  /** A session that has been accepted and greeted, and nothing more. */
  predicate Newcomer(s: Session, io: Io) {
    && s.active && s.auth == NoAuth && s.conn == NoConnection && !s.Busy()
    && s.controlSock == io.socket && s.dataSock == 0 && s.pasvSock == 0
    && s.host == io.host && s.marker == 0 && s.pwd == "/" && s.tempPath == ""
    && s.transfer.offset == 0 && s.transfer.size == 0
    && !s.transfer.file.isValid && !s.transfer.dir.isValid
  }

  /** A connection that is granted a socket fills a free slot; any other leaves everything alone. */
  lemma Welcomed(c: Config, st: St, io: Io)
    requires !st.s.active
    ensures var r := Step(c, st, Connect(io));
            if Granted(st.w, io.socket) then
              && Newcomer(r.s, io) && r.w == st.w.(fds := st.w.fds + {io.socket})
              && r.log == st.log + [Accepted(io.socket), Reply(220, "")]
            else r == st
  {
    assert st.log + [Accepted(io.socket)] + [Reply(220, "")] == st.log + [Accepted(io.socket), Reply(220, "")];
  }

  /** The first free slot, if a connection is waiting. */
  ghost predicate Welcoming(sv: Server, p: Poll, i: Slot)
    requires Shaped(sv)
  {
    p.incoming && !sv.sessions[i].active && forall j: Slot | j < i :: sv.sessions[j].active
  }

  /**
    What a pass makes of a slot that was free at the poll: the first such slot takes a
    connection that is waiting, and nothing happens to the others, whatever poll reported for
    their old sockets.
  */
  lemma FreeSlot(c: Config, sv: Server, p: Poll, i: Slot)
    requires SvGood(c, sv) && !p.failed && !p.serverError && !sv.sessions[i].active
    ensures var r := Run(c, sv, PassEvents(sv, p));
            if Welcoming(sv, p, i) && Granted(sv.w, p.accept.socket) then
              && Newcomer(r.sessions[i], p.accept)
              && r.logs[i] == sv.logs[i] + [Accepted(p.accept.socket), Reply(220, "")]
            else r.sessions[i] == sv.sessions[i] && r.logs[i] == sv.logs[i]
  {
    hide SvGood, Run, Step, ServeEvents, Newcomer;
    GoodShaped(c, sv);
    var first := AcceptEvents(sv, p);
    var u := Run(c, sv, first);
    ServeSkips(sv, p, MAX_SESSIONS, i);
    RunConcat(c, sv, first, ServeEvents(sv, p, MAX_SESSIONS));
    RunElsewhere(c, u, ServeEvents(sv, p, MAX_SESSIONS), i);
    FirstIsFirst(sv, p, i);
    if Welcoming(sv, p, i) {
      RunOne(c, sv, (i, Connect(p.accept)));
      Welcomed(c, View(sv, i), p.accept);
    } else {
      RunElsewhere(c, sv, first, i);
    }
  }

  lemma FirstIsFirst(sv: Server, p: Poll, i: Slot)
    requires Shaped(sv) && !sv.sessions[i].active
    ensures Welcoming(sv, p, i) ==> AcceptEvents(sv, p) == [(i, Connect(p.accept))]
    ensures !Welcoming(sv, p, i) ==> forall e | e in AcceptEvents(sv, p) :: e.0 != i
  {
    var k := FirstFree(sv.sessions, 0);
    if Welcoming(sv, p, i) {
      assert k == i;
    }
  }

  /** A poll that failed, or a broken server socket, ends the pass before anything is done. */
  lemma BrokenPass(c: Config, sv: Server, p: Poll)
    requires Shaped(sv) && (p.failed || p.serverError)
    ensures Run(c, sv, PassEvents(sv, p)) == sv
  {
    RunNothing(c, sv);
  }

  // --------------------------------------------------------- the address a client is told

  /** The local address of the connection last accepted on slot `i`, as getsockname gave it. */
  ghost function HostAt(c: Config, sv: Server, i: Slot, evs: seq<(Slot, Event)>): H.Host
    requires Shaped(sv)
  {
    if evs == [] then NO_ADDRESS.host
    else
      var n := |evs| - 1;
      var st := View(Run(c, sv, evs[..n]), i);
      if evs[n].0 == i && evs[n].1.Connect? && !st.s.active && Granted(st.w, evs[n].1.io.socket)
      then evs[n].1.io.host
      else HostAt(c, sv, i, evs[..n])
  }

  /** A session keeps the address of its connection through everything that happens. */
  lemma {:induction false} HostKept(c: Config, files: Files, sock: int, evs: seq<(Slot, Event)>, i: Slot)
    ensures var sv := Boot(files, sock);
            var s := Run(c, sv, evs).sessions[i];
            s.active ==> s.host == HostAt(c, sv, i, evs)
  {
    hide Step, SvGood, Boot;
    var sv := Boot(files, sock);
    BootGood(c, files, sock);
    if evs != [] {
      var n := |evs| - 1;
      var u := Run(c, sv, evs[..n]);
      HostKept(c, files, sock, evs[..n], i);
      RunGood(c, sv, evs[..n]);
      HostNext(c, u, i, evs[n]);
    } else {
      BootBlankSlot(files, sock, i);
    }
  }

  lemma BootBlankSlot(files: Files, sock: int, i: Slot)
    ensures Boot(files, sock).sessions[i] == BLANK
  {
  }

  lemma HostNext(c: Config, u: Server, i: Slot, e: (Slot, Event))
    requires SvGood(c, u)
    ensures var s, r := u.sessions[i], At(c, u, e.0, e.1).sessions[i];
            r.active ==>
              if e.0 == i && e.1.Connect? && !s.active && Granted(u.w, e.1.io.socket) then r.host == e.1.io.host
              else s.active && r.host == s.host
  {
    assert Good(c, View(u, i));
    hide Good;
    if e.0 == i {
      StepFrame(c, View(u, i), e.1);
      hide Progress, LineStep, TransferEnd;
    } else {
      hide Step;
    }
  }

  /** PORT reads an announcement as the address `host` and the port that was listened on before it. */
  ghost predicate Tells(x: Announcement, host: H.Host) {
    x.port.Some? && forall before, rest | rest == "" || !H.IsDigit(rest[0]) ::
                      H.ParsePort(x.text + rest, before) == H.Some(H.Address(host, x.port.value))
  }

  lemma ListeningTells(st: St, host: H.Host)
    requires st.s.host == host && H.InRange(st.w.port)
    ensures Tells(Announcement(H.Some(st.w.port), H.PassiveText(Listening(st))), host)
  {
    hide H.ParsePort, H.PassiveText;
    var a := Listening(st);
    assert H.ValidAddress(a);
    forall before: H.Address, rest | rest == "" || !H.IsDigit(rest[0])
      ensures H.ParsePort(H.PassiveText(a) + rest, before) == H.Some(a)
    {
      H.PortUndoesPasv(a, before, rest);
    }
  }

  /** What one event adds to the announcements of slot `i`. */
  lemma NextAnnouncement(c: Config, files: Files, sock: int, evs: seq<(Slot, Event)>, e: (Slot, Event), i: Slot)
    ensures var sv := Boot(files, sock);
            var u := Run(c, sv, evs);
            var a, b := Announced(u.logs[i]), Announced(At(c, u, e.0, e.1).logs[i]);
            a == b || (a <= b && |b| == |a| + 1 && Tells(b[|a|], HostAt(c, sv, i, evs)))
  {
    hide Step, SvGood, Boot, Run, Announced, LinesOf, PortsOf, Tells;
    var sv := Boot(files, sock);
    BootGood(c, files, sock);
    RunGood(c, sv, evs);
    var u := Run(c, sv, evs);
    GoodShaped(c, u);
    if e.0 == i {
      StepRecords(c, View(u, i), e.1);
      HostKept(c, files, sock, evs, i);
      PortRanges(c, u);
      if u.sessions[i].active { ListeningTells(View(u, i), HostAt(c, sv, i, evs));
          } else { FreeTellsNothing(c, View(u, i), e.1); }
    }
  }

  lemma PortRanges(c: Config, sv: Server)
    requires SvGood(c, sv)
    ensures H.InRange(sv.w.port)
  {
  }

  /** On a free slot nothing is announced. */
  lemma FreeTellsNothing(c: Config, st: St, ev: Event)
    requires !st.s.active
    ensures Announced(Step(c, st, ev).log) == Announced(st.log)
  {
    hide SessionInit, Announced, LinesOf, PortsOf;
    match ev
    case Connect(io) => InitUnrecorded(st, io);
    case _ =>
  }

  /**
    Over any run of the whole server, every 227 that a slot has sent is read by PORT as the
    local address of the connection it had accepted when it sent it, and the port of the
    listener it had opened for it.
  */
  lemma {:induction false} EveryAnnouncement(c: Config, files: Files, sock: int, evs: seq<(Slot, Event)>, i: Slot,
          k: nat)
    returns (n: nat)
    requires k < |Announced(Run(c, Boot(files, sock), evs).logs[i])|
    ensures n < |evs|
    ensures var sv := Boot(files, sock);
            var told := Announced(Run(c, sv, evs).logs[i]);
            && Tells(told[k], HostAt(c, sv, i, evs[..n]))
            && |Announced(Run(c, sv, evs[..n]).logs[i])| <= k < |Announced(Run(c, sv, evs[..n + 1]).logs[i])|
  {
    hide At, Boot, Announced, Tells, HostAt;
    var sv := Boot(files, sock);
    if evs == [] {
      NothingTold(files, sock, i);
      assert false;
    }
    n := |evs| - 1;
    NextAnnouncement(c, files, sock, evs[..n], evs[n], i);
    var before := Announced(Run(c, sv, evs[..n]).logs[i]);
    if k < |before| {
      n := EveryAnnouncement(c, files, sock, evs[..n], i, k);
      assert evs[..|evs| - 1][..n] == evs[..n] && evs[..|evs| - 1][..n + 1] == evs[..n + 1];
    } else {
      assert evs[..n + 1] == evs;
    }
  }

  lemma NothingTold(files: Files, sock: int, i: Slot)
    ensures Announced(Boot(files, sock).logs[i]) == []
  {
  }
}
