/**
  The session table and whole runs of the server: any sequence of events on any slots,
  with any answers of the environment (src/ftpsrv.c, lines 1289 to 1613).
*/
module Server {
  import opened Session
  import opened Monitor
  import opened Conduct
  import opened Frames
  import P = Pathname
  import H = HostPort

  const MAX_SESSIONS: nat := 128

  type Slot = i: nat | i < MAX_SESSIONS

  /** The table, each slot's log, the shared world, and the count of active slots. */
  datatype Server = Server(sessions: seq<Session>, logs: seq<seq<Effect>>, w: World, count: int)

  ghost predicate Shaped(sv: Server) {
    |sv.sessions| == |sv.logs| == MAX_SESSIONS
  }

  function View(sv: Server, i: Slot): St
    requires Shaped(sv)
  {
    St(sv.sessions[i], sv.w, sv.logs[i])
  }

  /** A freshly started server that listens on `sock`, if it got a socket. */
  function Boot(files: Files, sock: int): (sv: Server)
    ensures Shaped(sv)
  {
    Server(seq(MAX_SESSIONS, _ => BLANK), seq(MAX_SESSIONS, _ => []),
           World(files, Own(sock), H.FIRST_PORT), 0)
  }

  /** session_count is touched only where a session begins and where one ends. */
  function Counted(sv: Server, i: Slot, ev: Event): int
    requires Shaped(sv)
  {
    match ev
    case Connect(io) => if !sv.sessions[i].active && Granted(sv.w, io.socket) then sv.count + 1 else sv.count
    case Disconnect(_) => if sv.sessions[i].active then sv.count - 1 else sv.count
    case _ => sv.count
  }

  /** One event on one slot. */
  function At(c: Config, sv: Server, i: Slot, ev: Event): (sv': Server)
    requires Shaped(sv)
    ensures Shaped(sv')
  {
    var r := Step(c, View(sv, i), ev);
    Server(sv.sessions[i := r.s], sv.logs[i := r.log], r.w, Counted(sv, i, ev))
  }

  function Run(c: Config, sv: Server, evs: seq<(Slot, Event)>): (sv': Server)
    requires Shaped(sv)
    ensures Shaped(sv')
  {
    if evs == [] then sv
    else
      var n := |evs| - 1;
      At(c, Run(c, sv, evs[..n]), evs[n].0, evs[n].1)
  }

  lemma RunNothing(c: Config, sv: Server)
    requires Shaped(sv)
    ensures Run(c, sv, []) == sv
  {
  }

  // ------------------------------------------------------------------- the invariant

  function Actives(ss: seq<Session>): nat {
    if ss == [] then 0 else Actives(ss[..|ss| - 1]) + (if ss[|ss| - 1].active then 1 else 0)
  }

  /** Every slot conducts itself well, no descriptor is held twice, and the count is right. */
  ghost predicate SvGood(c: Config, sv: Server) {
    && Shaped(sv)
    && (forall i: Slot :: Good(c, View(sv, i)))
    && (forall i: Slot, j: Slot | i != j :: Held(sv.sessions[i]) !! Held(sv.sessions[j]))
    && sv.count == Actives(sv.sessions)
    && H.InRange(sv.w.port)
  }

  lemma GoodShaped(c: Config, sv: Server)
    requires SvGood(c, sv)
    ensures Shaped(sv)
  {
  }

  lemma {:induction false} ActivesUpdate(ss: seq<Session>, i: nat, s: Session)
    requires i < |ss|
    ensures Actives(ss[i := s]) ==
            Actives(ss) - (if ss[i].active then 1 else 0) + (if s.active then 1 else 0)
  {
    var n := |ss| - 1;
    if i == n {
      assert ss[i := s][..n] == ss[..n];
    } else {
      assert ss[i := s][..n] == ss[..n][i := s];
      ActivesUpdate(ss[..n], i, s);
    }
  }

  lemma {:induction false} ActivesBound(ss: seq<Session>)
    ensures Actives(ss) <= |ss|
  {
    if ss != [] { ActivesBound(ss[..|ss| - 1]); }
  }

  /** The count follows the table through every event. */
  lemma CountedRight(c: Config, sv: Server, i: Slot, ev: Event)
    requires Shaped(sv) && Good(c, View(sv, i)) && sv.count == Actives(sv.sessions)
    ensures At(c, sv, i, ev).count == Actives(At(c, sv, i, ev).sessions)
  {
    StepFrame(c, View(sv, i), ev);
    ActivesUpdate(sv.sessions, i, Step(c, View(sv, i), ev).s);
    hide Progress, LineStep, Good, Actives;
  }

  /** Another slot is none the worse for an event on slot `i`. */
  lemma OtherGood(c: Config, st: St, r: St, other: St)
    requires FdFrame(st, r) && Good(c, other) && other.w == st.w
    requires Held(st.s) !! Held(other.s)
    ensures Good(c, other.(w := r.w))
    ensures Held(r.s) !! Held(other.s)
  {
  }

  /** After an event on slot `i`, every slot is in order, and no other holds a descriptor of slot `i`. */
  lemma AtSlotsGood(c: Config, sv: Server, i: Slot, ev: Event)
    requires SvGood(c, sv)
    ensures var sv' := At(c, sv, i, ev);
            && View(sv', i) == Step(c, View(sv, i), ev)
            && forall j: Slot :: Good(c, View(sv', j)) && (j != i ==> Held(sv'.sessions[i]) !! Held(sv.sessions[j]))
  {
    hide Step, Good, Held, Actives, FdFrame;
    var st := View(sv, i);
    var r := Step(c, st, ev);
    var sv' := At(c, sv, i, ev);
    StepGood(c, st, ev);
    StepFrame(c, st, ev);
    assert View(sv', i) == r;
    forall j: Slot
      ensures Good(c, View(sv', j)) && (j != i ==> Held(r.s) !! Held(sv.sessions[j]))
    {
      if j != i {
        OtherGood(c, st, r, View(sv, j));
        assert View(sv', j) == View(sv, j).(w := r.w);
      }
    }
  }

  /** Every event on any slot keeps the whole server in order. */
  lemma AtGood(c: Config, sv: Server, i: Slot, ev: Event)
    requires SvGood(c, sv)
    ensures SvGood(c, At(c, sv, i, ev))
  {
    hide Step, Good, Held, Actives, FdFrame;
    AtSlotsGood(c, sv, i, ev);
    CountedRight(c, sv, i, ev);
    StepFrame(c, View(sv, i), ev);
    PortKept(View(sv, i), Step(c, View(sv, i), ev));
  }

  lemma PortKept(st: St, r: St)
    requires FdFrame(st, r) && H.InRange(st.w.port)
    ensures H.InRange(r.w.port)
  {
  }

  lemma {:induction false} RunGood(c: Config, sv: Server, evs: seq<(Slot, Event)>)
    requires SvGood(c, sv)
    ensures SvGood(c, Run(c, sv, evs))
  {
    hide SvGood, At;
    GoodShaped(c, sv);
    if evs != [] {
      var n := |evs| - 1;
      RunGood(c, sv, evs[..n]);
      AtGood(c, Run(c, sv, evs[..n]), evs[n].0, evs[n].1);
    }
  }

  lemma BootGood(c: Config, files: Files, sock: int)
    ensures SvGood(c, Boot(files, sock))
  {
    var sv := Boot(files, sock);
    assert forall i: Slot :: View(sv, i) == St(BLANK, sv.w, []);
    BlankActives(sv.sessions);
  }

  lemma {:induction false} BlankActives(ss: seq<Session>)
    requires forall s | s in ss :: !s.active
    ensures Actives(ss) == 0
  {
    if ss != [] { BlankActives(ss[..|ss| - 1]); }
  }

  // ------------------------------------------------------ what holds over whole runs

  /**
    Safety of every reachable state, slot by slot, in terms of the slot's own log.  No
    handle was ever opened twice, closed twice or left behind by a closed session.  The
    open listeners are the one of passive mode.  Every line got its answer and a 150 is
    owed a completion exactly while a transfer runs.  Nothing was opened before a login,
    and a session that counts as logged in has given the name and the password.
  */
  lemma ReachableConduct(c: Config, files: Files, sock: int, evs: seq<(Slot, Event)>, i: Slot)
    ensures var sv := Run(c, Boot(files, sock), evs);
            var s, m := sv.sessions[i], Observe(c, sv.logs[i]);
            && m.file == SwitchOf(s.transfer.file.isValid)
            && m.dir == SwitchOf(s.transfer.dir.isValid)
            && m.listeners == (if s.conn.Passive? then {s.pasvSock} else {})
            && m.dialog == Quiet(s.Busy())
            && !m.login.breached
            && (s.auth == Valid ==> m.login.entered)
  {
    BootGood(c, files, sock);
    RunGood(c, Boot(files, sock), evs);
    var sv := Run(c, Boot(files, sock), evs);
    hide Run, Boot, Observe;
    assert Good(c, View(sv, i));
  }

  /** The working directory of an active session is absolute, canonical and fits its buffer. */
  lemma ReachableDirectory(c: Config, files: Files, sock: int, evs: seq<(Slot, Event)>, i: Slot)
    ensures var s := Run(c, Boot(files, sock), evs).sessions[i];
            if s.active then P.CanonicalAbsolute(s.pwd) && |s.pwd| < P.PATHNAME_SIZE else s == BLANK
  {
    BootGood(c, files, sock);
    RunGood(c, Boot(files, sock), evs);
    hide Run, Boot, Observe;
    assert Good(c, View(Run(c, Boot(files, sock), evs), i));
  }

  /** The table: the count is the number of active slots, and no descriptor has two owners. */
  lemma ReachableTable(c: Config, files: Files, sock: int, evs: seq<(Slot, Event)>)
    ensures var sv := Run(c, Boot(files, sock), evs);
            && 0 <= sv.count == Actives(sv.sessions) <= 128 == |sv.sessions|
            && H.InRange(sv.w.port)
            && forall i: Slot, j: Slot | i != j ::
                 Held(sv.sessions[i]) <= sv.w.fds && Held(sv.sessions[i]) !! Held(sv.sessions[j])
  {
    BootGood(c, files, sock);
    RunGood(c, Boot(files, sock), evs);
    var sv := Run(c, Boot(files, sock), evs);
    ActivesBound(sv.sessions);
    hide Run, Boot, Good, Held, Actives;
    forall i: Slot ensures Held(sv.sessions[i]) <= sv.w.fds {
      HeldOpen(c, View(sv, i));
    }
  }

  /**
    No event on slot `i` changes a field or the log of slot `j`, or closes one of its sockets.
  */
  lemma Isolation(c: Config, sv: Server, i: Slot, ev: Event, j: Slot)
    requires SvGood(c, sv) && i != j
    ensures var sv' := At(c, sv, i, ev);
            && sv'.sessions[j] == sv.sessions[j] && sv'.logs[j] == sv.logs[j]
            && Held(sv.sessions[j]) <= sv'.w.fds
            && Held(sv'.sessions[i]) !! Held(sv.sessions[j])
  {
    AtGood(c, sv, i, ev);
    hide Step, Held, Good;
    HeldOpen(c, View(At(c, sv, i, ev), j));
  }

  lemma HeldOpen(c: Config, st: St)
    requires Good(c, st)
    ensures Held(st.s) <= st.w.fds
  {
  }

  // ---------------------------------------------------------------- shutting down

  /** The first part of ftpsrv_exit: every slot below `i` hangs up. */
  function ExitEvents(ios: Slot -> Io, i: nat): seq<(Slot, Event)>
    requires i <= MAX_SESSIONS
    decreases i
  {
    if i == 0 then [] else ExitEvents(ios, i - 1) + [(i - 1, Disconnect(ios(i - 1)))]
  }

  /** ftpsrv_exit of a server that listens on `sock`: all sessions are closed, then the server's own socket. */
  function Exit(c: Config, sv: Server, sock: int, ios: Slot -> Io): (sv': Server)
    requires Shaped(sv)
    ensures Shaped(sv')
  {
    var e := Run(c, sv, ExitEvents(ios, MAX_SESSIONS));
    e.(w := e.w.(fds := e.w.fds - Own(sock)))
  }

  lemma {:induction false} ExitCloses(c: Config, sv: Server, ios: Slot -> Io, n: nat)
    requires SvGood(c, sv) && n <= MAX_SESSIONS
    ensures var sv' := Run(c, sv, ExitEvents(ios, n));
            SvGood(c, sv') && forall i: Slot | i < n :: !sv'.sessions[i].active
  {
    RunGood(c, sv, ExitEvents(ios, n));
    hide SvGood;
    if n > 0 {
      ExitCloses(c, sv, ios, n - 1);
      var evs := ExitEvents(ios, n);
      assert evs[..|evs| - 1] == ExitEvents(ios, n - 1);
      DisconnectIdle(c, Run(c, sv, ExitEvents(ios, n - 1)), n - 1, ios(n - 1));
    }
  }

  lemma DisconnectIdle(c: Config, sv: Server, i: Slot, io: Io)
    requires Shaped(sv)
    ensures !At(c, sv, i, Disconnect(io)).sessions[i].active
  {
  }

  /** Once all have hung up, every slot is blank. */
  lemma ExitBlanks(c: Config, sv: Server, ios: Slot -> Io)
    requires SvGood(c, sv)
    ensures var e := Run(c, sv, ExitEvents(ios, MAX_SESSIONS));
            SvGood(c, e) && forall i: Slot :: e.sessions[i] == BLANK
  {
    hide SvGood, Run, ExitEvents;
    GoodShaped(c, sv);
    var e := Run(c, sv, ExitEvents(ios, MAX_SESSIONS));
    ExitCloses(c, sv, ios, MAX_SESSIONS);
    forall i: Slot ensures e.sessions[i] == BLANK {
      InactiveBlank(c, e, i);
    }
  }

  lemma InactiveBlank(c: Config, sv: Server, i: Slot)
    requires SvGood(c, sv) && !sv.sessions[i].active
    ensures sv.sessions[i] == BLANK
  {
    assert Good(c, View(sv, i));
    hide Tracks;
  }

  /** What the log of a blank slot says, and the count when all are. */
  lemma BlankShut(c: Config, sv: Server, i: Slot)
    requires SvGood(c, sv) && sv.sessions[i] == BLANK
    ensures var m := Observe(c, sv.logs[i]); m.file == Shut && m.dir == Shut && m.listeners == {}
  {
    hide Observe;
    assert Good(c, View(sv, i));
  }

  /** After the exit no session is left, nothing they held is open in their logs, and the count is 0. */
  lemma ExitLeavesNothing(c: Config, sv: Server, sock: int, ios: Slot -> Io, i: Slot)
    requires SvGood(c, sv)
    ensures var sv' := Exit(c, sv, sock, ios);
            var m := Observe(c, sv'.logs[i]);
            && sv'.count == 0 && sv'.sessions[i] == BLANK
            && m.file == Shut && m.dir == Shut && m.listeners == {}
  {
    hide SvGood, Run, ExitEvents, Observe;
    GoodShaped(c, sv);
    var e := Run(c, sv, ExitEvents(ios, MAX_SESSIONS));
    ExitBlanks(c, sv, ios);
    BlankShut(c, e, i);
    NoneCounted(c, e);
  }

  lemma NoneCounted(c: Config, sv: Server)
    requires SvGood(c, sv) && forall i: Slot :: sv.sessions[i] == BLANK
    ensures sv.count == 0
  {
    hide Good, Held;
    forall s | s in sv.sessions ensures !s.active {
      var k :| 0 <= k < |sv.sessions| && sv.sessions[k] == s;
      var slot: Slot := k;
      assert sv.sessions[slot] == BLANK;
    }
    BlankActives(sv.sessions);
  }
}
