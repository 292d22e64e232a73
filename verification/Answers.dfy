/**
  What each control line is answered with and what it does, by the literal names of RFC 959:
  the refusals at the gates, and the commands that start no transfer
  (src/ftpsrv.c, lines 634 to 1096 and 1200 to 1375).
*/
module Answers {
  import opened CText
  import opened Session
  import opened Conduct
  import opened CommandLines
  import opened Dialogues
  import P = Pathname
  import H = HostPort

  /** A line has been read and answered with one reply; `s` is the session now, and the world is as it was. */
  function Told(st: St, line: string, s: Session, code: nat): St {
    St(s, st.w, st.log + [Line(line), Reply(code, "")])
  }

  lemma SayTold(st: St, line: string, s: Session, code: nat)
    ensures Say(Emit(st, Line(line)).(s := s), code) == Told(st, line, s, code)
  {
    assert st.log + [Line(line)] + [Reply(code, "")] == st.log + [Line(line), Reply(code, "")];
  }

  // --------------------------------------------------------------------- the gates

  /** The commands that need no login, those that take no argument, and those that may do without one. */
  const OPEN: set<Verb> := {USER, PASS, ACCT, REIN, QUIT, ABOR, SYST, HELP, NOOP, FEAT}
  const BARE: set<Verb> := {CDUP, REIN, QUIT, PASV, ABOR, PWD, SYST, NOOP, FEAT}
  const LOOSE: set<Verb> := {LIST, NLST, STAT, HELP}

  lemma GateRules(v: Verb)
    ensures NeedsAuth(v) <==> v !in OPEN
    ensures Args(v).NoArg? <==> v in BARE
    ensures Args(v).OptionalArg? <==> v in LOOSE
  {
  }

  /** The command may be given now. */
  predicate Admitted(s: Session, v: Verb) {
    s.active && (v in OPEN || s.auth == Valid) && (s.Busy() ==> v == ABOR)
  }

  /** It has an argument, or none, as it should. */
  predicate Formed(v: Verb, arg: H.Option<string>) {
    if arg.Some? then v !in BARE else v in BARE || v in LOOSE
  }

  /**
    The refusals, in their order: 530 for a command that needs a login before there is one;
    501 for any but ABOR while a transfer runs; 501 for an argument too many or missing.  A
    refusal changes nothing.
  */
  lemma Refusals(c: Config, st: St, v: Verb, word: string, arg: H.Option<string>, rest: string, io: Io)
    requires st.s.active && SameWord(word, Name(v)) && Speakable(arg)
    requires !Admitted(st.s, v) || !Formed(v, arg)
    ensures Step(c, st, Command(Typed(word, arg) + rest, io)) ==
            Told(st, Typed(word, arg), st.s, if v !in OPEN && st.s.auth != Valid then 530 else 501)
  {
    hide Typed, Step, Execute, Name, NeedsAuth, Args, Speakable;
    GateRules(v);
    TypedThen(c, st, word, v, arg, rest, io);
    SayTold(st, Typed(word, arg), st.s, 530);
    SayTold(st, Typed(word, arg), st.s, 501);
  }

  /** Past the gates the handler has its way. */
  lemma Handled(c: Config, st: St, v: Verb, word: string, arg: H.Option<string>, rest: string, io: Io)
    requires SameWord(word, Name(v)) && Speakable(arg) && Admitted(st.s, v) && Formed(v, arg)
    ensures Step(c, st, Command(Typed(word, arg) + rest, io)) ==
            Execute(c, Emit(st, Line(Typed(word, arg))), v, Heard(arg, rest), io)
  {
    hide Typed, Step, Execute, Name, NeedsAuth, Args, Speakable;
    GateRules(v);
    TypedThen(c, st, word, v, arg, rest, io);
  }

  /** No command's name stands at the beginning of the text. */
  ghost predicate NamesNothing(text: string) {
    forall v: Verb, n: nat | n <= |text| :: !SameWord(text[..n], Name(v))
  }

  /** A line that begins with the name of no command is answered with a 500. */
  lemma Unknown(c: Config, st: St, text: string, io: Io)
    requires st.s.active && FindCrlf(text) < |text|
    requires NamesNothing(text)
    ensures Step(c, st, Command(text, io)) == Told(st, text[..FindCrlf(text) + 2], st.s, 500)
  {
    hide Name, FindCrlf, Step, VerbOf, Dispatch, NamesNothing;
    var line := text[..FindCrlf(text) + 2];
    NoneSpelt(text);
    FirstLineStep(c, st, text, FindCrlf(text) + 2, io);
    UnknownLine(c, Emit(st, Line(line)), text, FindCrlf(text) + 2, io);
    SayTold(st, line, st.s, 500);
  }

  lemma NoneSpelt(text: string)
    requires NamesNothing(text)
    ensures VerbOf(text).None?
  {
    hide Name, VerbOf, SameWord;
    if VerbOf(text).Some? { VerbSpelt(text, VerbOf(text).value); }
  }

  lemma VerbSpelt(text: string, v: Verb)
    requires VerbOf(text) == H.Some(v)
    ensures |Name(v)| <= |text| && SameWord(text[..|Name(v)|], Name(v))
  {
    hide Lookup, Name;
    var name := ScanLine(text, 4);
    VerbDecided(name, v);
    NameLetters(v);
    forall k | 0 <= k < |Name(v)| ensures text[k] == Name(v)[k] || text[k] as int == Name(v)[k] as int + 32 {
      assert ToLower(name[k]) == ToLower(Name(v)[k]);
      assert Name(v)[k] in Name(v);
    }
  }

  // --------------------------------------------------------------- plain answers

  /** The commands that only answer, by name, and their answers. */
  function PlainReply(v: Verb): H.Option<(string, nat)> {
    match v
    case QUIT => H.Some(("QUIT", 221))
    case SYST => H.Some(("SYST", 215))
    case HELP => H.Some(("HELP", 214))
    case FEAT => H.Some(("FEAT", 211))
    case NOOP => H.Some(("NOOP", 200))
    case ALLO => H.Some(("ALLO", 200))
    case ACCT => H.Some(("ACCT", 500))
    case SMNT => H.Some(("SMNT", 500))
    case REIN => H.Some(("REIN", 500))
    case SITE => H.Some(("SITE", 500))
    case STAT => H.Some(("STAT", 500))
    case _ => H.None
  }

  lemma PlainAnswers(c: Config, st: St, v: Verb, word: string, arg: H.Option<string>, rest: string, io: Io)
    requires PlainReply(v).Some? && SameWord(word, PlainReply(v).value.0)
    requires Speakable(arg) && Admitted(st.s, v) && Formed(v, arg)
    ensures Step(c, st, Command(Typed(word, arg) + rest, io)) ==
            Told(st, Typed(word, arg), st.s, PlainReply(v).value.1)
  {
    hide Typed, Step, Speakable, Execute, PlainReply, Name;
    PlainExecutes(c, Emit(st, Line(Typed(word, arg))), v, Heard(arg, rest), io);
    Handled(c, st, v, word, arg, rest, io);
    SayTold(st, Typed(word, arg), st.s, PlainReply(v).value.1);
  }

  lemma PlainExecutes(c: Config, st: St, v: Verb, data: string, io: Io)
    requires PlainReply(v).Some?
    ensures Name(v) == PlainReply(v).value.0 && Execute(c, st, v, data, io) == Say(st, PlainReply(v).value.1)
  {
  }

  /** TYPE, STRU and MODE go by the first character behind their space: A or I, F, and S are known. */
  lemma CodeAnswers(c: Config, st: St, v: Verb, word: string, a: string, rest: string, io: Io)
    requires Speakable(H.Some(a)) && Admitted(st.s, v)
    requires || (v == TYPE && SameWord(word, "TYPE")) || (v == STRU && SameWord(word, "STRU"))
             || (v == MODE && SameWord(word, "MODE"))
    ensures var line := Typed(word, H.Some(a));
            var known := a != "" && match v
                                    case TYPE => a[0] == 'A' || a[0] == 'I'
                                    case STRU => a[0] == 'F'
                                    case _ => a[0] == 'S';
            Step(c, st, Command(line + rest, io)) == Told(st, line, st.s, if known then 200 else 504)
  {
    hide Typed, Step, Speakable;
    var line := Typed(word, H.Some(a));
    Handled(c, st, v, word, H.Some(a), rest, io);
    assert (a + CRLF + rest)[0] == (if a == "" then '\r' else a[0]);
    SayTold(st, line, st.s, 200);
    SayTold(st, line, st.s, 504);
  }

  // -------------------------------------------------------------------------- login

  /** As much of an argument as its buffer holds. */
  function Cut(a: string, limit: nat): string {
    if |a| <= limit then a else a[..limit]
  }

  /** USER: the one right name, of at most 127 characters, gets in or is asked for its password. */
  lemma UserAnswers(c: Config, st: St, word: string, a: string, rest: string, io: Io)
    requires SameWord(word, "USER") && Speakable(H.Some(a)) && st.s.active && !st.s.Busy()
    ensures var line := Typed(word, H.Some(a));
            var name := Cut(a, 127);
            Step(c, st, Command(line + rest, io)) ==
            if a == "" then Told(st, line, st.s, 501)
            else if name != (if c.anon then "anonymous" else c.user) then Told(st, line, st.s, 530)
            else if c.anon then Told(st, line, st.s.(auth := Valid), 230)
            else Told(st, line, st.s.(auth := NeedPass), 331)
  {
    hide Typed, Step, Speakable, ScanLine;
    var line := Typed(word, H.Some(a));
    Handled(c, st, USER, word, H.Some(a), rest, io);
    ScanCut(a, rest, 127);
    SayTold(st, line, st.s, 501);
    SayTold(st, line, st.s, 530);
    SayTold(st, line, st.s.(auth := Valid), 230);
    SayTold(st, line, st.s.(auth := NeedPass), 331);
  }

  /** PASS: out of sequence without the name before it; then the one right password gets in. */
  lemma PassAnswers(c: Config, st: St, word: string, a: string, rest: string, io: Io)
    requires SameWord(word, "PASS") && Speakable(H.Some(a)) && st.s.active && !st.s.Busy()
    ensures var line := Typed(word, H.Some(a));
            Step(c, st, Command(line + rest, io)) ==
            if a == "" then Told(st, line, st.s, 501)
            else if st.s.auth != NeedPass then Told(st, line, st.s, 503)
            else if Cut(a, 127) != c.pass then Told(st, line, st.s, 530)
            else Told(st, line, st.s.(auth := Valid), 230)
  {
    hide Typed, Step, Speakable, ScanLine;
    var line := Typed(word, H.Some(a));
    Handled(c, st, PASS, word, H.Some(a), rest, io);
    ScanCut(a, rest, 127);
    SayTold(st, line, st.s, 501);
    SayTold(st, line, st.s, 503);
    SayTold(st, line, st.s, 530);
    SayTold(st, line, st.s.(auth := Valid), 230);
  }

  // ------------------------------------------------------------------- moving about

  /** Where a name leads from the working directory, by its components; a name fills 4095 characters at most. */
  function There(s: Session, a: string): string {
    if a == "" then s.pwd else P.Render(true, P.Target(P.Comps(s.pwd), Cut(a, 4095)))
  }

  /** A name is resolved to that place, and refused if and only if its spelling has no room. */
  lemma Resolved(s: Session, a: string)
    requires PwdSound(s) && a != ""
    ensures Resolve(s, Cut(a, 4095)) ==
            if |There(s, a)| < 4096 then P.Built(true, There(s, a)) else P.Built(false, There(s, a)[..4095])
  {
    hide P.BuildFullpath, P.Render, P.Target, P.Comps, P.CanonicalAbsolute;
    PwdNonEmpty(s);
    P.BuildFullpathMeaning(s.pwd, Cut(a, 4095));
  }

  lemma PwdNonEmpty(s: Session)
    requires PwdSound(s)
    ensures s.pwd != ""
  {
  }

  lemma ReadyPlace(c: Config, st: St)
    requires Ready(c, st)
    ensures PwdSound(st.s)
  {
  }

  /** CWD: the new directory is where the name leads, if that fits and is the root or a directory. */
  lemma CwdAnswers(c: Config, st: St, word: string, a: string, rest: string, io: Io)
    requires Ready(c, st) && SameWord(word, "CWD") && Speakable(H.Some(a))
    ensures var line := Typed(word, H.Some(a));
            var there := There(st.s, a);
            Step(c, st, Command(line + rest, io)) ==
            if a == "" then Told(st, line, st.s, 501)
            else if |there| < 4096 && (there == "/" || io.entry.IsDir?) then Told(st, line, st.s.(pwd := there), 200)
            else Told(st, line, st.s, 550)
  {
    hide Typed, Step, Speakable, ScanLine, Resolve, There, Good;
    var line := Typed(word, H.Some(a));
    Handled(c, st, CWD, word, H.Some(a), rest, io);
    ScanCut(a, rest, 4095);
    ReadyPlace(c, st);
    if a != "" { Resolved(st.s, a); }
    SayTold(st, line, st.s, 501);
    SayTold(st, line, st.s, 550);
    SayTold(st, line, st.s.(pwd := There(st.s, a)), 200);
  }

  /** CDUP: refused in the root, and otherwise one component up, if that is the root or a directory. */
  lemma CdupAnswers(c: Config, st: St, word: string, rest: string, io: Io)
    requires Ready(c, st) && SameWord(word, "CDUP")
    ensures var line := Typed(word, H.None);
            var cs := P.Comps(st.s.pwd);
            && (st.s.pwd == "/" <==> cs == [])
            && Step(c, st, Command(line + rest, io)) ==
               if cs == [] then Told(st, line, st.s, 550)
               else if |cs| == 1 || io.entry.IsDir? then
                 Told(st, line, st.s.(pwd := P.Render(true, cs[..|cs| - 1])), 200)
               else Told(st, line, st.s, 550)
  {
    hide Typed, Step, ScanLine, Resolve, P.Comps, Good, P.CanonicalAbsolute;
    var line := Typed(word, H.None);
    var cs := P.Comps(st.s.pwd);
    Handled(c, st, CDUP, word, H.None, rest, io);
    ReadyPlace(c, st);
    ParentResolved(st.s);
    SayTold(st, line, st.s, 550);
    if cs != [] { SayTold(st, line, st.s.(pwd := P.Render(true, cs[..|cs| - 1])), 200); }
  }

  lemma ParentResolved(s: Session)
    requires PwdSound(s)
    ensures var cs := P.Comps(s.pwd);
            && (s.pwd == "/" <==> cs == [])
            && (cs != [] ==> Resolve(s, "..") == P.Built(true, P.Render(true, cs[..|cs| - 1])))
            && (cs != [] ==> (P.Render(true, cs[..|cs| - 1]) == "/" <==> |cs| == 1))
  {
    hide P.Comps, P.BuildFullpath;
    var cs := P.Comps(s.pwd);
    P.CanonicalIsRender(s.pwd);
    P.CompsWellFormed(s.pwd);
    P.CompsRoot();
    P.CompsSingle("..");
    P.JoinNothing();
    P.BuildFullpathMeaning(s.pwd, "..");
    if cs != [] {
      P.ParentRender(cs);
      P.CompsRender(true, cs[..|cs| - 1]);
    }
  }

  /** PWD: as much of the directory as the reply has room for. */
  lemma PwdAnswers(c: Config, st: St, word: string, rest: string, io: Io)
    requires Admitted(st.s, PWD) && SameWord(word, "PWD")
    ensures var line := Typed(word, H.None);
            Step(c, st, Command(line + rest, io)) ==
            St(st.s, st.w, st.log + [Line(line), Reply(257, Cut(st.s.pwd, 4088))])
  {
    hide Typed, Step;
    var line := Typed(word, H.None);
    Handled(c, st, PWD, word, H.None, rest, io);
    assert Shown(st.s.pwd) == Cut(st.s.pwd, 4088);
    assert st.log + [Line(line)] + [Reply(257, Shown(st.s.pwd))] == st.log + [Line(line), Reply(257, Shown(st.s.pwd))];
  }

  // -------------------------------------------------------------- the file tree

  /** The path the back end gets: with devices, the slash in front of a device goes. */
  function ToBackEnd(c: Config, path: string): string
    requires path != ""
  {
    if c.devices != [] && ':' in path then path[1..] else path
  }

  lemma FixedThere(c: Config, s: Session, a: string)
    requires PwdSound(s) && a != ""
    ensures There(s, a) != "" && There(s, a)[0] == '/'
    ensures FixedPath(c, There(s, a)) == ToBackEnd(c, There(s, a))
  {
    hide P.Target, P.Comps, P.Join;
  }

  /** What DELE, RMD and MKD are called, ask of the file system, and answer. */
  function TreeRule(v: Verb): H.Option<(string, TreeOp)> {
    match v
    case DELE => H.Some(("DELE", Unlink))
    case RMD => H.Some(("RMD", Rmdir))
    case MKD => H.Some(("MKD", Mkdir))
    case _ => H.None
  }

  /**
    DELE, RMD and MKD with any argument: the file system is asked for exactly this change, at
    the place where the name leads, and what it says decides the answer.
  */
  lemma TreeAnswers(c: Config, st: St, v: Verb, word: string, a: string, rest: string, io: Io)
    requires Ready(c, st) && TreeRule(v).Some? && SameWord(word, TreeRule(v).value.0) && Speakable(H.Some(a))
    ensures var line := Typed(word, H.Some(a));
            var there := There(st.s, a);
            Step(c, st, Command(line + rest, io)) ==
            if a == "" then Told(st, line, st.s, 501)
            else if |there| >= 4096 || !io.vfsOk then Told(st, line, st.s, 550)
            else
              St(st.s, st.w.(files := io.tree),
                 st.log + [Line(line), TreeChanged(TreeRule(v).value.1, ToBackEnd(c, there), ""),
                           if v == MKD then Reply(257, Cut(there, 4088)) else Reply(250, "")])
  {
    hide Typed, Step, Speakable, ScanLine, Resolve, There, Good, Execute, CmdTree, TreeRule, ToBackEnd;
    var line := Typed(word, H.Some(a));
    TreeExecutes(c, Emit(st, Line(line)), v, a + CRLF + rest, io);
    Handled(c, st, v, word, H.Some(a), rest, io);
    ScanCut(a, rest, 4095);
    ReadyPlace(c, st);
    if a != "" {
      Resolved(st.s, a);
      FixedThere(c, st.s, a);
    }
    TreeDone(c, st, line, a, rest, io, TreeRule(v).value.1);
  }

  lemma TreeExecutes(c: Config, st: St, v: Verb, data: string, io: Io)
    requires TreeRule(v).Some?
    ensures Name(v) == TreeRule(v).value.0 && NeedsAuth(v)
    ensures Execute(c, st, v, data, io) == CmdTree(c, st, data, io, TreeRule(v).value.1)
    ensures TreeRule(v).value.1 == Mkdir <==> v == MKD
    ensures Formed(v, H.Some(""))
  {
    hide CmdTree;
  }

  lemma TreeDone(c: Config, st: St, line: string, a: string, rest: string, io: Io, op: TreeOp)
    requires ScanLine(a + CRLF + rest, 4095) == Cut(a, 4095)
    requires a != "" ==> Resolve(st.s, Cut(a, 4095)) ==
                         if |There(st.s, a)| < 4096 then P.Built(true, There(st.s, a))
                         else P.Built(false, There(st.s, a)[..4095])
    requires a != "" ==> There(st.s, a) != "" && FixedPath(c, There(st.s, a)) == ToBackEnd(c, There(st.s, a))
    ensures var there := There(st.s, a);
            CmdTree(c, Emit(st, Line(line)), a + CRLF + rest, io, op) ==
            if a == "" then Told(st, line, st.s, 501)
            else if |there| >= 4096 || !io.vfsOk then Told(st, line, st.s, 550)
            else
              St(st.s, st.w.(files := io.tree),
                 st.log + [Line(line), TreeChanged(op, ToBackEnd(c, there), ""),
                           if op == Mkdir then Reply(257, Cut(there, 4088)) else Reply(250, "")])
  {
    hide ScanLine, Resolve, There, FixedPath, ToBackEnd;
    SayTold(st, line, st.s, 501);
    SayTold(st, line, st.s, 550);
    var l := Emit(st, Line(line));
    assert Resolve(l.s, Cut(a, 4095)) == Resolve(st.s, Cut(a, 4095));
    if a != "" && |There(st.s, a)| < 4096 && io.vfsOk {
      var x := TreeChanged(op, ToBackEnd(c, There(st.s, a)), "");
      var y := if op == Mkdir then Reply(257, Cut(There(st.s, a), 4088)) else Reply(250, "");
      assert st.log + [Line(line)] + [x] + [y] == st.log + [Line(line), x, y];
    }
  }

  lemma PathExecutes(c: Config, st: St, data: string, io: Io)
    ensures Execute(c, st, SIZE, data, io) == CmdSize(st, data, io)
    ensures Execute(c, st, RNFR, data, io) == CmdRnfr(st, data)
    ensures Execute(c, st, RNTO, data, io) == CmdRnto(st, data, io)
  {
    hide CmdSize, CmdRnfr, CmdRnto;
  }

  /** SIZE asks whether something is there. */
  lemma SizeAnswers(c: Config, st: St, word: string, a: string, rest: string, io: Io)
    requires Ready(c, st) && SameWord(word, "SIZE") && Speakable(H.Some(a))
    ensures var line := Typed(word, H.Some(a));
            Step(c, st, Command(line + rest, io)) ==
            Told(st, line, st.s,
                 if a == "" || |There(st.s, a)| >= 4096 then 501 else if io.entry.Missing? then 550 else 213)
  {
    hide Typed, Step, Speakable, ScanLine, Resolve, There, Good, Execute;
    var line := Typed(word, H.Some(a));
    PathExecutes(c, Emit(st, Line(line)), a + CRLF + rest, io);
    Handled(c, st, SIZE, word, H.Some(a), rest, io);
    ScanCut(a, rest, 4095);
    ReadyPlace(c, st);
    if a != "" { Resolved(st.s, a); }
    SayTold(st, line, st.s, 501);
    SayTold(st, line, st.s, 550);
    SayTold(st, line, st.s, 213);
  }

  /** RNFR remembers where its name leads, cut off if that has no room. */
  lemma RnfrAnswers(c: Config, st: St, word: string, a: string, rest: string, io: Io)
    requires Ready(c, st) && SameWord(word, "RNFR") && Speakable(H.Some(a))
    ensures var line := Typed(word, H.Some(a));
            var there := There(st.s, a);
            Step(c, st, Command(line + rest, io)) ==
            if a == "" then Told(st, line, st.s, 501)
            else Told(st, line, st.s.(tempPath := Cut(there, 4095)), if |there| < 4096 then 350 else 550)
  {
    hide Typed, Step, Speakable, ScanLine, Resolve, There, Good, Execute;
    var line := Typed(word, H.Some(a));
    PathExecutes(c, Emit(st, Line(line)), a + CRLF + rest, io);
    Handled(c, st, RNFR, word, H.Some(a), rest, io);
    ScanCut(a, rest, 4095);
    ReadyPlace(c, st);
    if a != "" { Resolved(st.s, a); }
    SayTold(st, line, st.s, 501);
    SayTold(st, line, st.s.(tempPath := Cut(There(st.s, a), 4095)), 350);
    SayTold(st, line, st.s.(tempPath := Cut(There(st.s, a), 4095)), 550);
  }

  /** RNTO renames the remembered path to where its name leads, and forgets it in any case. */
  lemma RntoAnswers(c: Config, st: St, word: string, a: string, rest: string, io: Io)
    requires Ready(c, st) && SameWord(word, "RNTO") && Speakable(H.Some(a))
    ensures var line := Typed(word, H.Some(a));
            var there := There(st.s, a);
            var s := st.s.(tempPath := "");
            Step(c, st, Command(line + rest, io)) ==
            if a == "" then Told(st, line, s, 501)
            else if st.s.tempPath == "" then Told(st, line, s, 503)
            else if |there| >= 4096 || !io.vfsOk then Told(st, line, s, 553)
            else
              St(s, st.w.(files := io.tree),
                 st.log + [Line(line), TreeChanged(Rename, st.s.tempPath, there), Reply(250, "")])
  {
    hide Typed, Step, Speakable, ScanLine, Resolve, There, Good, Execute;
    var line := Typed(word, H.Some(a));
    var s := st.s.(tempPath := "");
    PathExecutes(c, Emit(st, Line(line)), a + CRLF + rest, io);
    Handled(c, st, RNTO, word, H.Some(a), rest, io);
    ScanCut(a, rest, 4095);
    ReadyPlace(c, st);
    if a != "" { Resolved(st.s, a); }
    SayTold(st, line, s, 501);
    SayTold(st, line, s, 503);
    SayTold(st, line, s, 553);
    var x := TreeChanged(Rename, st.s.tempPath, There(st.s, a));
    assert st.log + [Line(line)] + [x] + [Reply(250, "")] == st.log + [Line(line), x, Reply(250, "")];
  }

  // ----------------------------------------------------------------------- restarting

  /** REST takes every number an int can hold, and the next RETR starts there. */
  lemma RestAnswers(c: Config, st: St, word: string, n: nat, rest: string, io: Io)
    requires Admitted(st.s, REST) && SameWord(word, "REST") && n <= 0x7FFF_FFFF
    ensures var line := Typed(word, H.Some(H.Print(n)));
            Step(c, st, Command(line + rest, io)) == Told(st, line, st.s.(marker := n), 350)
  {
    hide Typed, Step, H.ScanInt, H.Print;
    var line := Typed(word, H.Some(H.Print(n)));
    PrintSpeakable(n);
    Handled(c, st, REST, word, H.Some(H.Print(n)), rest, io);
    H.ScanPrintedInt(n, CRLF + rest);
    assert H.Print(n) + CRLF + rest == H.Print(n) + (CRLF + rest);
    SayTold(st, line, st.s.(marker := n), 350);
  }

  lemma PrintSpeakable(n: nat)
    ensures Speakable(H.Some(H.Print(n)))
  {
    H.PrintValue(n);
  }

  /** A number below zero, or none, is refused. */
  lemma RestRefuses(c: Config, st: St, word: string, a: string, rest: string, io: Io)
    requires Admitted(st.s, REST) && SameWord(word, "REST") && Speakable(H.Some(a)) && a != ""
    requires || (exists n: nat :: 0 < n <= 0x7FFF_FFFF && a == "-" + H.Print(n))
             || (!H.IsDigit(a[0]) && !H.IsSpace(a[0]) && a[0] != '-' && a[0] != '+')
    ensures var line := Typed(word, H.Some(a));
            Step(c, st, Command(line + rest, io)) == Told(st, line, st.s, 501)
  {
    hide Typed, Step, H.ScanInt, H.Print, Speakable;
    var line := Typed(word, H.Some(a));
    Handled(c, st, REST, word, H.Some(a), rest, io);
    H.NoNumber(a + CRLF + rest);
    if n: nat :| 0 < n <= 0x7FFF_FFFF && a == "-" + H.Print(n) {
      H.ScanNegative(n, CRLF + rest);
      assert a + CRLF + rest == "-" + H.Print(n) + (CRLF + rest);
    }
    SayTold(st, line, st.s, 501);
  }
}
