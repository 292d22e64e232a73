/**
  Control lines spelled out: that no name of a command begins another, and so what a line
  of a name and an argument leads to.
*/
module CommandLines {
  import opened CText
  import opened Session
  import H = HostPort

  // ------------------------------------------------------- the table is unambiguous

  /** The only command whose name a text can begin with, found letter by letter. */
  function Guess(text: string): Verb
    requires |text| >= 3
  {
    var x, y, z := ToLower(text[0]), ToLower(text[1]), ToLower(text[2]);
    match x
    case 'a' => if y == 'b' then ABOR else if y == 'c' then ACCT else if y == 'l' then ALLO else APPE
    case 'c' => if y == 'd' then CDUP else CWD
    case 'd' => DELE
    case 'f' => FEAT
    case 'h' => HELP
    case 'l' => LIST
    case 'm' => if y == 'k' then MKD else MODE
    case 'n' => if y == 'l' then NLST else NOOP
    case 'p' =>
      if y == 'o' then PORT else if y == 'w' then PWD
      else if |text| > 3 && ToLower(text[3]) == 's' then PASS else PASV
    case 'q' => QUIT
    case 'r' =>
      if y == 'e' then (if z == 'i' then REIN else if z == 's' then REST else RETR)
      else if y == 'n' then (if z == 'f' then RNFR else RNTO)
      else RMD
    case 's' =>
      if y == 'i' then (if z == 't' then SITE else SIZE)
      else if y == 'm' then SMNT
      else if y == 't' then (if z == 'a' then STAT else if z == 'o' then STOR else STRU)
      else SYST
    case 't' => TYPE
    case _ => USER
  }

  lemma SameLetters(text: string, n: string)
    requires StartsWithNoCase(text, n)
    ensures |text| >= |n|
    ensures |n| > 0 ==> ToLower(text[0]) == ToLower(n[0])
    ensures |n| > 1 ==> ToLower(text[1]) == ToLower(n[1])
    ensures |n| > 2 ==> ToLower(text[2]) == ToLower(n[2])
    ensures |n| > 3 ==> ToLower(text[3]) == ToLower(n[3])
  {
    hide ToLower;
  }

  /** Every name leads to its own command. */
  lemma GuessName(text: string, v: Verb)
    requires StartsWithNoCase(text, Name(v))
    ensures |text| >= 3 && Guess(text) == v
  {
    hide StartsWithNoCase;
    SameLetters(text, Name(v));
  }

  /** No name of a command begins another, in whatever case. */
  lemma PrefixFree(text: string, v: Verb, w: Verb)
    requires StartsWithNoCase(text, Name(v)) && StartsWithNoCase(text, Name(w))
    ensures v == w
  {
    hide Name, Guess, StartsWithNoCase;
    GuessName(text, v);
    GuessName(text, w);
  }

  lemma {:induction false} LookupTotal(name: string, i: nat, k: nat)
    requires i <= k < |VERBS| && StartsWithNoCase(name, Name(VERBS[k]))
    ensures Lookup(name, i).Some?
    decreases |VERBS| - i
  {
    hide StartsWithNoCase, Name;
    if i < k && !StartsWithNoCase(name, Name(VERBS[i])) {
      LookupTotal(name, i + 1, k);
    }
  }

  /** Every verb has its place in the table. */
  lemma InTable(v: Verb) returns (k: nat)
    ensures k < |VERBS| && VERBS[k] == v
  {
    match v {
      case USER => k := 0; case PASS => k := 1; case ACCT => k := 2; case CWD => k := 3;
      case CDUP => k := 4; case SMNT => k := 5; case REIN => k := 6; case QUIT => k := 7;
      case PORT => k := 8; case PASV => k := 9; case TYPE => k := 10; case STRU => k := 11;
      case MODE => k := 12; case RETR => k := 13; case STOR => k := 14; case APPE => k := 15;
      case ALLO => k := 16; case REST => k := 17; case RNFR => k := 18; case RNTO => k := 19;
      case ABOR => k := 20; case DELE => k := 21; case RMD => k := 22; case MKD => k := 23;
      case PWD => k := 24; case LIST => k := 25; case NLST => k := 26; case SITE => k := 27;
      case SYST => k := 28; case STAT => k := 29; case HELP => k := 30; case NOOP => k := 31;
      case FEAT => k := 32; case SIZE => k := 33;
    }
  }

  /** The table is unambiguous: a line begins with one verb at most, whatever the order of the table. */
  lemma VerbDecided(name: string, v: Verb)
    ensures Lookup(name, 0) == H.Some(v) <==> StartsWithNoCase(name, Name(v))
  {
    hide StartsWithNoCase, Name;
    if StartsWithNoCase(name, Name(v)) {
      var k := InTable(v);
      LookupTotal(name, 0, k);
      PrefixFree(name, v, Lookup(name, 0).value);
    }
  }

  // ------------------------------------------------------------- a name and an argument

  /** An argument that can stand in a line. */
  predicate Speakable(arg: H.Option<string>) {
    arg.Some? ==> forall c | c in arg.value :: !EndsScan(c)
  }

  /** word SP argument CRLF, or word CRLF. */
  function Typed(word: string, arg: H.Option<string>): string {
    match arg
    case None => word + CRLF
    case Some(a) => word + " " + a + CRLF
  }

  function Spoken(v: Verb, arg: H.Option<string>): string {
    Typed(Name(v), arg)
  }

  /** The letters of a name, each as it is or as a small letter. */
  predicate SameWord(word: string, name: string) {
    && |word| == |name|
    && forall k | 0 <= k < |name| :: word[k] == name[k] || word[k] as int == name[k] as int + 32
  }

  /** What the handler of such a line gets to see when `rest` is behind the line in the buffer. */
  function Heard(arg: H.Option<string>, rest: string): string {
    match arg
    case None => ""
    case Some(a) => a + CRLF + rest
  }

  lemma NameLetters(v: Verb)
    ensures forall c | c in Name(v) :: 'A' <= c <= 'Z'
  {
  }

  lemma WordLetters(word: string, v: Verb)
    requires SameWord(word, Name(v))
    ensures forall c | c in word :: !EndsScan(c) && c != ' '
    ensures StartsWithNoCase(word, Name(v))
  {
    NameLetters(v);
    hide Name;
    forall k | 0 <= k < |word| ensures 'A' <= Name(v)[k] <= 'Z' {
      assert Name(v)[k] in Name(v);
    }
  }

  lemma SameName(v: Verb)
    ensures SameWord(Name(v), Name(v))
  {
    hide Name;
  }

  /** The line ends where it seems to, whatever follows. */
  lemma TypedEnds(word: string, arg: H.Option<string>, rest: string)
    requires Speakable(arg) && forall c | c in word :: !EndsScan(c)
    ensures IsLine(Typed(word, arg) + rest, |Typed(word, arg)|)
    ensures (Typed(word, arg) + rest)[..|Typed(word, arg)|] == Typed(word, arg)
    ensures (Typed(word, arg) + rest)[|Typed(word, arg)|..] == rest
  {
    var s := Typed(word, arg);
    var t := s + rest;
    assert CrlfAt(t, |s| - 2);
    assert forall k | 0 <= k < |s| - 2 :: s[k] in word || s[k] == ' ' || (arg.Some? && s[k] in arg.value);
    assert forall k | 0 <= k < |s| - 2 :: t[k] == s[k];
  }

  lemma SpokenEnds(v: Verb, arg: H.Option<string>, rest: string)
    requires Speakable(arg)
    ensures IsLine(Spoken(v, arg) + rest, |Spoken(v, arg)|)
    ensures (Spoken(v, arg) + rest)[..|Spoken(v, arg)|] == Spoken(v, arg)
    ensures (Spoken(v, arg) + rest)[|Spoken(v, arg)|..] == rest
  {
    hide Name, Typed, FindCrlf;
    SameName(v);
    WordLetters(Name(v), v);
    TypedEnds(Name(v), arg, rest);
  }

  lemma TypedVerb(word: string, v: Verb, arg: H.Option<string>, rest: string)
    requires SameWord(word, Name(v)) && Speakable(arg)
    ensures VerbOf(Typed(word, arg) + rest) == H.Some(v) && ScanLine(Typed(word, arg) + rest, 4) != ""
  {
    hide Typed, Lookup, Name, StartsWithNoCase;
    TypedName(word, v, arg, rest);
    VerbDecided(ScanLine(Typed(word, arg) + rest, 4), v);
  }

  lemma SpokenVerb(v: Verb, arg: H.Option<string>, rest: string)
    requires Speakable(arg)
    ensures VerbOf(Spoken(v, arg) + rest) == H.Some(v) && ScanLine(Spoken(v, arg) + rest, 4) != ""
  {
    hide Typed, VerbOf, Name, ScanLine;
    SameName(v);
    TypedVerb(Name(v), v, arg, rest);
  }

  lemma TypedName(word: string, v: Verb, arg: H.Option<string>, rest: string)
    requires SameWord(word, Name(v))
    ensures var name := ScanLine(Typed(word, arg) + rest, 4);
            StartsWithNoCase(name, Name(v)) && name != ""
  {
    hide Name, Typed, ScanLine, StartsWithNoCase;
    WordLetters(word, v);
    NameSize(v);
    WordScanned(word, arg, rest);
    LongerStarts(word, ScanLine(Typed(word, arg) + rest, 4), Name(v));
  }

  lemma WordScanned(word: string, arg: H.Option<string>, rest: string)
    requires 0 < |word| <= 4 && forall c | c in word :: !EndsScan(c)
    ensures word <= ScanLine(Typed(word, arg) + rest, 4)
  {
    var t := Typed(word, arg) + rest;
    assert forall k | 0 <= k < |word| :: t[k] == word[k];
    assert forall k | 0 <= k < |word| :: t[k] in word;
    assert |word| <= LineSpan(t, 4);
  }

  lemma LongerStarts(s: string, t: string, name: string)
    requires s <= t && StartsWithNoCase(s, name)
    ensures StartsWithNoCase(t, name)
  {
    hide ToLower;
    assert forall k | 0 <= k < |name| :: t[k] == s[k];
  }

  lemma NameSize(v: Verb)
    ensures 3 <= |Name(v)| <= 4
  {
    hide Name;
  }

  lemma TypedArg(word: string, v: Verb, arg: H.Option<string>, rest: string)
    requires |word| == |Name(v)|
    ensures |Name(v)| <= |Typed(word, arg)|
    ensures ArgOf(Typed(word, arg) + rest, |Typed(word, arg)|, v) == match arg
                                                                     case None => H.None
                                                                     case Some(a) => H.Some(a + CRLF + rest)
  {
    hide Name;
    var s := Typed(word, arg);
    var t := s + rest;
    var tail := t[|Name(v)|..|s|];
    match arg
    case None =>
      assert tail == CRLF;
    case Some(a) =>
      assert tail[0] == ' ';
      assert t[|Name(v)| + 1..] == a + CRLF + rest;
  }

  lemma SpokenArg(v: Verb, arg: H.Option<string>, rest: string)
    ensures |Name(v)| <= |Spoken(v, arg)|
    ensures ArgOf(Spoken(v, arg) + rest, |Spoken(v, arg)|, v) == match arg
                                                                case None => H.None
                                                                case Some(a) => H.Some(a + CRLF + rest)
  {
    hide Typed, Name, ArgOf;
    TypedArg(Name(v), v, arg, rest);
  }

  /** The scan of an argument gives it back, whatever follows its line. */
  lemma ScanHeard(a: string, rest: string, limit: nat)
    requires Speakable(H.Some(a)) && |a| <= limit
    ensures ScanLine(a + CRLF + rest, limit) == a
  {
    hide ScanLine, Speakable;
    ScanCut(a, rest, limit);
  }

  lemma ScanSpoken(a: string, limit: nat)
    requires Speakable(H.Some(a)) && |a| <= limit
    ensures ScanLine(a + CRLF, limit) == a
  {
    ScanHeard(a, "", limit);
    assert a + CRLF + "" == a + CRLF;
  }

  /** As much of an argument is scanned as there is room for. */
  lemma ScanCut(a: string, rest: string, limit: nat)
    requires Speakable(H.Some(a))
    ensures ScanLine(a + CRLF + rest, limit) == if |a| <= limit then a else a[..limit]
  {
    var t := a + CRLF + rest;
    assert forall k | 0 <= k < |a| :: t[k] == a[k] && a[k] in a;
    assert EndsScan(t[|a|]);
  }

  /** A line without a command. */
  lemma UnknownLine(c: Config, st: St, text: string, len: nat, io: Io)
    requires IsLine(text, len) && VerbOf(text).None?
    ensures Dispatch(c, st, text, len, io) == Say(st, 500)
  {
    hide VerbOf, FindCrlf;
  }

  /** The step of a text is the dispatch of its first line. */
  lemma FirstLineStep(c: Config, st: St, text: string, len: nat, io: Io)
    requires IsLine(text, len) && st.s.active
    ensures Step(c, st, Command(text, io)) == Dispatch(c, Emit(st, Line(text[..len])), text, len, io)
  {
    hide Dispatch, FindCrlf, SessionInit, SessionClose, Progress;
  }

  lemma WholeLine(c: Config, st: St, text: string, io: Io)
    requires IsLine(text, |text|) && st.s.active
    ensures Step(c, st, Command(text, io)) == Dispatch(c, Emit(st, Line(text)), text, |text|, io)
  {
    hide Dispatch, FindCrlf, Step;
    FirstLineStep(c, st, text, |text|, io);
    assert text[..|text|] == text;
  }

  /** What becomes of a line at the gates, in their order. */
  function AtGates(c: Config, l: St, v: Verb, arg: H.Option<string>, rest: string, io: Io): St {
    if NeedsAuth(v) && l.s.auth != Valid then Say(l, 530)
    else if l.s.Busy() && v != ABOR then Say(l, 501)
    else if (if arg.Some? then Args(v).NoArg? else Args(v).RequiredArg?) then Say(l, 501)
    else Execute(c, l, v, Heard(arg, rest), io)
  }

  lemma DispatchGates(c: Config, st: St, text: string, len: nat, v: Verb, arg: H.Option<string>, rest: string, io: Io)
    requires IsLine(text, len) && ScanLine(text, 4) != "" && VerbOf(text) == H.Some(v) && |Name(v)| <= len
    requires ArgOf(text, len, v) == match arg case None => H.None case Some(a) => H.Some(a + CRLF + rest)
    ensures Dispatch(c, st, text, len, io) == AtGates(c, st, v, arg, rest, io)
  {
    hide Execute, VerbOf, ArgOf, ScanLine, NeedsAuth, Args, FindCrlf, Name;
  }

  /** A line of a command's name in whatever case, and an argument or none. */
  lemma TypedThen(c: Config, st: St, word: string, v: Verb, arg: H.Option<string>, rest: string, io: Io)
    requires SameWord(word, Name(v)) && Speakable(arg) && st.s.active
    ensures Step(c, st, Command(Typed(word, arg) + rest, io)) ==
            AtGates(c, Emit(st, Line(Typed(word, arg))), v, arg, rest, io)
  {
    hide Typed, AtGates, VerbOf, ArgOf, ScanLine, FindCrlf, Dispatch, Name, Step, StartsWithNoCase;
    var t := Typed(word, arg) + rest;
    var len := |Typed(word, arg)|;
    WordLetters(word, v);
    TypedEnds(word, arg, rest);
    TypedVerb(word, v, arg, rest);
    TypedArg(word, v, arg, rest);
    DispatchGates(c, Emit(st, Line(t[..len])), t, len, v, arg, rest, io);
    FirstLineStep(c, st, t, len, io);
  }

  /**
    A line that passes the gates is the execution of its command on its argument; the
    handler also sees what follows the line.
  */
  lemma SpokenThen(c: Config, st: St, v: Verb, arg: H.Option<string>, rest: string, io: Io)
    requires Speakable(arg) && st.s.active
    requires NeedsAuth(v) ==> st.s.auth == Valid
    requires st.s.Busy() ==> v == ABOR
    requires if arg.Some? then !Args(v).NoArg? else !Args(v).RequiredArg?
    ensures Step(c, st, Command(Spoken(v, arg) + rest, io)) ==
            Execute(c, Emit(st, Line(Spoken(v, arg))), v, Heard(arg, rest), io)
  {
    hide Typed, Execute, NeedsAuth, Args, Name, Step;
    SameName(v);
    TypedThen(c, st, Name(v), v, arg, rest, io);
  }

  lemma SpokenStep(c: Config, st: St, v: Verb, arg: H.Option<string>, io: Io)
    requires Speakable(arg) && st.s.active
    requires NeedsAuth(v) ==> st.s.auth == Valid
    requires st.s.Busy() ==> v == ABOR
    requires if arg.Some? then !Args(v).NoArg? else !Args(v).RequiredArg?
    ensures Step(c, st, Command(Spoken(v, arg), io)) ==
            Execute(c, Emit(st, Line(Spoken(v, arg))), v, Heard(arg, ""), io)
    ensures arg.Some? ==> Heard(arg, "") == arg.value + CRLF
  {
    hide Spoken, Execute, NeedsAuth, Args, Step;
    SpokenThen(c, st, v, arg, "", io);
    assert Spoken(v, arg) + "" == Spoken(v, arg);
    assert arg.Some? ==> arg.value + CRLF + "" == arg.value + CRLF;
  }
}
