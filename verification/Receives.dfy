/**
  A text that arrives in two receives instead of one (src/ftpsrv.c, lines 1377 to 1402):
  what is behind the last CRLF of the first is overwritten by the second.
*/
module Receives {
  import opened CText
  import opened Session
  import opened Conduct
  import opened Frames
  import opened Loop
  import opened Records
  import opened CommandLines
  import H = HostPort

  // ----------------------------------------------------------- lines of a divided text

  /** The first line of a text is not changed by what is added behind it. */
  lemma FirstCrlfStays(a: string, b: string)
    requires FindCrlf(a) < |a|
    ensures FindCrlf(a + b) == FindCrlf(a)
    ensures (a + b)[..FindCrlf(a) + 2] == a[..FindCrlf(a) + 2]
    ensures (a + b)[FindCrlf(a) + 2..] == a[FindCrlf(a) + 2..] + b
  {
    var n := FindCrlf(a);
    assert CrlfAt(a + b, n);
    assert forall k | 0 <= k < n :: CrlfAt(a + b, k) == CrlfAt(a, k);
    var m := FindCrlf(a + b);
    assert n <= m <= n;
  }

  /** Complete lines stay as they are; what is left of the first part runs on into the second. */
  lemma {:induction false} LinesAppend(a: string, b: string)
    ensures Lines(a + b) == Lines(a) + Lines(Remainder(a) + b)
    decreases |a|
  {
    hide FindCrlf, Lines, Remainder;
    SplitUnfold(a);
    var n := FindCrlf(a);
    if n < |a| {
      FirstCrlfStays(a, b);
      SplitUnfold(a + b);
      LinesAppend(a[n + 2..], b);
      ConsAppend(a[..n + 2], Lines(a[n + 2..]), Lines(Remainder(a) + b));
    } else {
      assert [] + Lines(a + b) == Lines(a + b);
    }
  }

  lemma ConsAppend(l: string, p: seq<string>, q: seq<string>)
    ensures [l] + (p + q) == ([l] + p) + q
  {
  }

  /** The remainder of a text is that of its end, if that contains a CRLF. */
  lemma {:induction false} RemainderOfEnd(x: string, y: string)
    requires FindCrlf(y) < |y|
    ensures Remainder(x + y) == Remainder(y)
    decreases |x|
  {
    hide Remainder, Lines, FindCrlf, CrlfAt;
    var n := FindCrlf(x + y);
    var m := FindCrlf(y);
    FirstBefore(x, y);
    CrlfFits(x + y);
    SplitUnfold(x + y);
    var rest := (x + y)[n + 2..];
    if n + 2 <= |x| {
      assert rest == x[n + 2..] + y;
      RemainderOfEnd(x[n + 2..], y);
    } else if n < |x| {
      assert y[0] == (x + y)[n + 1];
      assert rest == y[1..];
      RemainderOfTail(y);
    } else {
      EndCrlf(x, y, n);
      assert rest == y[m + 2..];
      SplitUnfold(y);
    }
  }

  lemma FirstBefore(x: string, y: string)
    requires FindCrlf(y) < |y|
    ensures FindCrlf(x + y) <= |x| + FindCrlf(y) < |x + y|
  {
    CrlfShift(x, y, FindCrlf(y));
  }

  /** A CRLF that is found is inside the text. */
  lemma CrlfFits(t: string)
    requires FindCrlf(t) < |t|
    ensures FindCrlf(t) + 2 <= |t| && t[FindCrlf(t) + 1] == '\n'
  {
  }

  lemma RemainderOfTail(y: string)
    requires FindCrlf(y) < |y| && y[0] == '\n'
    ensures Remainder(y[1..]) == Remainder(y)
  {
    var m := FindCrlf(y);
    TailCrlf(y);
    SplitUnfold(y);
    SplitUnfold(y[1..]);
    hide FindCrlf, Remainder, Lines;
    assert y[1..][m - 1 + 2..] == y[m + 2..];
  }

  /** A text that starts with LF has its first CRLF behind that. */
  lemma TailCrlf(y: string)
    requires FindCrlf(y) < |y| && y[0] == '\n'
    ensures FindCrlf(y) >= 1 && FindCrlf(y[1..]) == FindCrlf(y) - 1
  {
    var m := FindCrlf(y);
    assert CrlfAt(y[1..], m - 1);
    assert forall k | 0 <= k < m - 1 :: CrlfAt(y[1..], k) == CrlfAt(y, k + 1);
  }

  lemma EndCrlf(x: string, y: string, n: nat)
    requires n == FindCrlf(x + y) < |x + y| && n >= |x|
    ensures FindCrlf(y) == n - |x|
  {
    assert CrlfAt(y, n - |x|);
    assert forall k | 0 <= k < n - |x| :: CrlfAt(y, k) == CrlfAt(x + y, |x| + k);
  }

  lemma NoCrlfInEnd(x: string, y: string)
    requires FindCrlf(x + y) == |x + y|
    ensures FindCrlf(y) == |y|
  {
    CrlfShift(x, y, FindCrlf(y));
  }

  lemma CrlfShift(x: string, y: string, k: nat)
    ensures CrlfAt(x + y, |x| + k) == CrlfAt(y, k)
  {
  }

  /**
    A text that is divided comes to the same lines if and only if the division is at the end
    of a line, or the line it divides is not completed by the second part.
  */
  lemma DividedLines(a: string, b: string)
    ensures var r := Remainder(a);
            Lines(a + b) == Lines(a) + Lines(b) <==> r == "" || FindCrlf(r + b) == |r + b|
  {
    var r := Remainder(a);
    hide Lines, Remainder, FindCrlf;
    LinesAppend(a, b);
    SameAppend(Lines(a), Lines(r + b), Lines(b));
    if r == "" {
      assert r + b == b;
    } else if FindCrlf(r + b) == |r + b| {
      NoCrlfInEnd(r, b);
      SplitUnfold(r + b);
      SplitUnfold(b);
    } else {
      CompletedDiffers(r, b);
    }
  }

  lemma SameAppend(p: seq<string>, q: seq<string>, s: seq<string>)
    ensures p + q == p + s <==> q == s
  {
    assert (p + q)[|p|..] == q && (p + s)[|p|..] == s;
  }

  /** The lines account for all bytes but the remainder: a completed line cannot go unnoticed. */
  lemma CompletedDiffers(r: string, b: string)
    requires r != "" && FindCrlf(r + b) != |r + b|
    ensures Lines(r + b) != Lines(b)
  {
    hide Lines, Remainder, Flatten, FindCrlf;
    SplitUnfold(r + b);
    SplitUnfold(b);
    SplitExact(r + b);
    SplitExact(b);
    if FindCrlf(b) < |b| {
      RemainderOfEnd(r, b);
      assert |Flatten(Lines(r + b))| + |Remainder(b)| == |r| + |b|;
      assert |Flatten(Lines(b))| + |Remainder(b)| == |b|;
    } else {
      BoundedCrlf(r + b);
      BoundedCrlf(b);
    }
  }

  lemma BoundedCrlf(t: string)
    ensures FindCrlf(t) <= |t|
  {
  }

  // -------------------------------------------------------------- what a session is served

  /** Serving a text, a session reads its lines, and stays active and in good order. */
  lemma {:induction false} ServeTextReads(c: Config, st: St, text: string, ios: seq<Io>)
    requires Good(c, st) && st.s.active
    ensures var r := ServeText(c, st, text, ios);
            Good(c, r) && r.s.active && LinesOf(r.log) == LinesOf(st.log) + Lines(text)
    decreases |text|
  {
    hide Good, Step, FindCrlf, LinesOf, PortsOf, Lines, Held, FdFrame;
    SplitUnfold(text);
    var n := FindCrlf(text);
    if n < |text| {
      var ev := Command(text, FirstIo(ios));
      var u := Step(c, st, ev);
      StepGood(c, st, ev);
      StepFrame(c, st, ev);
      StepRecords(c, st, ev);
      ServeTextReads(c, u, text[n + 2..], RestIos(ios));
      ConsAppend3(LinesOf(st.log), text[..n + 2], Lines(text[n + 2..]));
    } else {
      assert LinesOf(st.log) + [] == LinesOf(st.log);
    }
  }

  lemma ConsAppend3(p: seq<string>, l: string, q: seq<string>)
    ensures (p + [l]) + q == p + ([l] + q)
  {
  }

  /**
    The lines a session reads from two receives are those of the text as it was sent if and
    only if no line was divided between them, or the divided one is still not complete.
  */
  lemma TwoReceives(c: Config, st: St, a: string, b: string, ios: seq<Io>, ios': seq<Io>)
    requires Good(c, st) && st.s.active
    ensures var u := ServeText(c, ServeText(c, st, a, ios), b, ios');
            var r := Remainder(a);
            LinesOf(u.log) == LinesOf(st.log) + Lines(a + b) <==> r == "" || FindCrlf(r + b) == |r + b|
  {
    hide Good, ServeText, LinesOf, Lines, Remainder, FindCrlf;
    ServeTextReads(c, st, a, ios);
    ServeTextReads(c, ServeText(c, st, a, ios), b, ios');
    DividedLines(a, b);
    ConsAssociative(LinesOf(st.log), Lines(a), Lines(b));
    SameAppend(LinesOf(st.log), Lines(a) + Lines(b), Lines(a + b));
  }

  lemma ConsAssociative(p: seq<string>, q: seq<string>, s: seq<string>)
    ensures (p + q) + s == p + (q + s)
  {
  }

  /** A text of one line is served by one step. */
  lemma ServeOneLine(c: Config, st: St, text: string, io: Io)
    requires IsLine(text, |text|)
    ensures ServeText(c, st, text, [io]) == Step(c, st, Command(text, io))
  {
    hide Step, FindCrlf;
    assert FirstIo([io]) == io && RestIos([io]) == [];
    assert text[|text|..] == "";
    NothingInNothing();
    ServeNothing(c, Step(c, st, Command(text, io)), "", []);
  }

  lemma NothingInNothing()
    ensures FindCrlf("") == 0
  {
  }

  /** A NOOP in one piece is answered with a 200. */
  lemma WholeNoop(c: Config, st: St, text: string, io: Io)
    requires st.s.active && !st.s.Busy() && text == "NOOP" + CRLF
    ensures ServeText(c, st, text, [io]).log == st.log + [Line(text), Reply(200, "")]
  {
    hide Step, FindCrlf, Spoken, ServeText, Execute;
    SpokenNoop(text);
    SpokenEnds(NOOP, H.None, "");
    assert text + "" == text;
    ServeOneLine(c, st, text, io);
    SpokenStep(c, st, NOOP, H.None, io);
    ExecuteNoop(c, Emit(st, Line(text)), io);
    assert Say(Emit(st, Line(text)), 200).log == st.log + [Line(text), Reply(200, "")];
  }

  lemma SpokenNoop(text: string)
    requires text == "NOOP" + CRLF
    ensures Spoken(NOOP, H.None) == text
  {
  }

  lemma ExecuteNoop(c: Config, st: St, io: Io)
    ensures Execute(c, st, NOOP, "", io) == Say(st, 200)
  {
  }

  lemma ServeNothing(c: Config, st: St, text: string, ios: seq<Io>)
    requires FindCrlf(text) == |text|
    ensures ServeText(c, st, text, ios) == st
  {
  }

  /** The same NOOP divided in the middle is answered with a 500: its first half is lost. */
  lemma DividedNoop(c: Config, st: St, a: string, b: string, ios: seq<Io>, io: Io)
    requires st.s.active && a == "NO" && b == "OP" + CRLF
    ensures ServeText(c, ServeText(c, st, a, ios), b, [io]).log == st.log + [Line(b), Reply(500, "")]
  {
    assert !CrlfAt(a, 0) && !CrlfAt(a, 1);
    ServeNothing(c, st, a, ios);
    assert CrlfAt(b, 2) && !CrlfAt(b, 0) && !CrlfAt(b, 1);
    assert IsLine(b, |b|);
    NoVerb(b);
    hide Step, FindCrlf, Dispatch, VerbOf, ServeText;
    ServeOneLine(c, st, b, io);
    WholeLine(c, st, b, io);
    UnknownLine(c, Emit(st, Line(b)), b, |b|, io);
    assert Say(Emit(st, Line(b)), 500).log == st.log + [Line(b), Reply(500, "")];
  }

  /** No name of a command is as short as two letters. */
  lemma NoVerb(text: string)
    requires |text| > 2 && EndsScan(text[2])
    ensures VerbOf(text).None?
  {
    assert LineSpan(text, 4) <= 2;
  }
}
