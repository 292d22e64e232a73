/**
  Path names: the in-place clean-up loop, path joining, and what both mean on
  lists of path components (src/ftpsrv.c, lines 242 to 323).
*/
module Pathname {
  import opened CText

  const PATHNAME_SIZE: nat := 4096

  predicate IsSep(c: char) {
    c == '/' || c == '\\'
  }

  function Slash(c: char): char {
    if c == '\\' then '/' else c
  }

  // ---------------------------------------------------------------- components

  /** The maximal runs of non-separators of `t`, in order. */
  function Comps(t: string): (cs: seq<string>)
    ensures t != [] && !IsSep(t[|t| - 1]) ==> cs != []
  {
    if t == [] then []
    else
      var n := |t| - 1;
      var cs := Comps(t[..n]);
      if IsSep(t[n]) then cs else Extend(cs, n == 0 || IsSep(t[n - 1]), t[n])
  }

  /** One more character: a component of its own, or the end of the last one. */
  function Extend(cs: seq<string>, starts: bool, c: char): (ds: seq<string>)
    requires starts || cs != []
    ensures ds != []
  {
    if starts then cs + [[c]] else cs[..|cs| - 1] + [cs[|cs| - 1] + [c]]
  }

  /** A list of components that Comps can produce. */
  ghost predicate WellFormed(cs: seq<string>) {
    forall i | 0 <= i < |cs| :: IsWord(cs[i])
  }

  function Join(cs: seq<string>): string {
    if cs == [] then ""
    else if |cs| == 1 then cs[0]
    else Join(cs[..|cs| - 1]) + "/" + cs[|cs| - 1]
  }

  /** The canonical spelling of a path. */
  function Render(absolute: bool, cs: seq<string>): string {
    (if absolute then "/" else "") + Join(cs)
  }

  lemma {:induction false} CompsSnoc(t: string, c: char)
    ensures IsSep(c) ==> Comps(t + [c]) == Comps(t)
    ensures !IsSep(c) ==>
              var starts := t == [] || IsSep(t[|t| - 1]);
              (starts || Comps(t) != []) && Comps(t + [c]) == Extend(Comps(t), starts, c)
  {
    var u := t + [c];
    assert u[..|u| - 1] == t && u[|u| - 1] == c;
  }

  lemma {:induction false} CompsWellFormed(t: string)
    ensures WellFormed(Comps(t))
  {
    if t != [] {
      CompsWellFormed(t[..|t| - 1]);
    }
  }

  ghost predicate Seam(a: string, b: string) {
    a == [] || b == [] || IsSep(a[|a| - 1]) || IsSep(b[0])
  }

  /** Components of a concatenation whose seam is a separator. */
  lemma {:induction false} CompsConcat(a: string, b: string)
    requires Seam(a, b)
    ensures Comps(a + b) == Comps(a) + Comps(b)
    decreases |b|
  {
    if b == [] {
      assert a + b == a;
    } else {
      var n := |b| - 1;
      var d, c := b[..n], b[n];
      assert b == d + [c];
      assert a + b == (a + d) + [c];
      CompsConcat(a, d);
      CompsConcatStep(a, d, c);
    }
  }

  lemma CompsConcatStep(a: string, d: string, c: char)
    requires Seam(a, d + [c])
    requires Comps(a + d) == Comps(a) + Comps(d)
    ensures Comps((a + d) + [c]) == Comps(a) + Comps(d + [c])
  {
    hide Comps;
    CompsSnoc(a + d, c);
    CompsSnoc(d, c);
    if !IsSep(c) {
      var starts := d == [] || IsSep(d[|d| - 1]);
      assert d == [] ==> a + d == a;
      assert starts == (a + d == [] || IsSep((a + d)[|a + d| - 1]));
      ExtendConcat(Comps(a), Comps(d), starts, c);
    }
  }

  lemma ExtendConcat(xs: seq<string>, ys: seq<string>, starts: bool, c: char)
    requires starts || ys != []
    ensures Extend(xs + ys, starts, c) == xs + Extend(ys, starts, c)
  {
    if !starts {
      assert (xs + ys)[..|xs + ys| - 1] == xs + ys[..|ys| - 1];
    }
  }

  /** A single component, standing alone. */
  lemma {:induction false} CompsSingle(w: string)
    requires IsWord(w)
    ensures Comps(w) == [w]
  {
    var n := |w| - 1;
    assert w == w[..n] + [w[n]];
    if n > 0 {
      CompsSingle(w[..n]);
    }
    CompsSnoc(w[..n], w[n]);
  }

  lemma CompsEmpty()
    ensures Comps("") == []
  {
  }

  lemma CompsRoot()
    ensures Comps("/") == []
  {
    assert "/" == "" + ['/'];
    CompsSnoc("", '/');
  }

  ghost predicate IsWord(w: string) {
    w != "" && forall k | 0 <= k < |w| :: !IsSep(w[k])
  }

  lemma CompsAppendWord(p: string, w: string)
    requires IsWord(w)
    ensures Comps(p + "/" + w) == Comps(p) + [w]
  {
    hide Comps;
    CompsSingle(w);
    CompsRoot();
    CompsConcat("/", w);
    CompsConcat(p, "/" + w);
    assert p + "/" + w == p + ("/" + w);
  }

  lemma {:induction false} CompsJoin(cs: seq<string>)
    requires WellFormed(cs)
    ensures Comps(Join(cs)) == cs
    ensures cs != [] ==> Join(cs) != "" && !IsSep(Join(cs)[0]) && !IsSep(Join(cs)[|Join(cs)| - 1])
  {
    if |cs| == 1 {
      CompsSingle(cs[0]);
    } else if cs != [] {
      var ds, w := cs[..|cs| - 1], cs[|cs| - 1];
      assert cs == ds + [w];
      assert IsWord(w);
      CompsJoin(ds);
      CompsAppendWord(Join(ds), w);
    }
  }

  /** Components and leading slash determine a rendered path, and are recovered from it. */
  lemma {:induction false} CompsRender(absolute: bool, cs: seq<string>)
    requires WellFormed(cs)
    ensures Comps(Render(absolute, cs)) == cs
  {
    hide Comps;
    CompsJoin(cs);
    if absolute {
      CompsRoot();
      CompsConcat("/", Join(cs));
    } else {
      assert Render(absolute, cs) == Join(cs);
    }
  }

  // ------------------------------------------------------------ canonical paths

  /** No backslash and no empty component inside. */
  ghost predicate Tidy(p: string) {
    && '\\' !in p
    && forall i | 0 <= i < |p| - 1 :: !(p[i] == '/' && p[i + 1] == '/')
  }

  /** Non-empty, tidy, and without a dangling slash unless it is the root. */
  ghost predicate Canonical(p: string) {
    Tidy(p) && p != "" && (|p| > 1 ==> p[|p| - 1] != '/')
  }

  ghost predicate CanonicalAbsolute(p: string) {
    Canonical(p) && p[0] == '/'
  }

  ghost function Spell(absolute: bool, cs: seq<string>, dangling: bool): string {
    Render(absolute, cs) + (if dangling && cs != [] then "/" else "")
  }

  /** A tidy path is rendered from its components, give or take a dangling slash. */
  ghost predicate SpeltOut(p: string)
    requires p != ""
  {
    p == Spell(p[0] == '/', Comps(p), p[|p| - 1] == '/')
  }

  lemma {:induction false} TidyRender(p: string)
    requires Tidy(p) && p != ""
    ensures Comps(p) == [] ==> p == "/"
    ensures SpeltOut(p)
    decreases |p|
  {
    var q, c := p[..|p| - 1], p[|p| - 1];
    assert p == q + [c];
    if q == "" {
      assert p == [c];
      assert c in p;
      CompsSnoc("", c);
    } else {
      TidyPrefix(q, c);
      TidyRender(q);
      TidyStep(q, c);
    }
  }

  lemma TidyPrefix(q: string, c: char)
    requires Tidy(q + [c])
    ensures Tidy(q) && c != '\\'
    ensures q != "" ==> !(q[|q| - 1] == '/' && c == '/') && q[|q| - 1] != '\\'
  {
    hide Comps;
    var p := q + [c];
    assert c == p[|q|];
    assert forall i | 0 <= i < |q| :: q[i] == p[i];
    if q != "" { assert p[|q| - 1] == q[|q| - 1]; }
  }

  lemma TidyStep(q: string, c: char)
    requires q != "" && c != '\\'
    requires !(q[|q| - 1] == '/' && c == '/') && q[|q| - 1] != '\\'
    requires SpeltOut(q)
    ensures Comps(q + [c]) != []
    ensures SpeltOut(q + [c])
  {
    CompsSnoc(q, c);
    SpellStep(q[0] == '/', Comps(q), q[|q| - 1] == '/', c);
  }

  lemma SpellStep(absolute: bool, cs: seq<string>, dangling: bool, c: char)
    requires c == '/' ==> !dangling
    requires !dangling ==> cs != []
    ensures Spell(absolute, cs, dangling) + [c] ==
            Spell(absolute, if c == '/' then cs else Extend(cs, dangling, c), c == '/')
  {
    hide Join;
    if c != '/' {
      JoinExtend(cs, dangling, c);
      hide Extend;
      var lead := if absolute then "/" else "";
      var slash := if dangling && cs != [] then "/" else "";
      assert lead + Join(cs) + slash + [c] == lead + (Join(cs) + slash + [c]);
    }
  }

  lemma JoinExtend(cs: seq<string>, starts: bool, c: char)
    requires starts || cs != []
    ensures Join(Extend(cs, starts, c)) ==
            Join(cs) + (if starts && cs != [] then "/" else "") + [c]
  {
    var ds := Extend(cs, starts, c);
    var n := |ds| - 1;
    if starts {
      assert ds[..n] == cs;
    } else {
      assert ds[..n] == cs[..n];
    }
  }

  /** A canonical path is the rendering of its own components: no two spell the same place. */
  lemma {:induction false} CanonicalIsRender(p: string)
    requires Canonical(p)
    ensures p == Render(p[0] == '/', Comps(p))
  {
    hide Comps, Join;
    TidyRender(p);
  }

  lemma {:induction false} RenderIsCanonical(absolute: bool, cs: seq<string>)
    requires WellFormed(cs)
    requires absolute || cs != []
    ensures Canonical(Render(absolute, cs))
    ensures Render(absolute, cs)[0] == '/' <==> absolute
  {
    CompsJoin(cs);
    JoinTidy(cs);
    var p := Render(absolute, cs);
    if absolute {
      forall i | 0 <= i < |p| - 1 ensures !(p[i] == '/' && p[i + 1] == '/') {
        assert p[i + 1] == Join(cs)[i];
        if i > 0 { assert p[i] == Join(cs)[i - 1]; }
      }
    } else {
      assert p == Join(cs);
    }
  }

  lemma {:induction false} JoinTidy(cs: seq<string>)
    requires WellFormed(cs)
    ensures Tidy(Join(cs))
  {
    hide Comps;
    if |cs| == 1 {
      assert IsWord(cs[0]);
      WordTidy(cs[0]);
    } else if cs != [] {
      var ds, w := cs[..|cs| - 1], cs[|cs| - 1];
      assert IsWord(w);
      JoinTidy(ds);
      CompsJoin(ds);
      TidyAppend(Join(ds), w);
    }
  }

  lemma WordTidy(w: string)
    requires IsWord(w)
    ensures Tidy(w)
  {
    forall i | 0 <= i < |w| ensures !IsSep(w[i]) {}
  }

  lemma TidyAppend(a: string, w: string)
    requires Tidy(a) && a != "" && !IsSep(a[|a| - 1]) && IsWord(w)
    ensures Tidy(a + "/" + w)
  {
    var p := a + "/" + w;
    assert forall i | 0 <= i < |a| :: p[i] == a[i] && a[i] in a;
    assert p[|a|] == '/';
    assert forall i | 0 <= i < |w| :: p[|a| + 1 + i] == w[i];
    forall i | 0 <= i < |p| ensures p[i] != '\\' {
      if i > |a| { assert p[i] == w[i - |a| - 1]; }
    }
    forall i | 0 <= i < |p| - 1 ensures !(p[i] == '/' && p[i + 1] == '/') {
      if i >= |a| { assert p[i + 1] == w[i - |a|]; }
    }
  }

  // -------------------------------------------------------------- remove_slashes

  /** The clean-up of a path, stated on components alone. */
  function Normalise(t: string): string {
    if t == "" then "" else Render(IsSep(t[0]), Comps(t))
  }

  lemma {:induction false} NormaliseCanonical(t: string)
    requires t != ""
    ensures Canonical(Normalise(t))
    ensures Normalise(t)[0] == '/' <==> IsSep(t[0])
    ensures Comps(Normalise(t)) == Comps(t)
    ensures Normalise(Normalise(t)) == Normalise(t)
  {
    hide Comps, Join;
    CompsWellFormed(t);
    if !IsSep(t[0]) {
      CompsOfLeadingWord(t);
    }
    CompsRender(IsSep(t[0]), Comps(t));
    RenderIsCanonical(IsSep(t[0]), Comps(t));
    var p := Normalise(t);
    assert p[0] in p;
  }

  lemma {:induction false} CompsOfLeadingWord(t: string)
    requires t != "" && !IsSep(t[0])
    ensures Comps(t) != []
  {
    if |t| > 1 {
      CompsOfLeadingWord(t[..|t| - 1]);
    }
  }

  /** Normalising never changes a canonical path. */
  lemma {:induction false} NormaliseFixpoint(p: string)
    requires Canonical(p)
    ensures Normalise(p) == p
  {
    CanonicalIsRender(p);
    assert p[0] in p;
  }

  /** What the loop has written once it has read `t`: separators unified and runs collapsed. */
  ghost function Squeeze(t: string): (r: string)
    ensures |r| <= |t| && (r == [] <==> t == [])
    ensures t != [] ==> r[|r| - 1] == Slash(t[|t| - 1]) && r[0] == Slash(t[0])
  {
    if t == [] then []
    else
      var n := |t| - 1;
      var p := Squeeze(t[..n]);
      if IsSep(t[n]) && p != [] && p[|p| - 1] == '/' then p else p + [Slash(t[n])]
  }

  lemma {:induction false} SqueezeTidy(t: string)
    ensures Tidy(Squeeze(t)) && Comps(Squeeze(t)) == Comps(t)
  {
    if t != [] {
      var u, c := t[..|t| - 1], t[|t| - 1];
      assert t == u + [c];
      SqueezeTidy(u);
      SqueezeTidyStep(u, c);
    }
  }

  lemma SqueezeTidyStep(u: string, c: char)
    requires Tidy(Squeeze(u)) && Comps(Squeeze(u)) == Comps(u)
    ensures Tidy(Squeeze(u + [c])) && Comps(Squeeze(u + [c])) == Comps(u + [c])
  {
    hide Comps;
    assert (u + [c])[..|u|] == u;
    CompsSnoc(u, c);
    CompsSnoc(Squeeze(u), Slash(c));
  }

  /** Dropping one dangling slash from the squeezed text gives the normal form. */
  lemma {:induction false} SqueezeTrim(t: string)
    ensures var q := Squeeze(t);
            Normalise(t) == if |q| > 1 && q[|q| - 1] == '/' then q[..|q| - 1] else q
  {
    if t != [] {
      SqueezeTidy(t);
      TidyRender(Squeeze(t));
    }
  }

  ghost predicate Terminated(b: string) {
    NUL in b
  }

  /**
    The clean-up of a path buffer, in place.  `offset` is both read and write position,
    and a repeated separator is deleted by moving the rest of the buffer, its NUL
    included, down by one.
  */
  method RemoveSlashes(s: array<char>)
    requires Terminated(s[..])
    modifies s
    ensures Terminated(s[..])
    ensures Text(s[..]) == Normalise(old(Text(s[..])))
  {
    ghost var t := Text(s[..]);
    var len := StrLen(s);
    var offset, matched := 0, false;
    ghost var done, rest := "", t;
    hide Squeeze, Progress, EndsInSlash, IsSep, Slash;
    ProgressBegins(t);
    while offset < len
      invariant 0 <= offset <= len < s.Length
      invariant Progress(t, done, rest)
      invariant s[..offset] == done && s[offset..len + 1] == rest + [NUL]
      invariant matched <==> EndsInSlash(done)
      decreases len - offset
    {
      ghost var c, more := rest[0], rest[1..];
      assert (rest + [NUL])[1..] == more + [NUL];
      ProgressStep(t, done, rest);
      len, offset, matched := ScanOne(s, len, offset, matched);
      done, rest := s[..offset], more;
    }
    assert rest == "";
    assert s[offset..len + 1][0] == NUL;
    ProgressDone(t, done);
    TrimEnd(s, len, t);
  }

  /** `done` is what has been written after reading all of `t` but `rest`. */
  ghost predicate Progress(t: string, done: string, rest: string) {
    |rest| <= |t| && rest == t[|t| - |rest|..] && done == Squeeze(t[..|t| - |rest|])
  }

  predicate EndsInSlash(d: string) {
    d != "" && d[|d| - 1] == '/'
  }

  lemma ProgressBegins(t: string)
    ensures Progress(t, "", t) && !EndsInSlash("")
  {
  }

  lemma ProgressStep(t: string, done: string, rest: string)
    requires Progress(t, done, rest) && rest != ""
    ensures var kept := if EndsInSlash(done) && IsSep(rest[0]) then [] else [Slash(rest[0])];
            && Progress(t, done + kept, rest[1..])
            && (EndsInSlash(done + kept) <==> IsSep(rest[0]))
  {
    SqueezeSnoc(t, |t| - |rest|);
  }

  lemma ProgressDone(t: string, done: string)
    requires Progress(t, done, "")
    ensures done == Squeeze(t)
  {
    assert t[..|t|] == t;
  }

  /** One turn of the loop: the character at `offset` is kept, turned round, or deleted. */
  method ScanOne(s: array<char>, len: nat, offset: nat, matched: bool)
    returns (len': nat, offset': nat, matched': bool)
    requires offset < len < s.Length
    modifies s
    ensures offset' <= len' <= len && len' - offset' == len - offset - 1
    ensures var c := old(s[offset..len + 1])[0];
            && s[..offset'] == old(s[..offset]) + (if matched && IsSep(c) then [] else [Slash(c)])
            && matched' == IsSep(c)
    ensures s[offset'..len' + 1] == old(s[offset..len + 1])[1..]
  {
    len', offset', matched' := len, offset, matched;
    if s[offset] == '\\' {
      s[offset] := '/';
    }
    if s[offset] == '/' {
      if matched {
        MoveDown(s, offset, len - offset);
        len' := len - 1;
      } else {
        matched' := true;
        offset' := offset + 1;
      }
    } else {
      matched' := false;
      offset' := offset + 1;
    }
  }

  /** The dangling separator is cut off by writing a NUL over it. */
  method TrimEnd(s: array<char>, len: nat, ghost t: string)
    requires len < s.Length && s[..len] == Squeeze(t) && s[len] == NUL && NUL !in t
    modifies s
    ensures Terminated(s[..]) && Text(s[..]) == Normalise(t)
  {
    SqueezeTrim(t);
    SqueezeNoNul(t);
    ghost var q := s[..len];
    if len > 1 && s[len - 1] == '/' {
      s[len - 1] := NUL;
      assert s[..len - 1] == q[..len - 1];
    }
  }

  /** memmove(s + at, s + at + 1, n). */
  method MoveDown(s: array<char>, at: nat, n: nat)
    requires at + n < s.Length
    modifies s
    ensures s[..at] == old(s[..at])
    ensures s[at..at + n] == old(s[at + 1..at + n + 1])
    ensures s[at + n..] == old(s[at + n..])
  {
    forall i | at <= i < at + n {
      s[i] := s[i + 1];
    }
  }

  lemma SqueezeSnoc(t: string, n: nat)
    requires n < |t|
    ensures var q := Squeeze(t[..n]);
            Squeeze(t[..n + 1]) ==
            if IsSep(t[n]) && q != [] && q[|q| - 1] == '/' then q else q + [Slash(t[n])]
  {
    assert t[..n + 1][..n] == t[..n];
  }

  lemma {:induction false} SqueezeNoNul(t: string)
    requires NUL !in t
    ensures NUL !in Squeeze(t)
  {
    if t != [] {
      SqueezeNoNul(t[..|t| - 1]);
    }
  }

  method StrLen(s: array<char>) returns (n: nat)
    requires Terminated(s[..])
    ensures n < s.Length && s[n] == NUL
    ensures s[..n] == Text(s[..])
  {
    ghost var z :| 0 <= z < |s[..]| && s[..][z] == NUL;
    n := 0;
    while s[n] != NUL
      invariant n <= z
      invariant forall i | 0 <= i < n :: s[i] != NUL
      decreases z - n
    {
      n := n + 1;
    }
  }

  // -------------------------------------------------------------- build_fullpath

  /** What a path builder leaves in its output buffer; a failed one leaves a cut-off path. */
  datatype Built = Built(ok: bool, path: string)

  function LastSlash(p: string): (i: int)
    ensures -1 <= i < |p|
    ensures i >= 0 ==> p[i] == '/'
    ensures forall k | i < k < |p| :: p[k] != '/'
  {
    if p == "" then -1
    else if p[|p| - 1] == '/' then |p| - 1
    else LastSlash(p[..|p| - 1])
  }

  function Parent(p: string): string {
    var i := LastSlash(p);
    if i <= 0 then "/" else if |p| - i > 1 then p[..i] else p
  }

  function BuildFullpath(pwd: string, arg: string): Built
    requires pwd != ""
  {
    var p := Normalise(arg);
    if p != "" && p[0] == '/' then Built(true, p)
    else if p == ".." then Built(true, Parent(pwd))
    else
      var joined := if pwd[|pwd| - 1] != '/' then pwd + "/" + p else pwd + p;
      if |joined| < PATHNAME_SIZE then Built(true, joined)
      else Built(false, joined[..PATHNAME_SIZE - 1])
  }

  /** A string copied to a cleared buffer: its text is the string. */
  method CopyToBuffer(arg: CString) returns (buf: array<char>)
    requires |arg| < PATHNAME_SIZE
    ensures fresh(buf) && buf.Length == PATHNAME_SIZE
    ensures Terminated(buf[..]) && Text(buf[..]) == arg
  {
    buf := new char[PATHNAME_SIZE](i requires 0 <= i => if i < |arg| then arg[i] else NUL);
    assert buf[..][|arg|] == NUL;
    assert forall k | 0 <= k < |arg| :: buf[..][k] == arg[k] && arg[k] in arg;
    assert IndexOf(buf[..], NUL) == |arg|;
    assert buf[..|arg|] == arg;
  }

  /** strrchr(p, '/'), as an index. */
  method FindLastSlash(p: string) returns (i: int)
    ensures i == LastSlash(p)
  {
    i := |p| - 1;
    assert p[..i + 1] == p;
    while i >= 0 && p[i] != '/'
      invariant -1 <= i < |p|
      invariant LastSlash(p) == LastSlash(p[..i + 1])
    {
      assert p[..i + 1][..i] == p[..i];
      i := i - 1;
    }
  }

  /** build_fullpath: the argument is cleaned up in a buffer of its own, then joined to the directory. */
  method FullPath(pwd: string, arg: CString) returns (b: Built)
    requires pwd != "" && |arg| < PATHNAME_SIZE
    ensures b == BuildFullpath(pwd, arg)
  {
    var buf := CopyToBuffer(arg);
    RemoveSlashes(buf);
    var n := StrLen(buf);
    var p := buf[..n];
    if n > 0 && buf[0] == '/' {
      b := Built(true, p);
    } else if p == ".." {
      var i := FindLastSlash(pwd);
      b := Built(true, if i <= 0 then "/" else if |pwd| - i > 1 then pwd[..i] else pwd);
    } else {
      var joined := if pwd[|pwd| - 1] != '/' then pwd + "/" + p else pwd + p;
      b := if |joined| < PATHNAME_SIZE then Built(true, joined) else Built(false, joined[..PATHNAME_SIZE - 1]);
    }
  }

  /** Where a path argument leads from a working directory, on components alone. */
  function Target(cwd: seq<string>, arg: string): seq<string>
    requires arg != ""
  {
    if IsSep(arg[0]) then Comps(arg)
    else if Comps(arg) == [".."] then (if cwd == [] then [] else cwd[..|cwd| - 1])
    else cwd + Comps(arg)
  }

  /**
    A path argument is resolved exactly as its components say, and is refused exactly
    when the resolved path does not fit its buffer.
  */
  lemma BuildFullpathMeaning(pwd: string, arg: string)
    requires CanonicalAbsolute(pwd) && |pwd| < PATHNAME_SIZE
    requires arg != "" && |arg| < PATHNAME_SIZE
    ensures var b := BuildFullpath(pwd, arg);
            var full := Render(true, Target(Comps(pwd), arg));
            && (b.ok <==> |full| < PATHNAME_SIZE)
            && (b.ok ==> b.path == full)
            && (!b.ok ==> b.path == full[..PATHNAME_SIZE - 1])
  {
    hide Comps, Join;
    CanonicalIsRender(pwd);
    CompsWellFormed(pwd);
    CompsWellFormed(arg);
    NormaliseCanonical(arg);
    assert Normalise(arg) != "";
    if IsSep(arg[0]) {
      SqueezeTrim(arg);
    } else {
      CompsOfLeadingWord(arg);
      ResolveRelative(Comps(pwd), pwd, Comps(arg), arg);
    }
  }

  lemma ResolveRelative(cs: seq<string>, pwd: string, ds: seq<string>, arg: string)
    requires WellFormed(cs) && pwd == Render(true, cs) && |pwd| < PATHNAME_SIZE
    requires WellFormed(ds) && ds == Comps(arg) && ds != []
    requires arg != "" && !IsSep(arg[0])
    ensures var full := Render(true, Target(cs, arg));
            BuildFullpath(pwd, arg) ==
            if |full| < PATHNAME_SIZE then Built(true, full) else Built(false, full[..PATHNAME_SIZE - 1])
  {
    hide Comps, LastSlash;
    assert Normalise(arg) == Join(ds);
    CompsJoin(ds);
    JoinIsDotDot(ds);
    if ds == [".."] {
      ParentRender(cs);
    } else {
      RenderAppend(cs, ds);
    }
  }

  lemma JoinIsDotDot(ds: seq<string>)
    requires WellFormed(ds)
    ensures Join(ds) == ".." <==> ds == [".."]
  {
    hide Comps;
    CompsJoin(ds);
    CompsSingle("..");
  }

  lemma ParentRender(cs: seq<string>)
    requires WellFormed(cs)
    ensures Parent(Render(true, cs)) == Render(true, if cs == [] then [] else cs[..|cs| - 1])
    ensures |Parent(Render(true, cs))| <= |Render(true, cs)|
  {
    var p := Render(true, cs);
    if cs != [] {
      var ds, w := cs[..|cs| - 1], cs[|cs| - 1];
      assert IsWord(w);
      var head := if ds == [] then "" else "/" + Join(ds);
      assert p == head + "/" + w;
      assert p[|head|] == '/';
      forall k | |head| < k < |p| ensures p[k] != '/' {
        assert p[k] == w[k - |head| - 1];
      }
      assert LastSlash(p) == |head|;
    }
  }

  lemma {:induction false} JoinConcat(cs: seq<string>, ds: seq<string>)
    requires cs != [] && ds != []
    ensures Join(cs + ds) == Join(cs) + "/" + Join(ds)
  {
    var n := |ds| - 1;
    assert (cs + ds)[..|cs + ds| - 1] == cs + ds[..n];
    if n == 0 {
      assert cs + ds[..0] == cs;
    } else {
      JoinConcat(cs, ds[..n]);
    }
  }

  lemma RenderAppend(cs: seq<string>, ds: seq<string>)
    requires WellFormed(cs) && ds != []
    ensures var p := Render(true, cs);
            Render(true, cs + ds) == if p[|p| - 1] != '/' then p + "/" + Join(ds) else p + Join(ds)
  {
    hide Comps, WellFormed, Join;
    CompsJoin(cs);
    if cs == [] {
      assert cs + ds == ds;
      JoinNothing();
    } else {
      JoinConcat(cs, ds);
      ConcatAssociative("/", Join(cs) + "/", Join(ds));
      ConcatAssociative("/", Join(cs), "/");
      assert IsSep('/');
    }
  }

  lemma JoinNothing()
    ensures Join([]) == ""
  {
  }

  /** Resolving a path keeps working directories absolute and canonical. */
  lemma BuildFullpathCanonical(pwd: string, arg: string)
    requires CanonicalAbsolute(pwd) && |pwd| < PATHNAME_SIZE
    requires arg != "" && |arg| < PATHNAME_SIZE
    ensures var b := BuildFullpath(pwd, arg);
            b.ok ==> && CanonicalAbsolute(b.path) && |b.path| < PATHNAME_SIZE
                     && Comps(b.path) == Target(Comps(pwd), arg)
  {
    hide Comps, Join, Parent;
    BuildFullpathMeaning(pwd, arg);
    CompsWellFormed(pwd);
    CompsWellFormed(arg);
    RenderIsCanonical(true, Target(Comps(pwd), arg));
    CompsRender(true, Target(Comps(pwd), arg));
  }

  /** Going into one directory by name and then to its parent comes back to the start. */
  lemma DownThenUp(pwd: string, name: string)
    requires CanonicalAbsolute(pwd) && |pwd| < PATHNAME_SIZE
    requires name != "" && |name| < PATHNAME_SIZE && !IsSep(name[0])
    requires |Comps(name)| == 1 && Comps(name) != [".."]
    requires BuildFullpath(pwd, name).ok
    ensures BuildFullpath(BuildFullpath(pwd, name).path, "..") == Built(true, pwd)
  {
    hide Comps, Join, Parent;
    var there := BuildFullpath(pwd, name).path;
    BuildFullpathCanonical(pwd, name);
    BuildFullpathMeaning(there, "..");
    CompsSingle("..");
    CanonicalIsRender(pwd);
    assert Target(Comps(there), "..") == Comps(pwd);
  }

  /** fix_path_for_device: with devices configured, "/dev:/x" is handed on as "dev:/x". */
  function FixForDevice(path: string, devices: bool): string {
    if devices && path != "" && path[0] == '/' && ':' in path then path[1..] else path
  }
}
