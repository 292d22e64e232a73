/**
  The host-port text of PASV and PORT (sections 4.1.2 and 5.3.2 of RFC 959), the %u and
  %d conversions that read it, and the counter behind passive ports
  (src/ftpsrv.c, lines 234 to 239 and 739 to 803).
*/
module HostPort {
  import opened CText

  datatype Option<+T> = None | Some(value: T)

  predicate IsDigit(c: char) {
    '0' <= c <= '9'
  }

  predicate IsSpace(c: char) {
    c == ' ' || '\t' <= c <= '\r'
  }

  function DigitValue(c: char): (v: nat)
    requires IsDigit(c)
    ensures v < 10
  {
    c as int - '0' as int
  }

  /** How many of the first `limit` characters are digits before the first that is not. */
  function DigitSpan(s: string, limit: nat): (n: nat)
    ensures n <= |s| && n <= limit
    ensures forall k | 0 <= k < n :: IsDigit(s[k])
    ensures n < |s| && n < limit ==> !IsDigit(s[n])
  {
    if limit == 0 || s == "" || !IsDigit(s[0]) then 0 else 1 + DigitSpan(s[1..], limit - 1)
  }

  function Value(ds: string): nat
    requires forall k | 0 <= k < |ds| :: IsDigit(ds[k])
  {
    if ds == "" then 0 else 10 * Value(ds[..|ds| - 1]) + DigitValue(ds[|ds| - 1])
  }

  function SkipSpace(s: string): string {
    if s != "" && IsSpace(s[0]) then SkipSpace(s[1..]) else s
  }

  /** A number read by scanf: white space, a sign that counts towards the width, digits. */
  function ScanNumber(s: string, width: nat): Option<(bool, nat, string)> {
    var t := SkipSpace(s);
    var signed := t != "" && width > 0 && (t[0] == '-' || t[0] == '+');
    var u := if signed then t[1..] else t;
    var n := DigitSpan(u, if signed then width - 1 else width);
    if n == 0 then None else Some((signed && t[0] == '-', Value(u[..n]), u[n..]))
  }

  const UINT_RANGE: nat := 0x1_0000_0000
  const INT_MAX: nat := 0x7FFF_FFFF

  /** %<width>u: a minus sign wraps around. */
  function ScanUnsigned(s: string, width: nat): Option<(nat, string)> {
    match ScanNumber(s, width)
    case None => None
    case Some((negative, v, rest)) =>
      Some((if negative then (UINT_RANGE - v % UINT_RANGE) % UINT_RANGE else v % UINT_RANGE, rest))
  }

  /** %d, for values an int can hold. */
  function ScanInt(s: string): Option<int> {
    match ScanNumber(s, |s|)
    case None => None
    case Some((negative, v, _)) =>
      if v > INT_MAX then None
      else
        var i: int := v;
        Some(if negative then -i else i)
  }

  /** `n` numbers of at most three characters with single commas between them. */
  function ScanFields(s: string, n: nat): Option<seq<nat>>
    decreases n
  {
    if n == 0 then Some([])
    else
      match ScanUnsigned(s, 3)
      case None => None
      case Some((v, rest)) =>
        if n == 1 then Some([v])
        else if rest == "" || rest[0] != ',' then None
        else
          match ScanFields(rest[1..], n - 1)
          case None => None
          case Some(vs) => Some([v] + vs)
  }

  /** What getsockname gives for a host: four bytes. */
  type Host = h: seq<nat> | |h| == 4 && (forall i | 0 <= i < 4 :: h[i] < 256) witness [0, 0, 0, 0]

  datatype Address = Address(host: seq<nat>, port: nat)

  /** Four bytes and a 16-bit port. */
  ghost predicate ValidAddress(a: Address) {
    |a.host| == 4 && (forall i | 0 <= i < 4 :: a.host[i] < 256) && a.port < 65536
  }

  /**
    What PORT makes of its argument: none without six numbers; a host that is not four
    bytes is not understood by inet_aton and leaves the old one; the port is cut to 16 bits.
  */
  function ParsePort(s: string, before: Address): Option<Address> {
    match ScanFields(s, 6)
    case None => None
    case Some(f) => PortOf(f, before)
  }

  function PortOf(f: seq<nat>, before: Address): Option<Address> {
    if |f| != 6 then None
    else
      var host := if f[0] < 256 && f[1] < 256 && f[2] < 256 && f[3] < 256 then f[..4] else before.host;
      Some(Address(host, (f[4] * 256 + f[5]) % 65536))
  }

  // -------------------------------------------------------------------- printing

  /** %u */
  function Print(n: nat): string {
    if n < 10 then [('0' as int + n) as char] else Print(n / 10) + [('0' as int + n % 10) as char]
  }

  function PrintFields(fs: seq<nat>): string {
    if fs == [] then ""
    else if |fs| == 1 then Print(fs[0])
    else Print(fs[0]) + "," + PrintFields(fs[1..])
  }

  /** The text between the parentheses of a 227 reply. */
  function PassiveText(a: Address): string {
    PrintFields(a.host + [a.port / 256, a.port % 256])
  }

  lemma {:induction false} PrintValue(n: nat)
    ensures Print(n) != "" && forall k | 0 <= k < |Print(n)| :: IsDigit(Print(n)[k])
    ensures Value(Print(n)) == n
    ensures n < 1000 ==> |Print(n)| <= 3
  {
    if n >= 10 {
      PrintValue(n / 10);
      var p := Print(n);
      assert p[..|p| - 1] == Print(n / 10);
      if n < 1000 {
        assert n / 10 >= 10 ==> n / 10 / 10 < 10;
      }
    } else {
      var p := Print(n);
      assert p[..|p| - 1] == "";
    }
  }

  lemma DigitSpanOf(p: string, rest: string, width: nat)
    requires |p| <= width && forall k | 0 <= k < |p| :: IsDigit(p[k])
    requires rest == "" || !IsDigit(rest[0])
    ensures DigitSpan(p + rest, width) == |p|
  {
    var s := p + rest;
    assert forall k | 0 <= k < |p| :: s[k] == p[k];
    assert rest != "" ==> s[|p|] == rest[0];
    assert |p| <= DigitSpan(s, width) <= |p|;
  }

  /** Reading back a printed number of up to three digits that no further digit follows. */
  lemma ScanPrinted(n: nat, rest: string)
    requires n < 1000
    requires rest == "" || !IsDigit(rest[0])
    ensures ScanUnsigned(Print(n) + rest, 3) == Some((n, rest))
  {
    hide Print, ScanNumber, Value;
    PrintValue(n);
    ScanDigits(Print(n), rest);
  }

  lemma ScanDigits(p: string, rest: string)
    requires 0 < |p| <= 3 && forall k | 0 <= k < |p| :: IsDigit(p[k])
    requires rest == "" || !IsDigit(rest[0])
    ensures ScanNumber(p + rest, 3) == Some((false, Value(p), rest))
  {
    var s := p + rest;
    assert s[0] == p[0];
    assert SkipSpace(s) == s;
    DigitSpanOf(p, rest, 3);
    assert s[..|p|] == p && s[|p|..] == rest;
  }

  lemma ScanOneField(n: nat, rest: string)
    requires n < 1000
    requires rest == "" || !IsDigit(rest[0])
    ensures ScanFields(Print(n) + rest, 1) == Some([n])
  {
    ScanPrinted(n, rest);
  }

  lemma ScanFieldsCons(s: string, t: string, fs: seq<nat>)
    requires |fs| > 1 && ScanUnsigned(s, 3) == Some((fs[0], "," + t))
    requires ScanFields(t, |fs| - 1) == Some(fs[1..])
    ensures ScanFields(s, |fs|) == Some(fs)
  {
    hide ScanUnsigned;
    assert ("," + t)[1..] == t;
    assert fs == [fs[0]] + fs[1..];
  }

  lemma PrintFieldsCons(fs: seq<nat>, rest: string)
    requires |fs| > 1
    ensures PrintFields(fs) + rest == Print(fs[0]) + ("," + (PrintFields(fs[1..]) + rest))
  {
    hide Print;
    var p, q := Print(fs[0]), PrintFields(fs[1..]);
    assert PrintFields(fs) == p + "," + q;
    hide PrintFields;
    ConcatAssociative(p + ",", q, rest);
    ConcatAssociative(p, ",", q + rest);
  }

  lemma {:induction false} ScanPrintedFields(fs: seq<nat>, rest: string)
    requires fs != [] && forall i | 0 <= i < |fs| :: fs[i] < 1000
    requires rest == "" || !IsDigit(rest[0])
    ensures ScanFields(PrintFields(fs) + rest, |fs|) == Some(fs)
  {
    hide Print, ScanUnsigned, ScanFields;
    if |fs| == 1 {
      ScanOneField(fs[0], rest);
      assert fs == [fs[0]];
    } else {
      var t := PrintFields(fs[1..]) + rest;
      PrintFieldsCons(fs, rest);
      ScanPrinted(fs[0], "," + t);
      ScanPrintedFields(fs[1..], rest);
      ScanFieldsCons(PrintFields(fs) + rest, t, fs);
    }
  }

  /** PORT understands every address PASV can announce, and understands it as that address. */
  lemma PortUndoesPasv(a: Address, before: Address, rest: string)
    requires ValidAddress(a)
    requires rest == "" || !IsDigit(rest[0])
    ensures ParsePort(PassiveText(a) + rest, before) == Some(a)
  {
    var fs := a.host + [a.port / 256, a.port % 256];
    PortOfAddress(a, before);
    ScanPrintedFields(fs, rest);
  }

  lemma PortOfAddress(a: Address, before: Address)
    requires ValidAddress(a)
    ensures PortOf(a.host + [a.port / 256, a.port % 256], before) == Some(a)
  {
    var f := a.host + [a.port / 256, a.port % 256];
    assert f[..4] == a.host;
  }

  /** %d gives back every printed number that an int can hold, with a minus in front its negative. */
  lemma ScanPrintedInt(n: nat, rest: string)
    requires n <= INT_MAX && (rest == "" || !IsDigit(rest[0]))
    ensures ScanInt(Print(n) + rest) == Some(n)
  {
    hide Print, Value;
    PrintValue(n);
    var p, s := Print(n), Print(n) + rest;
    assert s[0] == p[0];
    assert SkipSpace(s) == s;
    DigitSpanOf(p, rest, |s|);
    assert s[..|p|] == p;
  }

  lemma ScanNegative(n: nat, rest: string)
    requires n <= INT_MAX && (rest == "" || !IsDigit(rest[0]))
    ensures ScanInt("-" + Print(n) + rest).Some? && ScanInt("-" + Print(n) + rest).value == -(n as int)
  {
    hide Print, Value;
    PrintValue(n);
    var p, s := Print(n), "-" + Print(n) + rest;
    assert s[0] == '-' && s[1..] == p + rest;
    assert SkipSpace(s) == s;
    DigitSpanOf(p, rest, |s| - 1);
    assert s[1..][..|p|] == p;
  }

  lemma NoNumber(s: string)
    requires s != ""
    ensures !IsDigit(s[0]) && !IsSpace(s[0]) && s[0] != '-' && s[0] != '+' ==> ScanInt(s) == None
  {
    if !IsSpace(s[0]) { assert SkipSpace(s) == s; }
  }

  /** What PORT makes of six numbers of up to three digits, and of fewer. */
  lemma PortNumbers(fs: seq<nat>, before: Address, rest: string)
    requires |fs| == 6 && forall i | 0 <= i < 6 :: fs[i] < 1000
    requires rest == "" || !IsDigit(rest[0])
    ensures ParsePort(PrintFields(fs) + rest, before) ==
            Some(Address(if fs[0] <= 255 && fs[1] <= 255 && fs[2] <= 255 && fs[3] <= 255 then fs[..4] else before.host,
                         (fs[4] * 256 + fs[5]) % 65536))
  {
    hide PrintFields;
    ScanPrintedFields(fs, rest);
  }

  lemma {:induction false} TooFewNumbers(fs: seq<nat>, rest: string, n: nat)
    requires 0 < |fs| < n && forall i | 0 <= i < |fs| :: fs[i] < 1000
    requires rest == "" || (!IsDigit(rest[0]) && rest[0] != ',')
    ensures ScanFields(PrintFields(fs) + rest, n) == None
  {
    hide Print, ScanUnsigned;
    if |fs| == 1 {
      ScanPrinted(fs[0], rest);
    } else {
      var t := PrintFields(fs[1..]) + rest;
      PrintFieldsCons(fs, rest);
      ScanPrinted(fs[0], "," + t);
      TooFewNumbers(fs[1..], rest, n - 1);
      assert ("," + t)[1..] == t;
    }
  }

  /** Numbers are printed one after the other with commas between them. */
  lemma FieldsForm(x: nat, ys: seq<nat>)
    ensures PrintFields([x] + ys) == if ys == [] then Print(x) else Print(x) + "," + PrintFields(ys)
  {
    hide Print;
    assert ([x] + ys)[1..] == ys;
    assert ys == [] ==> [x] + ys == [x];
  }

  /**
    In a 227 these are the bytes of the host, and then the two of the port, the more
    significant first (section 4.1.2 of RFC 959).
  */
  lemma TextForm(host: Host, hi: nat, lo: nat)
    requires lo < 256
    ensures PassiveText(Address(host, 256 * hi + lo)) == PrintFields(host + [hi, lo])
  {
    hide PrintFields;
    assert (256 * hi + lo) / 256 == hi && (256 * hi + lo) % 256 == lo;
  }

  /** Numbers are printed in decimal digits. */
  lemma PrintDigits(n: nat, d: nat)
    requires d < 10
    ensures Print(10 * n + d) == (if n == 0 then "" else Print(n)) + ["0123456789"[d]]
  {
  }

  // ------------------------------------------------- numbers that leave their own line

  predicate Blank(s: string) {
    forall x | x in s :: IsSpace(x)
  }

  /** White space at the beginning is skipped, CR and LF included. */
  lemma {:induction false} SkipBlank(a: string, s: string)
    requires Blank(a)
    ensures SkipSpace(a + s) == SkipSpace(s)
  {
    if a == "" {
      assert a + s == s;
    } else {
      assert a[0] in a;
      assert (a + s)[1..] == a[1..] + s;
      SkipBlank(a[1..], s);
    }
  }

  lemma SolidTail(a: string)
    requires !Blank(a) && IsSpace(a[0])
    ensures !Blank(a[1..])
  {
    var x :| x in a && !IsSpace(x);
    var k :| 0 < k < |a| && a[k] == x;
    assert a[1..][k - 1] == x;
  }

  lemma BlankLine(a: string)
    requires Blank(a)
    ensures Blank(a + CRLF)
  {
    assert forall x | x in a + CRLF :: x in a || x == '\r' || x == '\n';
  }

  /** What is behind the first character that is no white space makes no difference to the skipping. */
  lemma {:induction false} SkipSolid(a: string, s: string)
    requires !Blank(a)
    ensures SkipSpace(a) != "" && SkipSpace(a + s) == SkipSpace(a) + s
  {
    assert (a + s)[0] == a[0];
    if IsSpace(a[0]) {
      assert (a + s)[1..] == a[1..] + s;
      SolidTail(a);
      SkipSolid(a[1..], s);
    }
  }

  /** A span of digits that stops in front of a CRLF does not depend on what is behind it. */
  lemma SpanLocal(p: string, rest: string, limit: nat)
    ensures DigitSpan(p + CRLF + rest, limit) == DigitSpan(p + CRLF, limit) <= |p|
  {
    var s, t := p + CRLF + rest, p + CRLF;
    assert s[|p|] == '\r' == t[|p|];
    assert forall k | 0 <= k < |t| :: s[k] == t[k];
    assert DigitSpan(s, limit) <= |p| && DigitSpan(t, limit) <= |p|;
  }

  lemma SpanWide(s: string, limit: nat, limit': nat)
    requires |s| <= limit && |s| <= limit'
    ensures DigitSpan(s, limit) == DigitSpan(s, limit')
  {
  }

  /** A number that begins in its line ends there. */
  lemma NumberLocal(a: string, rest: string, width: nat)
    requires !Blank(a)
    ensures match ScanNumber(a + CRLF, width)
            case None => ScanNumber(a + CRLF + rest, width).None?
            case Some((negative, v, r)) =>
              && |r| >= 2 && r[|r| - 2..] == CRLF
              && ScanNumber(a + CRLF + rest, width) == Some((negative, v, r + rest))
  {
    hide SkipSpace, DigitSpan, Value, Blank;
    var t := SkipSpace(a);
    SkipSolid(a, CRLF);
    SkipSolid(a, CRLF + rest);
    assert a + CRLF + rest == a + (CRLF + rest);
    var signed := width > 0 && (t[0] == '-' || t[0] == '+');
    var p := if signed then t[1..] else t;
    var w := if signed then width - 1 else width;
    SpanLocal(p, rest, w);
    var n := DigitSpan(p + CRLF, w);
    NumberParts(t, rest);
    assert (p + CRLF + rest)[..n] == (p + CRLF)[..n];
    assert (p + CRLF + rest)[n..] == (p + CRLF)[n..] + rest;
    assert ((p + CRLF)[n..])[|(p + CRLF)[n..]| - 2..] == CRLF;
  }

  lemma NumberParts(t: string, rest: string)
    requires t != ""
    ensures (t + CRLF)[0] == t[0] == (t + (CRLF + rest))[0]
    ensures (t + CRLF)[1..] == t[1..] + CRLF && (t + (CRLF + rest))[1..] == t[1..] + CRLF + rest
    ensures t + (CRLF + rest) == t + CRLF + rest
  {
  }

  lemma NumberWide(s: string, width: nat)
    requires |s| <= width
    ensures ScanNumber(s, width) == ScanNumber(s, |s|)
  {
    hide SkipSpace, DigitSpan, Value;
    var t := SkipSpace(s);
    SkipShorter(s);
    if t != "" {
      SpanWide(t[1..], width - 1, |s| - 1);
      SpanWide(t, width, |s|);
    }
  }

  lemma {:induction false} SkipShorter(s: string)
    ensures |SkipSpace(s)| <= |s|
  {
    if s != "" && IsSpace(s[0]) { SkipShorter(s[1..]); }
  }

  /** Nothing but white space is no number. */
  lemma BlankNumber(a: string, width: nat)
    requires Blank(a)
    ensures ScanNumber(a + CRLF, width) == None
  {
    var all := a + CRLF;
    BlankLine(a);
    SkipBlank(all, "");
    assert all + "" == all;
  }

  /** A number is read from its own line, whatever follows, if and only if there is something in it to read. */
  lemma IntLocal(a: string)
    ensures (forall rest :: ScanInt(a + CRLF + rest) == ScanInt(a + CRLF)) <==> !Blank(a)
    ensures Blank(a) ==> ScanInt(a + CRLF) == None && ScanInt(a + CRLF + ("7" + CRLF)) == Some(7)
  {
    hide ScanNumber;
    if Blank(a) {
      BlankNumber(a, |a + CRLF|);
      IntBehind(a, "7" + CRLF);
      assert ScanInt(a + CRLF + ("7" + CRLF)) == Some(7);
      assert ScanInt(a + CRLF) == None;
    } else {
      forall rest: string ensures ScanInt(a + CRLF + rest) == ScanInt(a + CRLF) {
        NumberLocal(a, rest, |a + CRLF + rest|);
        NumberWide(a + CRLF, |a + CRLF + rest|);
      }
    }
  }

  /** Behind a line with nothing in it the next is read. */
  lemma IntBehind(a: string, rest: string)
    requires Blank(a)
    ensures ScanInt(a + CRLF + rest) == ScanInt(rest)
    ensures rest == "7" + CRLF ==> ScanInt(rest) == Some(7)
  {
    hide ScanNumber, SkipSpace;
    var all := a + CRLF;
    BlankLine(a);
    SkipBlank(all, rest);
    NumberBehind(all + rest, rest);
    NumberWide(rest, |all + rest|);
    if rest == "7" + CRLF { SevenRead(rest); }
  }

  lemma NumberBehind(s: string, rest: string)
    requires SkipSpace(s) == SkipSpace(rest)
    ensures forall width: nat :: ScanNumber(s, width) == ScanNumber(rest, width)
  {
    hide SkipSpace, DigitSpan, Value;
  }

  lemma SevenRead(s: string)
    requires s == "7" + CRLF
    ensures ScanNumber(s, |s|) == Some((false, 7, CRLF))
  {
    assert SkipSpace(s) == s;
    DigitSpanOf("7", CRLF, |s|);
    assert s[..1] == "7" && s[1..] == CRLF && "7"[..0] == "";
    assert Value("7") == 7;
  }

  /** Reading `n` fields comes to the end of the line where a number should begin. */
  predicate RunsOver(a: string, n: nat)
    decreases n
  {
    n > 0 && (Blank(a) ||
              match ScanUnsigned(a + CRLF, 3)
              case None => false
              case Some((_, r)) => n > 1 && |r| > 2 && r[0] == ',' && RunsOver(r[1..|r| - 2], n - 1))
  }

  lemma UnsignedLocal(a: string, rest: string)
    requires !Blank(a)
    ensures match ScanUnsigned(a + CRLF, 3)
            case None => ScanUnsigned(a + CRLF + rest, 3).None?
            case Some((v, r)) =>
              && |r| >= 2 && r[|r| - 2..] == CRLF && r == r[..|r| - 2] + CRLF
              && ScanUnsigned(a + CRLF + rest, 3) == Some((v, r + rest))
  {
    NumberLocal(a, rest, 3);
    hide ScanNumber;
  }

  /** Behind the comma the rest of the line goes on. */
  lemma BehindComma(r: string, rest: string)
    requires |r| >= 2 && r[|r| - 2..] == CRLF && r[0] == ','
    ensures |r| > 2 && r[1..] == r[1..|r| - 2] + CRLF
    ensures (r + rest)[0] == ',' && (r + rest)[1..] == r[1..|r| - 2] + CRLF + rest
  {
    assert r[|r| - 2] == '\r';
  }

  lemma {:induction false} FieldsStay(a: string, rest: string, n: nat)
    requires !RunsOver(a, n)
    ensures ScanFields(a + CRLF + rest, n) == ScanFields(a + CRLF, n)
    decreases n
  {
    hide ScanUnsigned;
    if n > 0 {
      UnsignedLocal(a, rest);
      match ScanUnsigned(a + CRLF, 3)
      case None =>
      case Some((v, r)) =>
        if n > 1 && r[0] == ',' {
          BehindComma(r, rest);
          FieldsStay(r[1..|r| - 2], rest, n - 1);
        } else {
          assert (r + rest)[0] == r[0];
        }
    }
  }

  /** If it comes there, some next line completes what was none. */
  lemma {:induction false} FieldsRunOver(a: string, n: nat) returns (rest: string)
    requires RunsOver(a, n)
    ensures ScanFields(a + CRLF, n) == None && ScanFields(a + CRLF + rest, n).Some?
    decreases n
  {
    hide ScanUnsigned, PrintFields;
    if Blank(a) {
      var ones: seq<nat> := seq(n, _ => 1);
      rest := PrintFields(ones);
      BlankFields(a, rest, n);
      ScanPrintedFields(ones, "");
      assert rest + "" == rest;
    } else {
      var r := ScanUnsigned(a + CRLF, 3).value.1;
      UnsignedLocal(a, "");
      BehindComma(r, "");
      rest := FieldsRunOver(r[1..|r| - 2], n - 1);
      UnsignedLocal(a, rest);
      BehindComma(r, rest);
    }
  }

  lemma BlankFields(a: string, rest: string, n: nat)
    requires Blank(a) && n > 0
    ensures ScanFields(a + CRLF, n) == None
    ensures ScanFields(a + CRLF + rest, n) == ScanFields(rest, n)
  {
    hide ScanNumber, SkipSpace;
    var all := a + CRLF;
    BlankLine(a);
    BlankNumber(a, 3);
    SkipBlank(all, rest);
    NumberBehind(all + rest, rest);
  }

  /**
    The address of PORT comes from its own line, whatever follows, if and only if the reading
    does not come to the end of the line where a number should begin.
  */
  lemma PortLocal(a: string, before: Address)
    ensures (forall rest :: ParsePort(a + CRLF + rest, before) == ParsePort(a + CRLF, before)) <==> !RunsOver(a, 6)
    ensures RunsOver(a, 6) ==> ParsePort(a + CRLF, before) == None
  {
    hide ScanFields, RunsOver;
    if RunsOver(a, 6) {
      var rest := FieldsRunOver(a, 6);
      FieldCount(a + CRLF + rest, 6);
      assert ParsePort(a + CRLF + rest, before) != ParsePort(a + CRLF, before);
    } else {
      forall rest: string ensures ParsePort(a + CRLF + rest, before) == ParsePort(a + CRLF, before) {
        FieldsStay(a, rest, 6);
      }
    }
  }

  lemma {:induction false} FieldCount(s: string, n: nat)
    ensures ScanFields(s, n).Some? ==> |ScanFields(s, n).value| == n
    decreases n
  {
    hide ScanUnsigned;
    if n > 1 && ScanUnsigned(s, 3).Some? {
      var r := ScanUnsigned(s, 3).value.1;
      if r != "" { FieldCount(r[1..], n - 1); }
    }
  }

  // ---------------------------------------------------------------- passive ports

  const FIRST_PORT: nat := 49152
  const LAST_PORT: nat := 65535

  predicate InRange(port: nat) {
    FIRST_PORT <= port <= LAST_PORT
  }

  /** The port after `p`: socket_bind_port's step. */
  function NextPort(p: nat): nat {
    if p == LAST_PORT then FIRST_PORT else p + 1
  }

  /** The k-th port picked since the program started. */
  function Pick(k: nat): nat {
    if k == 0 then FIRST_PORT else NextPort(Pick(k - 1))
  }

  lemma {:induction false} PickClosedForm(k: nat)
    ensures Pick(k) == 49152 + k % 16384
  {
    if k > 0 {
      PickClosedForm(k - 1);
    }
  }

  /** Two picks coincide only a multiple of 16384 apart; all lie in the dynamic range. */
  lemma PicksDistinct(j: nat, k: nat)
    requires j < k < j + 16384
    ensures Pick(j) != Pick(k)
    ensures InRange(Pick(k))
  {
    hide Pick;
    PickClosedForm(j);
    PickClosedForm(k);
    var a, b := j / 16384, k / 16384;
    assert k % 16384 - j % 16384 == (k - j) - 16384 * (b - a);
  }
}
