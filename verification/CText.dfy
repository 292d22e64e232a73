/**
  C strings and the small part of sscanf and string.h that the server relies on.

  A byte is modelled as a `char`: the program only ever compares, copies and
  counts bytes, except for decimal digits.  A NUL-terminated buffer is a
  sequence of characters, and `Text` is what strlen, strcpy and strstr see of it.
*/
module CText {

  type byte = char

  const NUL: char := '\0'
  const CRLF: string := "\r\n"

  /** A string as C knows it: its text ends before the first NUL. */
  type CString = s: string | NUL !in s witness ""

  /** What stops `%[^\r\n]`: the end of the line, or of the string. */
  predicate EndsScan(c: char) {
    c == '\r' || c == '\n' || c == NUL
  }

  /** The first position of `c` in `s`, or |s|. */
  function IndexOf(s: string, c: char): (i: nat)
    ensures i <= |s|
    ensures forall k | 0 <= k < i :: s[k] != c
    ensures i < |s| ==> s[i] == c
  {
    if s == [] || s[0] == c then 0 else 1 + IndexOf(s[1..], c)
  }

  /** The characters of a buffer before its first NUL (all of them when there is none). */
  function Text(b: string): string {
    b[..IndexOf(b, NUL)]
  }

  /** How far `%<limit>[^\r\n]` gets: past at most `limit` characters, none of them CR, LF or NUL. */
  function LineSpan(s: string, limit: nat): (n: nat)
    ensures n <= |s| && n <= limit
    ensures forall k | 0 <= k < n :: !EndsScan(s[k])
    ensures n < |s| && n < limit ==> EndsScan(s[n])
  {
    if limit == 0 || s == [] || EndsScan(s[0]) then 0 else 1 + LineSpan(s[1..], limit - 1)
  }

  function ScanLine(s: string, limit: nat): CString {
    s[..LineSpan(s, limit)]
  }

  /** Scanning stops inside the line: what lies beyond its end is never looked at. */
  lemma ScanLineLocal(s: string, n: nat, limit: nat)
    requires n <= |s|
    requires exists i :: 0 <= i < n && EndsScan(s[i])
    ensures ScanLine(s, limit) == ScanLine(s[..n], limit)
  {
    var a, b := LineSpan(s, limit), LineSpan(s[..n], limit);
    assert forall k | 0 <= k < n :: s[..n][k] == s[k];
    assert a <= b <= a;
  }

  predicate CrlfAt(s: string, k: nat) {
    k + 1 < |s| && s[k] == '\r' && s[k + 1] == '\n'
  }

  /** The position of the first CRLF in `s`, or |s|: strstr(s, "\r\n"). */
  function FindCrlf(s: string): (i: nat)
    ensures i <= |s|
    ensures i < |s| ==> CrlfAt(s, i)
    ensures forall k | 0 <= k < i :: !CrlfAt(s, k)
  {
    if |s| < 2 then |s|
    else if CrlfAt(s, 0) then 0
    else
      var r := 1 + FindCrlf(s[1..]);
      assert forall k | 0 < k < r :: CrlfAt(s, k) == CrlfAt(s[1..], k - 1);
      r
  }

  function ToLower(c: char): char {
    if 'A' <= c <= 'Z' then (c as int + 32) as char else c
  }

  /** strncasecmp(s, name, strlen(name)) == 0. */
  predicate StartsWithNoCase(s: string, name: string) {
    |name| <= |s| && forall i | 0 <= i < |name| :: ToLower(s[i]) == ToLower(name[i])
  }

  function Flatten(parts: seq<seq<byte>>): (r: seq<byte>) {
    if parts == [] then [] else parts[0] + Flatten(parts[1..])
  }

  lemma {:induction false} FlattenSnoc(parts: seq<seq<byte>>, p: seq<byte>)
    ensures Flatten(parts + [p]) == Flatten(parts) + p
  {
    if parts == [] {
      assert [p][1..] == [];
    } else {
      FlattenSnoc(parts[1..], p);
      assert (parts + [p])[1..] == parts[1..] + [p];
    }
  }

  lemma ConcatAssociative(a: seq<byte>, b: seq<byte>, c: seq<byte>)
    ensures (a + b) + c == a + (b + c)
  {
  }

  lemma SameEnd(a: seq<byte>, b: seq<byte>, c: seq<byte>)
    ensures a + b == a + c <==> b == c
  {
    assert (a + b)[|a|..] == b && (a + c)[|a|..] == c;
  }

  lemma FlattenCons(p: seq<byte>, parts: seq<seq<byte>>)
    ensures Flatten([p] + parts) == p + Flatten(parts)
  {
    assert ([p] + parts)[1..] == parts;
  }
}
