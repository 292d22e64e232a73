/**
  The device table of the Switch build and the translation of paths to a device and a path
  on it (src/platform/nx/utils.c).
*/
module Devices {
  import opened CText
  import P = Pathname
  import H = HostPort

  const DEVICES_MAX: nat := 32
  const NAME_MAX: nat := 128
  const FS_MAX_PATH: nat := 0x301

  datatype Entry = Entry(active: bool, name: string, shortcut: H.Option<string>)

  /** strncmp on the entry's name, then the end of the path or a colon. */
  predicate Matches(e: Entry, path: string) {
    && e.active && |e.name| <= |path| && path[..|e.name|] == e.name
    && (|path| == |e.name| || path[|e.name|] == ':')
  }

  /** The first matching slot at or after `i`, or the number of slots. */
  function Find(es: seq<Entry>, path: string, i: nat): (k: nat)
    requires i <= |es|
    ensures i <= k <= |es|
    ensures k < |es| ==> Matches(es[k], path)
    ensures forall j | i <= j < k :: !Matches(es[j], path)
    decreases |es| - i
  {
    if i == |es| || Matches(es[i], path) then i else Find(es, path, i + 1)
  }

  /** The device part of a path: what comes before its first colon. */
  function DeviceName(path: string): string {
    path[..IndexOf(path, ':')]
  }

  /** Device names as a map: the first slot mounted under a name owns it. */
  function Names(es: seq<Entry>): map<string, nat> {
    if es == [] then map[] else Claim(Names(es[..|es| - 1]), es[|es| - 1], |es| - 1)
  }

  function Claim(m: map<string, nat>, e: Entry, k: nat): map<string, nat> {
    if e.active && e.name !in m then m[e.name := k] else m
  }

  /** A name is in the map exactly if a slot has it, and leads to the first that does. */
  lemma {:induction false} NamesMeaning(es: seq<Entry>, name: string)
    ensures name in Names(es) <==> exists j :: 0 <= j < |es| && es[j].active && es[j].name == name
    ensures name in Names(es) ==>
              var k := Names(es)[name];
              && k < |es| && es[k].active && es[k].name == name
              && forall j | 0 <= j < k :: !(es[j].active && es[j].name == name)
  {
    if es != [] {
      var n := |es| - 1;
      NamesMeaning(es[..n], name);
      assert forall j | 0 <= j < n :: es[..n][j] == es[j];
      if es[n].active && es[n].name == name && name !in Names(es[..n]) {
        assert Names(es)[name] == n;
      }
    }
  }

  /** The slot the map of names gives for a path, or the number of slots. */
  function LookUp(es: seq<Entry>, path: string): nat {
    var m, name := Names(es), DeviceName(path);
    if name in m then m[name] else |es|
  }

  /** A name with a colon in it stands behind a slot that has the part before the colon for its name. */
  ghost predicate Shadowed(es: seq<Entry>) {
    forall k | 0 <= k < |es| && es[k].active && ':' in es[k].name ::
      exists j :: 0 <= j < k && es[j].active && es[j].name == DeviceName(es[k].name)
  }

  /** A slot with the path's device name matches; one that matches has that name, or one that begins with it. */
  lemma MatchesByName(e: Entry, path: string)
    ensures e.active && e.name == DeviceName(path) ==> Matches(e, path)
    ensures Matches(e, path) ==> e.name == DeviceName(path) || (':' in e.name && DeviceName(e.name) == DeviceName(path))
  {
    if Matches(e, path) {
      var n := IndexOf(path, ':');
      assert forall k | 0 <= k < |e.name| :: path[k] == e.name[k];
      if ':' !in e.name {
        assert n == |e.name|;
      } else {
        assert IndexOf(e.name, ':') == n;
      }
    }
  }

  lemma SelfMatch(e: Entry)
    requires e.active
    ensures Matches(e, e.name)
    ensures ':' in e.name ==> e.name != DeviceName(e.name)
  {
    assert e.name[..|e.name|] == e.name;
  }

  /**
   * The linear search is a lookup in the map of names, for all paths, if and only if all names with
   * colons are shadowed.
   */
  lemma FindIsLookup(es: seq<Entry>)
    ensures (forall path :: Find(es, path, 0) == LookUp(es, path)) <==> Shadowed(es)
  {
    if Shadowed(es) {
      forall path ensures Find(es, path, 0) == LookUp(es, path) {
        FindShadowed(es, path);
      }
    } else {
      var k :| 0 <= k < |es| && es[k].active && ':' in es[k].name
               && !exists j :: 0 <= j < k && es[j].active && es[j].name == DeviceName(es[k].name);
      SelfMatch(es[k]);
      NamesMeaning(es, DeviceName(es[k].name));
      hide Matches, DeviceName, Names;
      assert Find(es, es[k].name, 0) <= k < LookUp(es, es[k].name);
    }
  }

  lemma FindShadowed(es: seq<Entry>, path: string)
    requires Shadowed(es)
    ensures Find(es, path, 0) == LookUp(es, path)
  {
    forall j | 0 <= j < |es| { MatchesByName(es[j], path); }
    hide Matches, DeviceName, Names;
    NamesMeaning(es, DeviceName(path));
  }

  /** The first free slot at or after `i`, or the number of slots. */
  function Free(es: seq<Entry>, i: nat): (k: nat)
    requires i <= |es|
    ensures i <= k <= |es|
    ensures k < |es| ==> !es[k].active
    ensures forall j | i <= j < k :: es[j].active
    decreases |es| - i
  {
    if i == |es| || !es[i].active then i else Free(es, i + 1)
  }

  /** Slots are filled from the front. */
  ghost predicate Packed(es: seq<Entry>) {
    forall j | Free(es, 0) <= j < |es| :: !es[j].active
  }

  predicate GoodName(name: string) {
    1 < |name| && |name| + 1 < NAME_MAX
  }

  /** fsdev_wrapMountDevice: no name is ever looked at twice, the first free slot is taken. */
  function Mount(es: seq<Entry>, name: string, shortcut: H.Option<string>): (r: (seq<Entry>, bool)) {
    var k := Free(es, 0);
    if GoodName(name) && k < |es| then (es[k := Entry(true, name, shortcut)], true) else (es, false)
  }

  /**
    With a device mounted as "aa:b" and after it one as "aa", the path "aa:b" is found on the
    first, although it names a file on the second.
  */
  lemma ColonCollides(es: seq<Entry>, first: string, second: string)
    requires |es| >= 2 && (forall e | e in es :: !e.active) && first == "aa:b" && second == "aa"
    ensures var (es1, ok1) := Mount(es, first, H.None);
            var (es2, ok2) := Mount(es1, second, H.None);
            && ok1 && ok2 && Find(es2, first, 0) == 0 && LookUp(es2, first) == 1
            && es2[0].name == first && es2[1].name == second == DeviceName(first)
  {
    assert Free(es, 0) == 0 by { assert es[0] in es; }
    var es1 := es[0 := Entry(true, first, H.None)];
    assert Free(es1, 0) == 1 by { assert es[1] in es; }
    var es2 := es1[1 := Entry(true, second, H.None)];
    SelfMatch(es2[0]);
    ColonAt(first, 2);
    NamesMeaning(es2, second);
    assert first[..2] == second;
    hide Names;
    assert es2[1].active && es2[1].name == second;
  }

  lemma {:induction false} NamesInactiveTail(es: seq<Entry>, n: nat)
    requires n <= |es| && forall j | n <= j < |es| :: !es[j].active
    ensures Names(es) == Names(es[..n])
  {
    if n < |es| {
      NamesInactiveTail(es[..|es| - 1], n);
      assert es[..|es| - 1][..n] == es[..n];
    } else {
      assert es[..n] == es;
    }
  }

  lemma NamesUpdate(es: seq<Entry>, k: nat, e: Entry)
    requires k < |es| && forall j | k <= j < |es| :: !es[j].active
    ensures Names(es[k := e]) == Claim(Names(es), e, k)
  {
    var es' := es[k := e];
    NamesInactiveTail(es, k);
    NamesInactiveTail(es', k + 1);
    assert es'[..k + 1][..k] == es[..k];
  }

  /** Mounting refines a first-come map: a name already taken stays with its first slot. */
  lemma MountRefinesMap(es: seq<Entry>, name: string, shortcut: H.Option<string>)
    requires Packed(es)
    ensures var (es', ok) := Mount(es, name, shortcut);
            && Packed(es') && |es'| == |es|
            && (ok <==> 2 <= |name| <= 126 && exists j :: 0 <= j < |es| && !es[j].active)
            && (ok ==> Names(es') == if name in Names(es) then Names(es) else Names(es)[name := Free(es, 0)])
            && (!ok ==> es' == es)
  {
    var k := Free(es, 0);
    var (es', ok) := Mount(es, name, shortcut);
    hide Names;
    if ok {
      NamesUpdate(es, k, Entry(true, name, shortcut));
      assert Free(es', 0) >= k + 1 by {
        assert forall j | 0 <= j <= k :: es'[j].active;
      }
    }
  }

  // ------------------------------------------------------------------- translation

  /** What comes of a path; `Overflows` stands for a copy that runs past its buffer. */
  datatype Translated = NoDevice | TooLong | Overflows | To(slot: nat, out: string)

  const DEFAULT_DEVICE: string := "sdmc:"

  /** The path with its device in front; a plain absolute path is on the SD card. */
  function WithDevice(path: string): string {
    if path != "" && path[0] == '/' then (if ':' in path then path[1..] else DEFAULT_DEVICE + path) else path
  }

  /** fsdev_wrapTranslatePath */
  function Translate(es: seq<Entry>, path: string): Translated {
    var nx := WithDevice(path);
    if |nx| >= FS_MAX_PATH then (if path != "" && path[0] == '/' && ':' !in path then TooLong else Overflows)
    else Located(es, nx)
  }

  /** The slot of a path with its device in front, and the path on that device. */
  function Located(es: seq<Entry>, nx: string): Translated {
    var colon := IndexOf(nx, ':');
    if colon == |nx| then NoDevice
    else
      var k := Find(es, nx, 0);
      if k == |es| then NoDevice else OnDevice(es, k, nx[colon + 1..])
  }

  function OnDevice(es: seq<Entry>, k: nat, rest: string): Translated
    requires k < |es|
  {
    match es[k].shortcut
    case Some(s) =>
      var full := "/" + s + "/" + rest;
      if |full| >= FS_MAX_PATH then TooLong else To(k, full)
    case None => To(k, if rest == "" then "/" else rest)
  }

  /**
    The copy of a path to a buffer of 769 bytes is checked only for paths to which a device
    is prepended: a canonical absolute path runs past the buffer exactly if it names a
    device and is longer than 769 characters, whether or not its slash has been stripped.
  */
  lemma OverflowExact(es: seq<Entry>, path: string, devices: bool)
    requires P.CanonicalAbsolute(path)
    ensures Translate(es, P.FixForDevice(path, devices)) == Overflows <==> ':' in path && |path| > 769
    ensures Translate(es, path) == Overflows <==> ':' in path && |path| > 769
  {
    DevicePathsAgree(es, path, devices);
    hide Find, Matches, IndexOf;
  }

  /**
    Callers that strip the slash in front of a device and callers that do not mean the same
    file: for canonical absolute paths both ways lead to the same slot and path.
  */
  lemma DevicePathsAgree(es: seq<Entry>, path: string, devices: bool)
    requires P.CanonicalAbsolute(path)
    ensures Translate(es, P.FixForDevice(path, devices)) == Translate(es, path)
  {
    var fixed := P.FixForDevice(path, devices);
    if fixed != path {
      assert path == "/" + fixed;
      assert ':' in fixed;
      assert fixed[0] != '/';
    }
  }

  /** Canonicity is needed: behind a doubled slash the two ways part. */
  lemma DoubledSlashDisagrees(es: seq<Entry>)
    requires es == [Entry(true, "sdmc", H.None)]
    ensures Translate(es, "//sdmc:/a") == NoDevice
    ensures Translate(es, P.FixForDevice("//sdmc:/a", true)) == To(0, "/a")
  {
    var a, b, d := "//sdmc:/a", "/sdmc:/a", "sdmc:/a";
    assert a[6] == ':' && b[5] == ':';
    assert a[1..] == b && b[1..] == d;
    assert P.FixForDevice(a, true) == b && WithDevice(a) == b && WithDevice(b) == d;
    hide WithDevice, P.FixForDevice;
    SlashMatchesNothing(es, b);
    DeviceMatches(es, d);
  }

  lemma SlashMatchesNothing(es: seq<Entry>, b: string)
    requires es == [Entry(true, "sdmc", H.None)] && b != "" && b[0] == '/'
    ensures Find(es, b, 0) == 1
  {
    assert "sdmc"[0] == 's';
  }

  lemma DeviceMatches(es: seq<Entry>, d: string)
    requires es == [Entry(true, "sdmc", H.None)] && d == "sdmc:/a"
    ensures IndexOf(d, ':') == 4 && d[5..] == "/a" && Find(es, d, 0) == 0
  {
    ColonAt(d, 4);
    assert d[..4] == "sdmc";
  }

  lemma ColonAt(s: string, n: nat)
    requires n < |s| && s[n] == ':' && ':' !in s[..n]
    ensures IndexOf(s, ':') == n
  {
    assert forall k | 0 <= k < n :: s[..n][k] == s[k];
  }

  /** With a shortcut the components are those of the shortcut, then those of the remainder. */
  lemma ShortcutComponents(es: seq<Entry>, k: nat, rest: string)
    requires k < |es| && OnDevice(es, k, rest).To?
    ensures P.Comps(OnDevice(es, k, rest).out) ==
            (if es[k].shortcut.Some? then P.Comps(es[k].shortcut.value) else []) + P.Comps(rest)
  {
    hide P.Comps;
    P.CompsRoot();
    if es[k].shortcut.Some? {
      var s := es[k].shortcut.value;
      P.CompsConcat("/", s);
      P.CompsConcat("/", rest);
      P.CompsConcat("/" + s, "/" + rest);
      assert "/" + s + "/" + rest == ("/" + s) + ("/" + rest);
    } else if rest == "" {
      P.CompsEmpty();
    }
  }

  /**
    Whole translation of a plain absolute path: too long, or the SD card's slot and its own
    components behind those of a shortcut.
  */
  lemma PlainPathOnSdCard(es: seq<Entry>, path: string)
    requires Shadowed(es) && P.CanonicalAbsolute(path) && ':' !in path
    ensures var t := Translate(es, path);
            && t != Overflows
            && (|path| >= 764 ==> t == TooLong)
            && (|path| < 764 ==> (t == NoDevice <==> "sdmc" !in Names(es)))
            && (t.To? ==> "sdmc" in Names(es) && t.slot == Names(es)["sdmc"] && t.slot < |es|)
            && (t.To? ==> P.Comps(t.out) ==
                            (if es[t.slot].shortcut.Some? then P.Comps(es[t.slot].shortcut.value) else [])
                            + P.Comps(path))
  {
    hide P.Comps, Names;
    var nx := WithDevice(path);
    if |path| + 5 < FS_MAX_PATH {
      assert nx[..4] == "sdmc";
      ColonAt(nx, 4);
      assert nx[5..] == path;
      FindShadowed(es, nx);
      NamesMeaning(es, "sdmc");
      var k := Find(es, nx, 0);
      if k < |es| && OnDevice(es, k, path).To? { ShortcutComponents(es, k, path); }
    }
  }

  /** What a slot makes of the text behind the colon: its shortcut goes in front, and nothing is the root. */
  ghost predicate Placed(es: seq<Entry>, t: Translated, k: nat, rest: string)
    requires k < |es|
  {
    match es[k].shortcut
    case None => t == To(k, if rest == "" then "/" else rest)
    case Some(s) => if 2 + |s| + |rest| >= 769 then t == TooLong else t == To(k, "/" + s + "/" + rest)
  }

  /**
    Whole translation of a canonical absolute path that fits, with a device in it or without:
    the slot that owns the device's name, and the text behind the colon, or the whole path.
  */
  lemma TranslateExact(es: seq<Entry>, path: string)
    requires Shadowed(es) && P.CanonicalAbsolute(path)
    requires if ':' in path then |path| <= 769 else |path| < 764
    ensures var name := if ':' in path then DeviceName(path[1..]) else "sdmc";
            var rest := if ':' in path then path[|name| + 2..] else path;
            if name !in Names(es) then Translate(es, path) == NoDevice
            else Names(es)[name] < |es| && Placed(es, Translate(es, path), Names(es)[name], rest)
  {
    hide Names, Located, Placed, DeviceName, IndexOf, Shadowed, P.CanonicalAbsolute;
    InFront(path);
    if ':' in path {
      NamedPart(path[1..]);
      LocatedExact(es, path[1..]);
      assert path[1..][|DeviceName(path[1..])| + 1..] == path[|DeviceName(path[1..])| + 2..];
    } else {
      PlainPart(path);
      LocatedExact(es, DEFAULT_DEVICE + path);
    }
  }

  lemma InFront(path: string)
    requires P.CanonicalAbsolute(path)
    ensures path != "" && path[0] == '/' && (':' in path ==> ':' in path[1..])
  {
    assert path == "/" + path[1..];
  }

  lemma NamedPart(nx: string)
    requires ':' in nx
    ensures |DeviceName(nx)| < |nx|
  {
  }

  lemma PlainPart(path: string)
    ensures DeviceName(DEFAULT_DEVICE + path) == "sdmc" && (DEFAULT_DEVICE + path)[5..] == path
  {
    assert (DEFAULT_DEVICE + path)[..4] == "sdmc";
    ColonAt(DEFAULT_DEVICE + path, 4);
  }

  lemma LocatedExact(es: seq<Entry>, nx: string)
    requires Shadowed(es) && ':' in nx
    ensures var name := DeviceName(nx);
            && |name| < |nx|
            && if name !in Names(es) then Located(es, nx) == NoDevice
               else Names(es)[name] < |es| && Placed(es, Located(es, nx), Names(es)[name], nx[|name| + 1..])
  {
    hide Names, OnDevice, Placed, Shadowed;
    NamedPart(nx);
    FindShadowed(es, nx);
    NamesMeaning(es, DeviceName(nx));
    if DeviceName(nx) in Names(es) { OnDevicePlaced(es, Names(es)[DeviceName(nx)], nx[|DeviceName(nx)| + 1..]); }
  }

  lemma OnDevicePlaced(es: seq<Entry>, k: nat, rest: string)
    requires k < |es|
    ensures Placed(es, OnDevice(es, k, rest), k, rest)
  {
  }

  // ------------------------------------------------------------- the table in memory

  class DeviceTable {
    const entries: array<Entry>

    constructor ()
      ensures fresh(entries) && entries.Length == 32
      ensures Packed(entries[..]) && Names(entries[..]) == map[]
    {
      entries := new Entry[DEVICES_MAX](_ => Entry(false, "", H.None));
      new;
      EmptyNames(entries[..]);
    }

    /** find_entry */
    method FindEntry(path: string) returns (k: nat)
      ensures k == Find(entries[..], path, 0)
    {
      k := 0;
      while k < entries.Length
        invariant 0 <= k <= entries.Length
        invariant Find(entries[..], path, 0) == Find(entries[..], path, k)
      {
        var devLen := |entries[k].name|;
        if entries[k].active && devLen <= |path| && path[..devLen] == entries[k].name
           && (devLen == |path| || path[devLen] == ':') {
          return;
        }
        k := k + 1;
      }
    }

    /** fsdev_wrapMountDevice */
    method MountDevice(name: string, shortcut: H.Option<string>) returns (ok: bool)
      modifies entries
      ensures (entries[..], ok) == Mount(old(entries[..]), name, shortcut)
    {
      if |name| <= 1 || |name| + 1 >= NAME_MAX {
        return false;
      }
      var i := 0;
      while i < entries.Length
        invariant 0 <= i <= entries.Length
        invariant entries[..] == old(entries[..])
        invariant Free(entries[..], 0) == Free(entries[..], i)
      {
        if !entries[i].active {
          entries[i] := Entry(true, name, shortcut);
          return true;
        }
        i := i + 1;
      }
      return false;
    }

    /** fsdev_wrapTranslatePath; an unchecked copy to nxpath that does not fit ends it here. */
    method TranslatePath(path: string) returns (r: Translated)
      ensures r == Translate(entries[..], path)
    {
      hide Located;
      var nxpath: string;
      if path != "" && path[0] == '/' {
        if ':' in path {
          nxpath := path[1..];
          if |nxpath| >= FS_MAX_PATH {
            return Overflows;
          }
        } else {
          nxpath := DEFAULT_DEVICE + path;
          if |nxpath| >= FS_MAX_PATH {
            return TooLong;
          }
        }
      } else {
        nxpath := path;
        if |nxpath| >= FS_MAX_PATH {
          return Overflows;
        }
      }
      r := FromDevice(nxpath);
    }

    /** The part behind the copy: the device in front of the colon, and the path on it. */
    method FromDevice(nxpath: string) returns (r: Translated)
      ensures r == Located(entries[..], nxpath)
    {
      hide Find, Matches, IndexOf;
      var colon := IndexOf(nxpath, ':');
      if colon == |nxpath| {
        return NoDevice;
      }
      var entry := FindEntry(nxpath);
      if entry == entries.Length {
        return NoDevice;
      }
      var outpath: string;
      match entries[entry].shortcut {
        case Some(shortcut) =>
          outpath := "/" + shortcut + "/" + nxpath[colon + 1..];
          if |outpath| >= FS_MAX_PATH {
            return TooLong;
          }
        case None =>
          outpath := nxpath[colon + 1..];
          if outpath == "" {
            outpath := "/";
          }
      }
      return To(entry, outpath);
    }
  }

  lemma {:induction false} EmptyNames(es: seq<Entry>)
    requires forall e | e in es :: !e.active
    ensures Names(es) == map[]
  {
    if es != [] { EmptyNames(es[..|es| - 1]); }
  }
}
