/**
  What sequences of commands mean: logging in, moving about, renaming, announcing and
  dialling addresses, appending (src/ftpsrv.c, lines 634 to 1013).
*/
module Commands {
  import opened CText
  import opened Session
  import opened Conduct
  import P = Pathname
  import N = NxFile
  import H = HostPort
  import L = CommandLines
  import D = Devices

  predicate LastReply(st: St, code: nat) {
    st.log != [] && st.log[|st.log| - 1].Reply? && st.log[|st.log| - 1].code == code
  }

  // --------------------------------------------------------------------------- login

  /** The right name and then the right password let anyone in, in as many lines. */
  lemma LoginAdmits(c: Config, st: St, user: string, pass: string)
    requires !c.anon && c.user != "" && c.pass != ""
    requires ScanLine(user, NAME_SIZE) == c.user && ScanLine(pass, NAME_SIZE) == c.pass
    ensures var a := CmdUser(c, st, user);
            var b := CmdPass(c, a, pass);
            LastReply(a, 331) && LastReply(b, 230) && b.s == st.s.(auth := Valid) && b.w == st.w
  {
  }

  /** A password is taken only right after a name, and a wrong one changes nothing. */
  lemma PassNeedsName(c: Config, st: St, pass: string)
    ensures var r := CmdPass(c, st, pass);
            r.s.auth == (if st.s.auth == NeedPass && pass != "" && ScanLine(pass, NAME_SIZE) == c.pass && c.pass != ""
                         then Valid else st.s.auth)
    ensures CmdPass(c, st, pass).s == st.s.(auth := CmdPass(c, st, pass).s.auth)
  {
  }

  // ------------------------------------------------------------------- moving about

  /**
    CWD succeeds exactly if the path its components lead to fits and is the root or a
    directory; then that path is the new working directory, and otherwise nothing changes.
  */
  lemma CwdMeaning(st: St, data: string, io: Io)
    requires PwdSound(st.s) && ScanLine(data, PATH_LIMIT) != ""
    ensures var arg := ScanLine(data, PATH_LIMIT);
            var r := CmdCwd(st, data, io);
            var there := P.Render(true, P.Target(P.Comps(st.s.pwd), arg));
            && (LastReply(r, 200) <==> |there| < P.PATHNAME_SIZE && (there == "/" || io.entry.IsDir?))
            && r.s == (if LastReply(r, 200) then st.s.(pwd := there) else st.s)
            && PwdSound(r.s)
  {
    hide P.BuildFullpath, P.Render, P.Target, P.Comps, P.CanonicalAbsolute, ScanLine;
    var arg := ScanLine(data, PATH_LIMIT);
    assert |arg| < P.PATHNAME_SIZE by { ScanLineShort(data, PATH_LIMIT); }
    P.BuildFullpathMeaning(st.s.pwd, arg);
    P.BuildFullpathCanonical(st.s.pwd, arg);
    PwdNotEmpty(st.s);
  }

  lemma ScanLineShort(s: string, limit: nat)
    ensures |ScanLine(s, limit)| <= limit
  {
  }

  lemma PwdNotEmpty(s: Session)
    requires PwdSound(s)
    ensures s.pwd != ""
  {
  }

  /** CWD into one named directory and CDUP after it lead back, whenever both succeed. */
  lemma CwdThenCdup(st: St, data: string, io: Io, io': Io)
    requires PwdSound(st.s)
    requires var name := ScanLine(data, PATH_LIMIT);
             name != "" && !P.IsSep(name[0]) && |P.Comps(name)| == 1 && P.Comps(name) != [".."]
    requires LastReply(CmdCwd(st, data, io), 200)
    requires LastReply(CmdCdup(CmdCwd(st, data, io), io'), 200)
    ensures CmdCdup(CmdCwd(st, data, io), io').s == st.s
  {
    var name := ScanLine(data, PATH_LIMIT);
    P.DownThenUp(st.s.pwd, name);
    hide P.BuildFullpath, P.Comps;
  }

  /** PWD tells the working directory, or the beginning of one that has no room in a reply. */
  lemma PwdTells(c: Config, st: St, io: Io)
    ensures var r := Execute(c, st, PWD, "", io);
            && r.s == st.s && r.w == st.w && |r.log| == |st.log| + 1
            && r.log[|st.log|].Reply? && r.log[|st.log|].code == 257 && r.log[|st.log|].text <= st.s.pwd
            && (r.log[|st.log|].text == st.s.pwd <==> |st.s.pwd| <= 4088)
  {
    var text := Execute(c, st, PWD, "", io).log[|st.log|].text;
    assert text == Shown(st.s.pwd);
    assert |st.s.pwd| > SHOWN_SIZE ==> |text| == SHOWN_SIZE;
  }

  // -------------------------------------------------------------------- the command table

  /** The verb of a line is the first of the table that the line begins with; without one there is none. */
  lemma {:induction false} LookupFirst(name: string, i: nat) returns (k: nat)
    requires i <= |VERBS|
    ensures i <= k <= |VERBS|
    ensures forall j | i <= j < k :: !StartsWithNoCase(name, Name(VERBS[j]))
    ensures if k == |VERBS| then Lookup(name, i).None?
            else Lookup(name, i) == H.Some(VERBS[k]) && StartsWithNoCase(name, Name(VERBS[k]))
    decreases |VERBS| - i
  {
    hide StartsWithNoCase, Name;
    k := i;
    if i < |VERBS| && !StartsWithNoCase(name, Name(VERBS[i])) {
      k := LookupFirst(name, i + 1);
    }
  }

  // ------------------------------------------------------------------------- renaming

  /**
    RNFR is answered with a 350 exactly if its path resolves.  RNTO then renames the path
    RNFR came to, whole or cut off, exactly if its own path resolves and the file system
    agrees; in any case the path is forgotten.
  */
  lemma RenamePair(st: St, from: string, to: string, io: Io)
    requires PwdSound(st.s) && ScanLine(from, PATH_LIMIT) != "" && ScanLine(to, PATH_LIMIT) != ""
    ensures var a := Resolve(st.s, ScanLine(from, PATH_LIMIT));
            var b := Resolve(st.s, ScanLine(to, PATH_LIMIT));
            var q := CmdRnfr(st, from);
            var r := CmdRnto(q, to, io);
            && (LastReply(q, 350) <==> a.ok) && (LastReply(q, 550) <==> !a.ok)
            && (LastReply(r, 250) <==> b.ok && io.vfsOk)
            && (LastReply(r, 250) ==> r.log[|r.log| - 2] == TreeChanged(Rename, a.path, b.path))
            && r.s == st.s.(tempPath := "")
  {
    var st1 := CmdRnfr(st, from);
    RnfrTakes(st, from);
    RntoGives(st1, to, io);
    assert Resolve(st1.s, ScanLine(to, PATH_LIMIT)) == Resolve(st.s, ScanLine(to, PATH_LIMIT));
    hide Resolve, ScanLine, LastReply, CmdRnfr, CmdRnto;
  }

  lemma RnfrTakes(st: St, from: string)
    requires PwdSound(st.s) && ScanLine(from, PATH_LIMIT) != ""
    ensures var a := Resolve(st.s, ScanLine(from, PATH_LIMIT));
            var q := CmdRnfr(st, from);
            && (LastReply(q, 350) <==> a.ok) && (LastReply(q, 550) <==> !a.ok)
            && q.s == st.s.(tempPath := a.path) && a.path != ""
  {
    hide ScanLine, P.BuildFullpath, P.CanonicalAbsolute;
    PwdNotEmpty(st.s);
    BuiltNonEmpty(st.s.pwd, ScanLine(from, PATH_LIMIT));
  }

  lemma BuiltNonEmpty(pwd: string, arg: string)
    requires pwd != ""
    ensures P.BuildFullpath(pwd, arg).path != ""
  {
    hide P.Normalise;
  }

  /**
    A RNFR that is refused with a 550 because its path is too long is no obstacle: the next
    RNTO renames what is left of the path when it has been cut off.
  */
  lemma CutRename(st: St, name: string, to: string, io: Io)
    requires st.s.pwd == "/" && P.IsWord(name) && |name| == PATH_LIMIT && L.Speakable(H.Some(name))
    requires ScanLine(to, PATH_LIMIT) != "" && Resolve(st.s, ScanLine(to, PATH_LIMIT)).ok && io.vfsOk
    ensures var q := CmdRnfr(st, name + CRLF);
            var r := CmdRnto(q, to, io);
            && LastReply(q, 550) && LastReply(r, 250)
            && r.log[|r.log| - 2]
               == TreeChanged(Rename, "/" + name[..PATH_LIMIT - 1], Resolve(st.s, ScanLine(to, PATH_LIMIT)).path)
  {
    hide ScanLine, P.Normalise;
    RootSound(st.s);
    L.ScanSpoken(name, PATH_LIMIT);
    WordTooLong(name);
    hide P.BuildFullpath, LastReply, CmdRnfr, CmdRnto;
    RenamePair(st, name + CRLF, to, io);
  }

  lemma RootSound(s: Session)
    requires s.pwd == "/"
    ensures PwdSound(s)
  {
  }

  lemma WordTooLong(name: string)
    requires P.IsWord(name) && |name| == PATH_LIMIT
    ensures P.BuildFullpath("/", name) == P.Built(false, "/" + name[..PATH_LIMIT - 1])
  {
    P.WordTidy(name);
    P.NormaliseFixpoint(name);
    assert ("/" + name)[..PATH_LIMIT] == "/" + name[..PATH_LIMIT - 1];
  }

  lemma RntoGives(st: St, to: string, io: Io)
    requires ScanLine(to, PATH_LIMIT) != ""
    ensures var b := Resolve(st.s, ScanLine(to, PATH_LIMIT));
            var r := CmdRnto(st, to, io);
            && (LastReply(r, 250) <==> st.s.tempPath != "" && b.ok && io.vfsOk)
            && (LastReply(r, 250) ==> r.log[|r.log| - 2] == TreeChanged(Rename, st.s.tempPath, b.path))
            && r.s == st.s.(tempPath := "")
  {
    hide Resolve, ScanLine;
  }

  /** An RNTO uses up the old path, whatever came of it: a second one is out of sequence. */
  lemma RenameOnce(st: St, to: string, io: Io, again: string, io': Io)
    requires ScanLine(again, PATH_LIMIT) != ""
    ensures LastReply(CmdRnto(CmdRnto(st, to, io), again, io'), 503)
  {
    hide Resolve, ScanLine;
  }

  /**
    RNTO is in sequence exactly when a path is remembered; a LIST that is refused
    remembers one too, so RNTO may follow it although no RNFR was given.
  */
  lemma RntoInSequence(st: St, to: string, io: Io)
    requires ScanLine(to, PATH_LIMIT) != ""
    ensures LastReply(CmdRnto(st, to, io), 503) <==> st.s.tempPath == ""
  {
    hide Resolve, ScanLine;
  }

  lemma RefusedListThenRename(c: Config, st: St, to: string, io: Io, io': Io)
    requires PwdSound(st.s) && !DeviceList(c, st.s.pwd) && io.entry.Missing?
    requires ScanLine(to, PATH_LIMIT) != "" && Resolve(st.s, ScanLine(to, PATH_LIMIT)).ok && io'.vfsOk
    ensures var l := CmdList(c, st, "", List, io);
            LastReply(l, 450) && LastReply(CmdRnto(l, to, io'), 250)
  {
    var l := CmdList(c, st, "", List, io);
    assert ScanLine("", PATH_LIMIT) == "";
    assert l.s == st.s.(tempPath := FixedPath(c, st.s.pwd));
    assert Resolve(l.s, ScanLine(to, PATH_LIMIT)) == Resolve(st.s, ScanLine(to, PATH_LIMIT));
    FixedNonEmpty(c, st.s.pwd);
    hide Resolve, ScanLine, FixedPath;
  }

  lemma FixedNonEmpty(c: Config, path: string)
    requires path != ""
    ensures FixedPath(c, path) != ""
  {
    if FixedPath(c, path) != path {
      assert path == "/" + path[1..];
      assert ':' in path[1..];
    }
  }

  /** What DELE removes and what a rename calls the same argument are one place on one device. */
  lemma DeleteAndRenameAgree(c: Config, st: St, arg: string, es: seq<D.Entry>)
    requires PwdSound(st.s) && arg != "" && |arg| < P.PATHNAME_SIZE && Resolve(st.s, arg).ok
    ensures D.Translate(es, FixedPath(c, Resolve(st.s, arg).path)) == D.Translate(es, Resolve(st.s, arg).path)
  {
    P.BuildFullpathCanonical(st.s.pwd, arg);
    D.DevicePathsAgree(es, Resolve(st.s, arg).path, c.devices != []);
    hide D.Translate;
  }

  // -------------------------------------------------------------- addresses of data connections

  /** A 227 announces, in words PORT understands, the address and port that are listened on. */
  lemma PasvAnnounces(c: Config, st: St, io: Io, before: H.Address)
    requires H.ValidAddress(H.Address(st.s.host, st.w.port))
    requires LastReply(CmdPasv(c, st, io), 227)
    ensures var r := CmdPasv(c, st, io);
            var a := H.Address(st.s.host, st.w.port);
            && |r.log| >= 2 && r.log[|r.log| - 2] == Listener(r.s.pasvSock, a.port)
            && r.log[|r.log| - 1] == Reply(227, H.PassiveText(a))
            && H.ParsePort(r.log[|r.log| - 1].text, before) == H.Some(a)
  {
    var a := H.Address(st.s.host, st.w.port);
    assert H.PassiveText(a) + "" == H.PassiveText(a);
    EndKeeps(c, st, io.closing);
    hide TransferEnd, H.PassiveText, H.ParsePort;
    H.PortUndoesPasv(a, before, "");
  }

  /** A PORT with the text of a 227 makes the next active connection go to the announced address. */
  lemma PortDialsAnnounced(c: Config, st: St, a: H.Address, rest: string, io: Io, io': Io)
    requires H.ValidAddress(a) && (rest == "" || !H.IsDigit(rest[0]))
    ensures var p := CmdPort(c, st, H.PassiveText(a) + rest, io);
            && LastReply(p, 200) && p.s.conn.Active?
            && (DataOpen(p, io').ok ==>
                  var d := DataOpen(p, io').st;
                  d.log[|d.log| - 1] == DataSocket(d.s.dataSock, H.Some(a)))
  {
    hide H.ParsePort, TransferEnd, H.PassiveText;
    H.PortUndoesPasv(a, TransferEnd(c, st, io.closing).s.dataAddr, rest);
  }

  lemma EndKeeps(c: Config, st: St, closing: seq<N.Fault>)
    ensures var e := TransferEnd(c, st, closing);
            e.s.host == st.s.host && e.s.dataAddr == st.s.dataAddr && e.w.port == st.w.port
  {
    hide N.Close;
  }

  // ------------------------------------------------------------------------ appending

  /** The append marker outlives its APPE exactly if the command had no path to act on. */
  lemma AppendMarker(c: Config, st: St, data: string, io: Io)
    ensures CmdAppe(c, st, data, io).s.marker == -1 <==> ScanLine(data, PATH_LIMIT) == ""
  {
    hide Resolve, ScanLine, VfsOpen, VfsClose, DataOpen, FixedPath;
    var u := st.(s := st.s.(marker := 0));
    var path := FixedPath(c, Resolve(u.s, ScanLine(data, PATH_LIMIT)).path);
    MarkerKept(c, u, path, N.APPEND, io.faults, io);
    var o := VfsOpen(u, path, N.APPEND, io.faults).st;
    MarkerKept(c, o, path, N.APPEND, io.faults, io);
    MarkerKept(c, Say(DataOpen(o, io).st, 425), path, N.APPEND, io.closing, io);
  }

  lemma MarkerKept(c: Config, st: St, path: string, mode: N.OpenMode, faults: seq<N.Fault>, io: Io)
    ensures VfsOpen(st, path, mode, faults).st.s.marker == st.s.marker
    ensures VfsClose(c, st, faults).s.marker == st.s.marker
    ensures DataOpen(st, io).st.s.marker == st.s.marker
  {
    hide N.Open, N.Close, Peer;
  }
}
