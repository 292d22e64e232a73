/**
  What a client gets to see that asks for a listing, spelt out line by line
  (src/ftpsrv.c, lines 326 to 405 and 492 to 572).
*/
module Listings {
  import opened CText
  import opened Session
  import opened Conduct
  import opened Transfers
  import opened Server
  import opened Deliveries
  import opened Completion
  import opened CommandLines
  import opened Dialogues
  import opened Answers
  import opened Starts
  import L = Limits
  import H = HostPort

  /** As much of a line as goes out: all of one below 1024 characters, and nothing of one above. */
  function Out(line: string): seq<byte> {
    if |line| < 1024 then line else if |line| == 1024 then line[..1023] + [NUL] else []
  }

  /** An entry is shown: not the directory itself nor its parent, and not what cannot be named or examined. */
  predicate Visible(e: DirEntry, path: string) {
    && e.name != "." && e.name != ".."
    && |path| + (if path == "/" then 0 else 1) + |e.name| <= 4096
    && e.statOk
  }

  /** NLST shows the name of each entry, LIST its long line. */
  function EntriesShown(entries: seq<DirEntry>, path: string, nlst: bool): seq<byte> {
    if entries == [] then []
    else
      var e := entries[0];
      (if Visible(e, path) then Out(if nlst then e.name + "\r\n" else e.line) else [])
      + EntriesShown(entries[1..], path, nlst)
  }

  function DevicesShown(devices: seq<Mount>, nlst: bool): seq<byte> {
    if devices == [] then []
    else
      (if nlst then "" else "drwxrwxrwx   1 " + "unknown unknown " + "            0 " + "Jan   1  1970 ")
      + devices[0] + "\r\n" + DevicesShown(devices[1..], nlst)
  }

  /** The listing of a place with these entries. */
  function ListingText(c: Config, place: string, entries: seq<DirEntry>, nlst: bool): seq<byte>
    requires place != ""
  {
    if c.devices != [] && place == "/" then DevicesShown(c.devices, nlst)
    else EntriesShown(entries, ToBackEnd(c, place), nlst)
  }

  lemma {:induction false} EntriesRendered(entries: seq<DirEntry>, path: string, nlst: bool)
    ensures Render(EntryLines(entries, path, nlst)) == EntriesShown(entries, path, nlst)
  {
    if entries != [] {
      EntriesRendered(entries[1..], path, nlst);
      var e := entries[0];
      var rest := EntryLines(entries[1..], path, nlst);
      assert Visible(e, path) == Examined(e, path);
      if Visible(e, path) {
        RenderCons(EntryLine(e, nlst), rest);
      } else {
        assert [] + rest == rest;
        assert [] + EntriesShown(entries[1..], path, nlst) == EntriesShown(entries[1..], path, nlst);
      }
    }
  }

  lemma RenderCons(line: CString, rest: seq<CString>)
    ensures Render([line] + rest) == Out(line) + Render(rest)
  {
    assert ([line] + rest)[1..] == rest;
  }

  lemma {:induction false} DevicesRendered(devices: seq<Mount>, nlst: bool)
    ensures Render(DeviceLines(devices, nlst)) == DevicesShown(devices, nlst)
  {
    if devices != [] {
      hide DeviceLine, DevicesShown, DeviceLines;
      DevicesRendered(devices[1..], nlst);
      DeviceOut(devices, nlst);
      RenderCons(DeviceLine(devices[0], nlst), DeviceLines(devices[1..], nlst));
    }
  }

  lemma DeviceOut(devices: seq<Mount>, nlst: bool)
    requires devices != []
    ensures DeviceLines(devices, nlst) == [DeviceLine(devices[0], nlst)] + DeviceLines(devices[1..], nlst)
    ensures DevicesShown(devices, nlst) == Out(DeviceLine(devices[0], nlst)) + DevicesShown(devices[1..], nlst)
  {
    assert |DeviceLine(devices[0], nlst)| < 1024;
    assert "" + devices[0] == devices[0];
  }

  /** All lines of a listing, spelt out. */
  lemma AllShown(c: Config, place: string, path: string, entries: seq<DirEntry>, mode: Mode)
    requires place != "" && path == (if DeviceList(c, place) then "/" else ToBackEnd(c, place))
    requires !DeviceList(c, place) ==> !DeviceList(c, path)
    ensures Render(AllLines(c, path, entries, mode)) == ListingText(c, place, entries, mode == Nlst)
  {
    hide EntriesShown, DevicesShown, Render, EntryLines, DeviceLines, ToBackEnd;
    if DeviceList(c, place) {
      DevicesRendered(c.devices, mode == Nlst);
    } else {
      EntriesRendered(entries, path, mode == Nlst);
    }
  }

  /**
    A client that asks for a listing of a directory or of the devices, with any argument and
    nothing left over from before, and reads to the 226, gets exactly that listing.
  */
  lemma ListingShown(c: Config, sv: Server, i: Slot, v: Verb, word: string, arg: H.Option<string>, rest: string,
                     io: Io, evs: seq<(Slot, Event)>)
    requires SvGood(c, sv) && Ready(c, View(sv, i)) && L.Settled(sv.sessions[i]) && Speakable(arg)
    requires (v == LIST && SameWord(word, "LIST")) || (v == NLST && SameWord(word, "NLST"))
    requires |Place(sv.sessions[i], arg)| < 4096 && Reachable(View(sv, i), io)
    requires DeviceList(c, Place(sv.sessions[i], arg)) || (io.entry.IsDir? && io.dirOk)
    requires var sv' := At(c, sv, i, Command(Typed(word, arg) + rest, io));
             ReadInPeace(c, sv', i, evs) && Concluded(View(Run(c, sv', evs), i), 226)
    ensures var sv' := At(c, sv, i, Command(Typed(word, arg) + rest, io));
            var place := Place(sv.sessions[i], arg);
            && place != ""
            && TrafficOf(Run(c, sv', evs).logs[i]).sent ==
               TrafficOf(sv.logs[i]).sent + ListingText(c, place, io.entries, v == NLST)
  {
    hide SvGood, Run, Step, At, Ready, Typed, Place, TrafficOf, ReadInPeace, Concluded, ListingText, AllLines, Render;
    hide Promised, Reachable, ToBackEnd, SameWord, Name, Speakable;
    GoodShaped(c, sv);
    var st := View(sv, i);
    var text := Typed(word, arg) + rest;
    var mode := if v == NLST then Nlst else List;
    ListingStarts(c, st, v, word, arg, rest, io);
    L.OneLine(c, sv, i, Command(text, io));
    L.ListingExact(c, sv, i, text, io, evs);
    var path := At(c, sv, i, Command(text, io)).sessions[i].tempPath;
    AllShown(c, Place(st.s, arg), path, io.entries, mode);
    SettledClean(st.s.transfer, AllLines(c, path, io.entries, mode));
  }

  lemma ListingStarts(c: Config, st: St, v: Verb, word: string, arg: H.Option<string>, rest: string, io: Io)
    requires Ready(c, st) && Speakable(arg) && Reachable(st, io) && |Place(st.s, arg)| < 4096
    requires (v == LIST && SameWord(word, "LIST")) || (v == NLST && SameWord(word, "NLST"))
    requires DeviceList(c, Place(st.s, arg)) || (io.entry.IsDir? && io.dirOk)
    ensures var r := Step(c, st, Command(Typed(word, arg) + rest, io));
            var place := Place(st.s, arg);
            && place != "" && !st.s.Busy()
            && r.s.transfer.mode == (if v == NLST then Nlst else List)
            && (r.s.transfer.dir.isValid || DeviceList(c, r.s.tempPath))
            && r.s.tempPath == (if DeviceList(c, place) then "/" else ToBackEnd(c, place))
            && (!DeviceList(c, place) ==> !DeviceList(c, r.s.tempPath))
            && TrafficOf(r.log).sent == TrafficOf(st.log).sent
  {
    hide Step, Typed, TrafficOf, Place, Reachable, ListOutcome, ToBackEnd, DeviceList, Good;
    var r := Step(c, st, Command(Typed(word, arg) + rest, io));
    var place := Place(st.s, arg);
    ListAnswers(c, st, v, word, arg, rest, io);
    ReadyPlace(c, st);
    PlaceKept(c, st.s, arg);
    ListingBegan(c, st, r, if v == NLST then Nlst else List, place, io);
    if !DeviceList(c, place) { L.NotDevices(c, place); }
  }

  lemma SettledClean(t: Transfer, lines: seq<CString>)
    requires t.size == 0 && t.offset == 0
    ensures Clean(t, lines)
  {
  }

  lemma ListingBegan(c: Config, st: St, r: St, mode: Mode, place: string, io: Io)
    requires Reachable(st, io) && (DeviceList(c, place) || (io.entry.IsDir? && io.dirOk)) && place != ""
    requires ListOutcome(c, st, |st.log| + 1, r, mode, place, io) && (mode == List || mode == Nlst)
    ensures r.s.transfer.mode == mode && (r.s.transfer.dir.isValid || DeviceList(c, r.s.tempPath))
    ensures r.s.tempPath == (if DeviceList(c, place) then "/" else ToBackEnd(c, place))
    ensures TrafficOf(r.log).sent == TrafficOf(st.log).sent
  {
    hide TrafficOf, ToBackEnd;
  }
}
