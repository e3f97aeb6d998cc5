/** crates/starla-controller/src/ssh.rs:220-329: host keys, trusted on first
    use and kept in a file. */
module KnownHosts {
  import opened Seqs
  import opened Text
  import opened SavedState
  import HostPins
  import LastWins

  /** The file's first line. */
  function Header(): string { "# Starla known " + "hosts - do not " + "edit manually" }

  type Hosts = map<string, string>

  // ---- The file ----

  /** What a line of the file says, if it says anything: a name, and the rest
      after the first blank when that holds another. */
  function EntryOf(line: string): Option<(string, string)> {
    var t := Trim(line);
    if t == "" || t[0] == '#' then None
    else
      var parts := SplitOnce(t, ' ');
      if parts.None? || SplitOnce(parts.value.1, ' ').None? then None else parts
  }

  function Loaded(hosts: Hosts, lines: seq<string>): Hosts
    decreases |lines|
  {
    if lines == [] then hosts else Loaded(LastWins.Add(hosts, EntryOf(lines[0])), lines[1..])
  }

  /** A missing or unreadable file is no hosts. */
  function LoadedFile(file: Option<string>): Hosts {
    if file.None? then map[] else Loaded(map[], Lines(file.value))
  }

  function LineFor(name: string, key: string): string { name + " " + key }

  function Body(hosts: Hosts, order: seq<string>): string
    requires forall name :: name in order ==> name in hosts
  {
    if order == [] then "" else LineFor(order[0], hosts[order[0]]) + "\n" + Body(hosts, order[1..])
  }

  function SavedText(hosts: Hosts, order: seq<string>): string
    requires forall name :: name in order ==> name in hosts
  {
    Header() + "\n" + Body(hosts, order)
  }

  /** The names of the hosts in some order: a hash map has none of its own. */
  ghost predicate IsOrder(order: seq<string>, hosts: Hosts) {
    && (forall name :: name in order <==> name in hosts)
    && (forall i, j :: 0 <= i < j < |order| ==> order[i] != order[j])
  }

  ghost predicate IsSave(text: string, hosts: Hosts) {
    exists order :: IsOrder(order, hosts) && text == SavedText(hosts, order)
  }

  /** An entry whose line reads back as it is. */
  predicate IsEntry(name: string, key: string) {
    && name != "" && name[0] != '#' && !IsSpace(name[0]) && ' ' !in name && '\n' !in name
    && key != "" && !IsSpace(key[|key| - 1]) && ' ' in key && '\n' !in key
  }

  ghost predicate AreEntries(hosts: Hosts) { forall name :: name in hosts ==> IsEntry(name, hosts[name]) }

  lemma LoadedStep(hosts: Hosts, lines: seq<string>, i: nat)
    requires i < |lines|
    ensures Loaded(hosts, lines[i..]) == Loaded(LastWins.Add(hosts, EntryOf(lines[i])), lines[i + 1..])
  {
    assert lines[i..][1..] == lines[i + 1..];
  }

  lemma SplitOnceFinds(s: string, c: char)
    ensures SplitOnce(s, c).Some? <==> c in s
  {
    var i := Find(s, c);
    assert i == |s| ==> s[..i] == s;
  }

  lemma EntryOfLine(name: string, key: string)
    requires IsEntry(name, key)
    ensures '\n' !in LineFor(name, key) && Chomp(LineFor(name, key)) == LineFor(name, key)
    ensures EntryOf(LineFor(name, key)) == Some((name, key))
  {
    var line := LineFor(name, key);
    assert line[0] == name[0] && line[|line| - 1] == key[|key| - 1];
    TrimOfTrimmed(line);
    SplitOnceOf(name, ' ', key);
    SplitOnceFinds(key, ' ');
  }

  lemma EntriesFit(line: string)
    requires '\n' !in line
    ensures var e := EntryOf(line); e.Some? ==> IsEntry(e.value.0, e.value.1)
  {
    var t, e := Trim(line), EntryOf(line);
    if e.Some? {
      var (name, key) := e.value;
      SplitOnceFinds(key, ' ');
      PartsFit(t, name, key);
    }
  }

  lemma PartsFit(t: string, name: string, key: string)
    requires IsTrimmed(t) && '\n' !in t && t != "" && t[0] != '#'
    requires SplitOnce(t, ' ') == Some((name, key)) && ' ' in key
    ensures IsEntry(name, key)
  {
    var i := Find(t, ' ');
    assert name == t[..i] && key == t[i + 1..] && IsSpace(' ');
    assert t[|t| - 1] == key[|key| - 1];
  }

  lemma AddKeepsEntries(hosts: Hosts, line: string)
    requires AreEntries(hosts) && '\n' !in line
    ensures AreEntries(LastWins.Add(hosts, EntryOf(line)))
  {
    EntriesFit(line);
    var e := EntryOf(line);
    if e.Some? { AreEntriesWith(hosts, e.value.0, e.value.1); }
  }

  lemma AreEntriesWith(hosts: Hosts, name: string, key: string)
    requires AreEntries(hosts) && IsEntry(name, key)
    ensures AreEntries(hosts[name := key])
  {
  }

  lemma {:induction false} LoadedAreEntries(hosts: Hosts, lines: seq<string>)
    requires AreEntries(hosts) && forall line :: line in lines ==> '\n' !in line
    ensures AreEntries(Loaded(hosts, lines))
    decreases |lines|
  {
    if lines != [] {
      assert lines[0] in lines;
      AddKeepsEntries(hosts, lines[0]);
      LoadedAreEntries(LastWins.Add(hosts, EntryOf(lines[0])), lines[1..]);
    }
  }

  /** The hosts of `order`, added to those loaded before. */
  function Merged(before: Hosts, hosts: Hosts, order: seq<string>): Hosts
    requires forall name :: name in order ==> name in hosts
    decreases |order|
  {
    if order == [] then before else Merged(before[order[0] := hosts[order[0]]], hosts, order[1..])
  }

  lemma {:induction false} LoadedBody(before: Hosts, hosts: Hosts, order: seq<string>)
    requires AreEntries(hosts) && forall name :: name in order ==> name in hosts
    ensures Loaded(before, Lines(Body(hosts, order))) == Merged(before, hosts, order)
    decreases |order|
  {
    if order != [] {
      var name := order[0];
      assert name in order && IsEntry(name, hosts[name]);
      EntryOfLine(name, hosts[name]);
      LinesOf(LineFor(name, hosts[name]), Body(hosts, order[1..]));
      LoadedBody(before[name := hosts[name]], hosts, order[1..]);
      assert Lines(Body(hosts, order))[1..] == Lines(Body(hosts, order[1..]));
    }
  }

  lemma {:induction false} MergedIs(before: Hosts, hosts: Hosts, order: seq<string>)
    requires forall name :: name in order ==> name in hosts
    ensures forall name :: name in Merged(before, hosts, order) <==> name in before || name in order
    ensures forall name :: name in Merged(before, hosts, order) ==>
              Merged(before, hosts, order)[name] == if name in order then hosts[name] else before[name]
    decreases |order|
  {
    if order != [] {
      MergedIs(before[order[0] := hosts[order[0]]], hosts, order[1..]);
      assert forall name :: name in order <==> name == order[0] || name in order[1..];
    }
  }

  predicate IsComment(line: string) {
    line != "" && line[0] == '#' && !IsSpace(line[|line| - 1]) && '\n' !in line
  }

  lemma HeaderIsComment()
    ensures IsComment(Header())
  {
    var a, b, c := "# Starla known ", "hosts - do not ", "edit manually";
    assert '\n' !in a && '\n' !in b && '\n' !in c && a[0] == '#' && c[12] == 'y';
    assert Header() == a + b + c;
  }

  lemma CommentIsNoEntry(line: string)
    requires IsComment(line)
    ensures Chomp(line) == line && EntryOf(line) == None
  {
    TrimOfTrimmed(line);
  }

  lemma LoadedSkips(header: string, lines: seq<string>)
    requires EntryOf(header) == None
    ensures Loaded(map[], [header] + lines) == Loaded(map[], lines)
  {
    assert ([header] + lines)[1..] == lines;
  }

  lemma MergedOrder(hosts: Hosts, order: seq<string>)
    requires IsOrder(order, hosts)
    ensures Merged(map[], hosts, order) == hosts
  {
    MergedIs(map[], hosts, order);
  }

  lemma LoadOfText(header: string, hosts: Hosts, order: seq<string>)
    requires IsComment(header) && AreEntries(hosts) && IsOrder(order, hosts)
    ensures Loaded(map[], Lines(header + "\n" + Body(hosts, order))) == hosts
  {
    CommentIsNoEntry(header);
    LinesOf(header, Body(hosts, order));
    LoadedSkips(header, Lines(Body(hosts, order)));
    LoadedBody(map[], hosts, order);
    MergedOrder(hosts, order);
  }

  /** Loading what was saved gives back the same hosts, whatever order they
      were written in. */
  lemma LoadOfSave(text: string, hosts: Hosts)
    requires AreEntries(hosts) && IsSave(text, hosts)
    ensures LoadedFile(Some(text)) == hosts
  {
    var order :| IsOrder(order, hosts) && text == SavedText(hosts, order);
    HeaderIsComment();
    LoadOfText(Header(), hosts, order);
  }

  // ---- The object kept in memory ----

  function NameOf(host: string, port: u16): string { host + ":" + Integer(port) }

  function KeyText(keyType: string, blob: string): string { keyType + " " + blob }

  /** The blob is the second word of what is kept. */
  function BlobOf(key: string): string {
    if |Words(key)| >= 2 then Words(key)[1] else ""
  }

  method ReadLine(line: string) returns (entry: Option<(string, string)>)
    ensures entry == EntryOf(line)
  {
    var t := Trim(line);
    if t == "" || t[0] == '#' { return None; }
    var parts := SplitOnce(t, ' ');
    if parts.None? { return None; }
    var rest := SplitOnce(parts.value.1, ' ');
    return if rest.Some? then parts else None;
  }

  method ReadLines(lines: seq<string>) returns (known: Hosts)
    ensures known == Loaded(map[], lines)
    ensures LastWins.IsLastOfEach(EntryOf, known, lines)
  {
    known := map[];
    LastWins.NoLines(EntryOf);
    assert lines[0..] == lines;
    for i := 0 to |lines|
      invariant Loaded(map[], lines) == Loaded(known, lines[i..])
      invariant LastWins.IsLastOfEach(EntryOf, known, lines[..i])
    {
      LoadedStep(known, lines, i);
      LastWins.AddIsLast(EntryOf, known, lines[..i], lines[i]);
      assert lines[..i + 1] == lines[..i] + [lines[i]];
      var entry := ReadLine(lines[i]);
      if entry.Some? {
        known := known[entry.value.0 := entry.value.1];
      }
    }
    assert lines[..|lines|] == lines;
  }

  class KnownHosts {
    var file: Option<string>
    var hosts: Hosts

    constructor Load(path: Option<string>)
      ensures file == path && hosts == LoadedFile(path)
    {
      file := path;
      hosts := map[];
      new;
      if path.Some? {
        var known := ReadLines(Lines(path.value));
        hosts := known;
      }
    }

    /** `saves` says whether the file could be written. */
    method Verify(host: string, port: u16, keyType: string, blob: string, saves: bool) returns (ok: bool)
      modifies this
      ensures var name := NameOf(host, port);
              if name in old(hosts) then
                && ok == (BlobOf(old(hosts)[name]) == blob)
                && hosts == old(hosts) && file == old(file)
              else
                && ok && hosts == old(hosts)[name := KeyText(keyType, blob)]
                && if saves then file.Some? && IsSave(file.value, hosts) else file == old(file)
    {
      var name := NameOf(host, port);
      if name in hosts {
        return BlobOf(hosts[name]) == blob;
      }
      hosts := hosts[name := KeyText(keyType, blob)];
      if saves {
        var text := Save();
        file := Some(text);
      }
      return true;
    }

    method Save() returns (text: string)
      ensures IsSave(text, hosts)
    {
      var todo := hosts.Keys;
      var body := "";
      ghost var order: seq<string> := [];
      while todo != {}
        invariant todo <= hosts.Keys
        invariant forall name :: name in hosts ==> (name in order <==> name !in todo)
        invariant forall name :: name in order ==> name in hosts
        invariant forall i, j :: 0 <= i < j < |order| ==> order[i] != order[j]
        invariant body == Body(hosts, order)
        decreases |todo|
      {
        var name :| name in todo;
        BodyAppend(hosts, order, name);
        body := body + LineFor(name, hosts[name]) + "\n";
        order := order + [name];
        todo := todo - {name};
      }
      text := Header() + "\n" + body;
      assert IsOrder(order, hosts);
    }
  }

  lemma {:induction false} BodyAppend(hosts: Hosts, order: seq<string>, name: string)
    requires name in hosts && forall n :: n in order ==> n in hosts
    ensures Body(hosts, order + [name]) == Body(hosts, order) + LineFor(name, hosts[name]) + "\n"
    decreases |order|
  {
    var line := LineFor(name, hosts[name]) + "\n";
    if order == [] {
      assert [name][1..] == [] && [] + [name] == [name];
      assert line + "" == line;
    } else {
      BodyAppend(hosts, order[1..], name);
      assert (order + [name])[1..] == order[1..] + [name];
    }
  }

  // ---- Runs ----

  datatype World = World(hosts: Hosts, file: Option<string>)

  datatype Event =
    | Verifies(host: string, port: u16, keyType: string, blob: string, saves: bool, ok: bool)
    | Restarts

  /** What `Verify` and `Load` do. */
  ghost predicate StepsTo(w: World, e: Event, next: World) {
    match e
    case Restarts => next == World(LoadedFile(w.file), w.file)
    case Verifies(host, port, keyType, blob, saves, ok) =>
      var name := NameOf(host, port);
      if name in w.hosts then next == w && ok == (BlobOf(w.hosts[name]) == blob)
      else
        && ok && next.hosts == w.hosts[name := KeyText(keyType, blob)]
        && if saves then next.file.Some? && IsSave(next.file.value, next.hosts) else next.file == w.file
  }

  /** A host name without blanks or a leading '#', and the words of a key. */
  predicate IsSane(e: Event) {
    e.Verifies? ==>
      && (e.host != "" ==> e.host[0] != '#') && WordEnd(e.host) == |e.host|
      && e.keyType != "" && WordEnd(e.keyType) == |e.keyType|
      && e.blob != "" && WordEnd(e.blob) == |e.blob|
  }

  ghost predicate IsRun(worlds: seq<World>, events: seq<Event>) {
    && |worlds| == |events| + 1
    && (forall i: nat :: i < |events| ==> StepAt(worlds, events, i))
  }

  ghost predicate StepAt(worlds: seq<World>, events: seq<Event>, i: nat)
    requires i < |events| && i + 1 < |worlds|
  {
    IsSane(events[i]) && StepsTo(worlds[i], events[i], worlds[i + 1])
  }

  /** The file holds what the program knows. */
  ghost predicate InStep(w: World) { AreEntries(w.hosts) && LoadedFile(w.file) == w.hosts }

  /** Any file at all is a start. */
  lemma StartsInStep(file: Option<string>)
    ensures InStep(World(LoadedFile(file), file)) && Starts(World(LoadedFile(file), file))
  {
    if file.Some? {
      LinesHaveNoBreak(file.value);
      LoadedAreEntries(map[], Lines(file.value));
    }
  }

  lemma NameFits(host: string, port: u16)
    requires NoSpace(host) && (host != "" ==> host[0] != '#')
    ensures var name := NameOf(host, port);
            NoSpace(name) && name != "" && name[0] != '#'
  {
    NumbersAreWords(port);
    var name := NameOf(host, port);
    assert forall c :: c in name ==> c in host || c == ':' || c in Integer(port);
  }

  lemma KeyFits(name: string, keyType: string, blob: string)
    requires NoSpace(name) && name != "" && name[0] != '#'
    requires keyType != "" && NoSpace(keyType) && blob != "" && NoSpace(blob)
    ensures IsEntry(name, KeyText(keyType, blob))
  {
    var key := KeyText(keyType, blob);
    assert IsSpace(' ') && IsSpace('\n');
    assert name[0] in name;
    assert key[|keyType|] == ' ';
    assert key[|key| - 1] == blob[|blob| - 1] && blob[|blob| - 1] in blob;
    assert forall c :: c in key ==> c in keyType || c == ' ' || c in blob;
  }

  lemma WholeIsWord(s: string)
    requires WordEnd(s) == |s|
    ensures NoSpace(s)
  {
    assert s[..|s|] == s;
  }

  lemma NewEntry(e: Event)
    requires e.Verifies? && IsSane(e)
    ensures IsEntry(NameOf(e.host, e.port), KeyText(e.keyType, e.blob))
    ensures BlobOf(KeyText(e.keyType, e.blob)) == e.blob
  {
    WholeIsWord(e.host);
    WholeIsWord(e.keyType);
    WholeIsWord(e.blob);
    NameFits(e.host, e.port);
    KeyFits(NameOf(e.host, e.port), e.keyType, e.blob);
    TwoWords(e.keyType, e.blob);
  }

  /** A world as what is known and what the file holds of it. */
  function PinsOf(w: World): HostPins.Pins { HostPins.Pins(w.hosts, LoadedFile(w.file)) }

  function Name(e: Event): string
    requires e.Verifies?
  {
    NameOf(e.host, e.port)
  }

  function PinEvent(e: Event): HostPins.Event {
    if e.Restarts? then HostPins.Restarts else HostPins.Presents(Name(e), KeyText(e.keyType, e.blob), e.saves)
  }

  function PinEvents(events: seq<Event>): seq<HostPins.Event> {
    seq(|events|, i requires 0 <= i < |events| => PinEvent(events[i]))
  }

  /** What is known and what the file holds can be written and read back. */
  ghost predicate CanBeSaved(w: World) { AreEntries(w.hosts) && AreEntries(LoadedFile(w.file)) }

  /** A start: all that the file holds is known. */
  ghost predicate Starts(w: World) { CanBeSaved(w) && HostPins.Covered(PinsOf(w)) }

  lemma StepIsPinStep(w: World, e: Event, next: World)
    requires CanBeSaved(w) && IsSane(e) && StepsTo(w, e, next)
    ensures CanBeSaved(next) && PinsOf(next) == HostPins.Step(PinsOf(w), PinEvent(e))
  {
    if e.Verifies? && Name(e) !in w.hosts {
      NewEntry(e);
      AreEntriesWith(w.hosts, Name(e), KeyText(e.keyType, e.blob));
      if e.saves { LoadOfSave(next.file.value, next.hosts); }
    }
  }

  lemma {:induction false} RunIsPinRun(worlds: seq<World>, events: seq<Event>, n: nat)
    requires IsRun(worlds, events) && CanBeSaved(worlds[0]) && n <= |events|
    ensures CanBeSaved(worlds[n])
    ensures PinsOf(worlds[n]) == HostPins.Run(PinsOf(worlds[0]), PinEvents(events), n)
  {
    if n > 0 {
      RunIsPinRun(worlds, events, n - 1);
      assert StepAt(worlds, events, n - 1);
      StepIsPinStep(worlds[n - 1], events[n - 1], worlds[n]);
    }
  }

  /** Event `k` keeps a new name, and its save succeeds. */
  predicate SavesNew(worlds: seq<World>, events: seq<Event>, k: nat)
    requires k < |events| && k < |worlds|
  {
    events[k].Verifies? && events[k].saves && Name(events[k]) !in worlds[k].hosts
  }

  ghost predicate SavedIn(worlds: seq<World>, events: seq<Event>, i: nat, j: nat)
    requires j <= |events| && j <= |worlds|
  {
    exists k: nat :: i <= k < j && SavesNew(worlds, events, k)
  }

  /** At each restart from event `i` to event `j` the file has the name: it had
      it in world `i`, or some new name was saved since. */
  ghost predicate Secured(worlds: seq<World>, events: seq<Event>, name: string, i: nat, j: nat)
    requires i <= j <= |events| && j < |worlds|
  {
    forall r: nat :: i <= r < j && events[r].Restarts? ==>
      name in LoadedFile(worlds[i].file) || SavedIn(worlds, events, i, r)
  }

  lemma SavesAreSaves(worlds: seq<World>, events: seq<Event>, k: nat)
    requires IsRun(worlds, events) && CanBeSaved(worlds[0]) && k < |events|
    ensures SavesNew(worlds, events, k) == HostPins.SavesAll(PinsOf(worlds[0]), PinEvents(events), k)
  {
    RunIsPinRun(worlds, events, k);
  }

  lemma SavedInIs(worlds: seq<World>, events: seq<Event>, i: nat, j: nat)
    requires IsRun(worlds, events) && CanBeSaved(worlds[0]) && i <= j <= |events|
    ensures SavedIn(worlds, events, i, j) == HostPins.SavedIn(PinsOf(worlds[0]), PinEvents(events), i, j)
  {
    forall k: nat | i <= k < j
      ensures SavesNew(worlds, events, k) == HostPins.SavesAll(PinsOf(worlds[0]), PinEvents(events), k)
    {
      SavesAreSaves(worlds, events, k);
    }
    if SavedIn(worlds, events, i, j) {
      var k: nat :| i <= k < j && SavesNew(worlds, events, k);
      assert HostPins.SavesAll(PinsOf(worlds[0]), PinEvents(events), k);
    }
    if HostPins.SavedIn(PinsOf(worlds[0]), PinEvents(events), i, j) {
      var k: nat :| i <= k < j && HostPins.SavesAll(PinsOf(worlds[0]), PinEvents(events), k);
      assert SavesNew(worlds, events, k);
    }
  }

  lemma SecuredIs(worlds: seq<World>, events: seq<Event>, name: string, i: nat, j: nat)
    requires IsRun(worlds, events) && CanBeSaved(worlds[0]) && i <= j <= |events|
    ensures Secured(worlds, events, name, i, j) ==
            HostPins.Secured(PinsOf(worlds[0]), PinEvents(events), name, i, j)
  {
    var p, es := PinsOf(worlds[0]), PinEvents(events);
    RunIsPinRun(worlds, events, i);
    forall r: nat | i <= r < j
      ensures events[r].Restarts? == es[r].Restarts?
      ensures SavedIn(worlds, events, i, r) == HostPins.SavedIn(p, es, i, r)
    {
      SavedInIs(worlds, events, i, r);
    }
  }

  /** The first restart after a key is kept leaves the name with that key if
      and only if the file already held it or some new name was saved in
      between, whichever saves fail. */
  lemma FirstRestartKeeps(worlds: seq<World>, events: seq<Event>, name: string, i: nat, r: nat)
    requires IsRun(worlds, events) && Starts(worlds[0]) && i <= r < |events|
    requires name in worlds[i].hosts
    requires events[r].Restarts? && forall k: nat :: i <= k < r ==> !events[k].Restarts?
    ensures HostPins.Holds(worlds[r + 1].hosts, name, worlds[i].hosts[name]) <==>
            name in LoadedFile(worlds[i].file) || SavedIn(worlds, events, i, r)
  {
    RunIsPinRun(worlds, events, i);
    RunIsPinRun(worlds, events, r + 1);
    SavedInIs(worlds, events, i, r);
    HostPins.FirstRestartKeeps(PinsOf(worlds[0]), PinEvents(events), name, worlds[i].hosts[name], i, r);
  }

  /** Over any run, restarts and failing saves included: a key that is kept is
      still kept later, its name not presented again meanwhile, if and only if
      the file had it at every restart in between. */
  lemma KeptIffSecured(worlds: seq<World>, events: seq<Event>, name: string, i: nat, j: nat)
    requires IsRun(worlds, events) && Starts(worlds[0]) && i <= j <= |events|
    requires name in worlds[i].hosts
    requires forall k: nat :: i <= k < j && events[k].Verifies? ==> Name(events[k]) != name
    ensures name in worlds[j].hosts <==> Secured(worlds, events, name, i, j)
    ensures name in worlds[j].hosts ==> worlds[j].hosts[name] == worlds[i].hosts[name]
  {
    RunIsPinRun(worlds, events, i);
    RunIsPinRun(worlds, events, j);
    SecuredIs(worlds, events, name, i, j);
    var p, es := PinsOf(worlds[0]), PinEvents(events);
    forall k: nat | i <= k < j && es[k].Presents?
      ensures es[k].name != name
    {
      assert events[k].Verifies?;
    }
    HostPins.KeptIffSecured(p, es, name, worlds[i].hosts[name], i, j);
  }

  lemma SecuredIsKept(worlds: seq<World>, events: seq<Event>, name: string, i: nat, j: nat)
    requires IsRun(worlds, events) && Starts(worlds[0]) && i <= j <= |events|
    requires name in worlds[i].hosts && Secured(worlds, events, name, i, j)
    ensures HostPins.Holds(worlds[j].hosts, name, worlds[i].hosts[name])
  {
    RunIsPinRun(worlds, events, i);
    RunIsPinRun(worlds, events, j);
    SecuredIs(worlds, events, name, i, j);
    HostPins.SecuredIsKept(PinsOf(worlds[0]), PinEvents(events), name, worlds[i].hosts[name], i, j);
  }

  /** An accepted key is kept, and the keys accepted next are those with its
      blob. */
  lemma AcceptedIsKept(w: World, e: Event, next: World)
    requires e.Verifies? && e.ok && IsSane(e) && StepsTo(w, e, next)
    ensures Name(e) in next.hosts && BlobOf(next.hosts[Name(e)]) == e.blob
  {
    NewEntry(e);
  }

  /** Over any run from any file, restarts and failing saves included: after a
      key is accepted for a name, exactly the keys with its blob are while the
      file has the name at every restart; and the next key presented for the
      name is accepted if and only if it has that blob or a restart came
      without. */
  lemma KeysStayPinned(worlds: seq<World>, events: seq<Event>, i: nat, j: nat)
    requires IsRun(worlds, events) && Starts(worlds[0]) && i < j < |events|
    requires events[i].Verifies? && events[i].ok && events[j].Verifies? && Name(events[i]) == Name(events[j])
    ensures Secured(worlds, events, Name(events[i]), i + 1, j) ==>
              (events[j].ok <==> events[j].blob == events[i].blob)
    ensures (forall k: nat :: i < k < j && events[k].Verifies? ==> Name(events[k]) != Name(events[i])) ==>
              (events[j].ok <==>
               events[j].blob == events[i].blob || !Secured(worlds, events, Name(events[i]), i + 1, j))
  {
    var name := Name(events[i]);
    assert StepAt(worlds, events, i) && StepAt(worlds, events, j);
    AcceptedIsKept(worlds[i], events[i], worlds[i + 1]);
    if Secured(worlds, events, name, i + 1, j) {
      SecuredIsKept(worlds, events, name, i + 1, j);
    } else if forall k: nat :: i < k < j && events[k].Verifies? ==> Name(events[k]) != name {
      KeptIffSecured(worlds, events, name, i + 1, j);
    }
  }

  lemma AllSavedIsSame(worlds: seq<World>, events: seq<Event>, n: nat)
    requires IsRun(worlds, events) && InStep(worlds[0]) && n <= |events|
    requires forall k: nat :: k < |events| && events[k].Verifies? ==> events[k].saves
    ensures LoadedFile(worlds[n].file) == worlds[n].hosts
  {
    var es := PinEvents(events);
    RunIsPinRun(worlds, events, n);
    forall k: nat | k < n && es[k].Presents?
      ensures es[k].saves
    {
      assert events[k].Verifies?;
    }
    HostPins.AllSavedIsSame(PinsOf(worlds[0]), es, n);
  }

  /** When every save succeeds: once a key is accepted for a name, exactly the
      keys with its blob ever are. */
  lemma SavedKeysStayPinned(worlds: seq<World>, events: seq<Event>, i: nat, j: nat)
    requires IsRun(worlds, events) && InStep(worlds[0]) && i < j < |events|
    requires forall k: nat :: k < |events| && events[k].Verifies? ==> events[k].saves
    requires events[i].Verifies? && events[i].ok && events[j].Verifies? && Name(events[i]) == Name(events[j])
    ensures events[j].ok <==> events[j].blob == events[i].blob
  {
    AllSavedIsSame(worlds, events, i + 1);
    assert StepAt(worlds, events, i);
    AcceptedIsKept(worlds[i], events[i], worlds[i + 1]);
    assert Secured(worlds, events, Name(events[i]), i + 1, j);
    KeysStayPinned(worlds, events, i, j);
  }

  /** Such a restart: the save of a first key fails, and after the restart
      another key is accepted for its name. */
  lemma UnsavedPinIsForgotten(host: string, port: u16, keyType: string, blob: string, other: string)
    returns (worlds: seq<World>, events: seq<Event>)
    requires blob != other
    requires IsSane(Verifies(host, port, keyType, blob, false, true))
    requires IsSane(Verifies(host, port, keyType, other, false, true))
    ensures IsRun(worlds, events) && Starts(worlds[0]) && |events| == 3
    ensures events[0] == Verifies(host, port, keyType, blob, false, true)
    ensures events[1] == Restarts
    ensures events[2] == Verifies(host, port, keyType, other, false, true)
    ensures !Secured(worlds, events, NameOf(host, port), 1, 2)
  {
    var name := NameOf(host, port);
    var none := World(map[], None);
    events := [Verifies(host, port, keyType, blob, false, true), Restarts,
               Verifies(host, port, keyType, other, false, true)];
    worlds := [none, World(map[name := KeyText(keyType, blob)], None), none,
               World(map[name := KeyText(keyType, other)], None)];
    assert StepsTo(worlds[0], events[0], worlds[1]) && StepsTo(worlds[2], events[2], worlds[3]);
    assert StepAt(worlds, events, 0) && StepAt(worlds, events, 1) && StepAt(worlds, events, 2);
    assert events[1].Restarts? && !SavedIn(worlds, events, 1, 1);
  }
}
