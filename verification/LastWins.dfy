/** Lines read one after the other, of which the last that says something
    counts. */
module LastWins {
  import opened Seqs

  /** The last of the first `n` lines that `wanted` holds of. */
  function Last(lines: seq<string>, n: nat, wanted: string -> bool): (line: Option<string>)
    requires n <= |lines|
    ensures line.None? ==> forall i :: 0 <= i < n ==> !wanted(lines[i])
    ensures line.Some? ==>
              exists i :: 0 <= i < n && lines[i] == line.value && wanted(line.value)
                && forall j :: i < j < n ==> !wanted(lines[j])
  {
    if n == 0 then None
    else if wanted(lines[n - 1]) then Some(lines[n - 1])
    else Last(lines, n - 1, wanted)
  }

  lemma {:induction false} LastOfPrefix(lines: seq<string>, more: seq<string>, n: nat, wanted: string -> bool)
    requires n <= |lines|
    ensures Last(lines + more, n, wanted) == Last(lines, n, wanted)
  {
    if n > 0 { LastOfPrefix(lines, more, n - 1, wanted); }
  }

  /** What a line says, if it says anything: a name and its value. */
  type Entry = Option<(string, string)>

  function Add(values: map<string, string>, e: Entry): map<string, string> {
    if e.None? then values else values[e.value.0 := e.value.1]
  }

  predicate Names(entry: string -> Entry, line: string, name: string) {
    entry(line).Some? && entry(line).value.0 == name
  }

  /** The last line that says something of a name. */
  function LastOf(entry: string -> Entry, lines: seq<string>, name: string): (line: Option<string>)
    ensures line.Some? ==> Names(entry, line.value, name)
  {
    Last(lines, |lines|, line => Names(entry, line, name))
  }

  /** Each name with what its last line says. */
  ghost predicate IsLastOfEach(entry: string -> Entry, values: map<string, string>, lines: seq<string>) {
    && (forall name :: name in values <==> LastOf(entry, lines, name).Some?)
    && (forall name :: name in values ==>
          values[name] == entry(LastOf(entry, lines, name).value).value.1)
  }

  lemma NoLines(entry: string -> Entry)
    ensures IsLastOfEach(entry, map[], [])
  {
  }

  lemma LastOfAppended(entry: string -> Entry, lines: seq<string>, line: string, name: string)
    ensures LastOf(entry, lines + [line], name) ==
            if Names(entry, line, name) then Some(line) else LastOf(entry, lines, name)
  {
    LastOfPrefix(lines, [line], |lines|, l => Names(entry, l, name));
  }

  /** One more line. */
  lemma AddIsLast(entry: string -> Entry, values: map<string, string>, lines: seq<string>, line: string)
    requires IsLastOfEach(entry, values, lines)
    ensures IsLastOfEach(entry, Add(values, entry(line)), lines + [line])
  {
    var added := Add(values, entry(line));
    forall name: string
      ensures name in added <==> LastOf(entry, lines + [line], name).Some?
      ensures name in added ==> added[name] == entry(LastOf(entry, lines + [line], name).value).value.1
    {
      LastOfAppended(entry, lines, line, name);
    }
  }
}
