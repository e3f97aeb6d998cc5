/** The `KEY value` text files a probe keeps between runs
    (crates/starla-controller/src/registration.rs): one field a line. */
module SavedState {
  import opened Seqs
  import opened Text

  type u16 = x: int | 0 <= x < 0x1_0000
  type u32 = x: int | 0 <= x < 0x1_0000_0000
  type u64 = x: int | 0 <= x < 0x1_0000_0000_0000_0000
  type i64 = x: int | -0x8000_0000_0000_0000 <= x < 0x8000_0000_0000_0000

  const U16_MAX: nat := 0xFFFF
  const U32_MAX: nat := 0xFFFF_FFFF
  const U64_MAX: nat := 0xFFFF_FFFF_FFFF_FFFF
  const I64_LIMIT: int := 0x8000_0000_0000_0000

  datatype Field = Field(key: string, value: string)

  /** A value that a line holds as it is. */
  predicate IsOneLine(value: string) { IsTrimmed(value) && '\n' !in value }

  predicate IsKey(key: string) { ' ' !in key && '\n' !in key }

  function Line(f: Field): string { f.key + " " + f.value }

  function Written(fields: seq<Field>): string {
    if fields == [] then "" else Line(fields[0]) + "\n" + Written(fields[1..])
  }

  lemma {:induction false} WrittenAppend(a: seq<Field>, b: seq<Field>)
    ensures Written(a + b) == Written(a) + Written(b)
  {
    if a == [] {
      assert a + b == b;
    } else {
      WrittenAppend(a[1..], b);
      assert (a + b)[1..] == a[1..] + b;
      Associative(Line(a[0]) + "\n", Written(a[1..]), Written(b));
    }
  }

  function FieldOf(line: string): Field {
    var parts := SplitOnce(line, ' ');
    if parts.Some? then Field(parts.value.0, Trim(parts.value.1)) else Field(line, "")
  }

  function FieldsOf(lines: seq<string>): (r: seq<Field>)
    ensures |r| == |lines| && forall i :: 0 <= i < |r| ==> r[i] == FieldOf(lines[i])
  {
    if lines == [] then [] else [FieldOf(lines[0])] + FieldsOf(lines[1..])
  }

  function Fields(text: string): seq<Field> { FieldsOf(Lines(text)) }

  lemma TrimOfTrimmed(s: string)
    requires IsTrimmed(s)
    ensures Trim(s) == s
  {
  }

  lemma FieldOfLine(f: Field)
    requires IsKey(f.key) && IsOneLine(f.value)
    ensures '\n' !in Line(f) && Chomp(Line(f)) == Line(f)
    ensures FieldOf(Line(f)) == f
  {
    SplitOnceOf(f.key, ' ', f.value);
    TrimOfTrimmed(f.value);
    var line := Line(f);
    if f.value != "" {
      assert line[|line| - 1] == f.value[|f.value| - 1];
    }
  }

  /** Fields read back as they were written. */
  lemma {:induction false} FieldsOfWritten(fields: seq<Field>)
    requires forall f :: f in fields ==> IsKey(f.key) && IsOneLine(f.value)
    ensures Fields(Written(fields)) == fields
  {
    if fields != [] {
      var f, rest := fields[0], fields[1..];
      FieldOfLine(f);
      LinesOf(Line(f), Written(rest));
      FieldsOfWritten(rest);
      assert Lines(Written(fields))[1..] == Lines(Written(rest));
    }
  }

  /** Whatever the text, every value read from it fits on a line. */
  lemma FieldsAreOneLine(text: string)
    ensures forall f :: f in Fields(text) ==> IsOneLine(f.value)
  {
    LinesHaveNoBreak(text);
    forall f | f in Fields(text)
      ensures IsOneLine(f.value)
    {
      var i: nat :| i < |Fields(text)| && Fields(text)[i] == f;
      assert f == FieldOf(Lines(text)[i]) && '\n' !in Lines(text)[i];
    }
  }

  /** The fields taken one by one. */
  function Fold<S>(take: (S, Field) -> S, start: S, fields: seq<Field>): S
    decreases |fields|
  {
    if fields == [] then start else Fold(take, take(start, fields[0]), fields[1..])
  }

  lemma {:induction false} FoldAppend<S>(take: (S, Field) -> S, start: S, a: seq<Field>, b: seq<Field>)
    ensures Fold(take, start, a + b) == Fold(take, Fold(take, start, a), b)
    decreases |a|
  {
    if a == [] {
      assert a + b == b;
    } else {
      FoldAppend(take, take(start, a[0]), a[1..], b);
      assert (a + b)[1..] == a[1..] + b;
    }
  }
}
