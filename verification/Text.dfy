/** The string operations the saved files go through: `lines`, `trim`,
    `split_once`, `split_whitespace`, and numbers printed and read in base
    ten. */
module Text {
  import opened Seqs

  // ---- Characters ----

  /** `char::is_whitespace`: the White_Space property. */
  predicate IsSpace(c: char) {
    var n := c as int;
    || 9 <= n <= 13 || n == 0x20 || n == 0x85 || n == 0xA0 || n == 0x1680
    || 0x2000 <= n <= 0x200A || n == 0x2028 || n == 0x2029 || n == 0x202F
    || n == 0x205F || n == 0x3000
  }

  ghost predicate NoSpace(s: string) { forall c :: c in s ==> !IsSpace(c) }

  /** The first `c` in `s`, or its length. */
  function Find(s: string, c: char): (i: nat)
    ensures i <= |s| && c !in s[..i]
    ensures i < |s| ==> s[i] == c
  {
    if s == "" || s[0] == c then 0 else 1 + Find(s[1..], c)
  }

  lemma {:induction false} FindAfter(s: string, c: char, rest: string)
    requires c !in s
    ensures Find(s + [c] + rest, c) == |s|
  {
    if s != "" {
      assert s[0] in s;
      FindAfter(s[1..], c, rest);
      assert (s + [c] + rest)[1..] == s[1..] + [c] + rest;
    }
  }

  // ---- Lines ----

  /** A line ended by LF, without the CR before it. */
  function Chomp(line: string): string {
    if line != "" && line[|line| - 1] == '\r' then line[..|line| - 1] else line
  }

  /** `str::lines`: a last line without LF is a line, and keeps its CR. */
  function Lines(text: string): seq<string>
    decreases |text|
  {
    var i := Find(text, '\n');
    if text == "" then []
    else if i == |text| then [text]
    else [Chomp(text[..i])] + Lines(text[i + 1..])
  }

  lemma LinesOf(line: string, rest: string)
    requires '\n' !in line
    ensures Lines(line + "\n" + rest) == [Chomp(line)] + Lines(rest)
  {
    var text := line + "\n" + rest;
    FindAfter(line, '\n', rest);
    assert text[..|line|] == line && text[|line| + 1..] == rest;
  }

  lemma {:induction false} LinesHaveNoBreak(text: string)
    ensures forall line :: line in Lines(text) ==> '\n' !in line
    decreases |text|
  {
    var i := Find(text, '\n');
    if i < |text| { LinesHaveNoBreak(text[i + 1..]); }
  }

  // ---- Trim ----

  function TrimStart(s: string): (r: string)
    ensures |r| <= |s| && r == s[|s| - |r|..]
    ensures r != "" ==> !IsSpace(r[0])
  {
    if s != "" && IsSpace(s[0]) then TrimStart(s[1..]) else s
  }

  function TrimEnd(s: string): (r: string)
    ensures |r| <= |s| && r == s[..|r|]
    ensures r != "" ==> !IsSpace(r[|r| - 1])
  {
    if s != "" && IsSpace(s[|s| - 1]) then TrimEnd(s[..|s| - 1]) else s
  }

  function Trim(s: string): (r: string)
    ensures |r| <= |s| && IsTrimmed(r)
    ensures forall c :: c in r ==> c in s
  {
    TrimEnd(TrimStart(s))
  }

  predicate IsTrimmed(s: string) {
    s != "" ==> !IsSpace(s[0]) && !IsSpace(s[|s| - 1])
  }

  // ---- Fields ----

  function SplitOnce(s: string, c: char): Option<(string, string)> {
    var i := Find(s, c);
    if i < |s| then Some((s[..i], s[i + 1..])) else None
  }

  lemma SplitOnceOf(key: string, c: char, value: string)
    requires c !in key
    ensures SplitOnce(key + [c] + value, c) == Some((key, value))
  {
    FindAfter(key, c, value);
    var s := key + [c] + value;
    assert s[..|key|] == key && s[|key| + 1..] == value;
  }

  /** The length of the first word of a string that starts with one. */
  function WordEnd(s: string): (i: nat)
    ensures i <= |s| && NoSpace(s[..i])
    ensures i < |s| ==> IsSpace(s[i])
  {
    if s == "" || IsSpace(s[0]) then 0
    else
      var i := WordEnd(s[1..]);
      assert s[..1 + i] == [s[0]] + s[1..][..i];
      1 + i
  }

  /** `str::split_whitespace`. */
  function Words(s: string): (r: seq<string>)
    ensures forall w :: w in r ==> w != "" && NoSpace(w)
    decreases |s|
  {
    if s == "" then []
    else if IsSpace(s[0]) then Words(s[1..])
    else [s[..WordEnd(s)]] + Words(s[WordEnd(s)..])
  }

  lemma {:induction false} WordEndOf(w: string, rest: string)
    requires NoSpace(w) && (rest == "" || IsSpace(rest[0]))
    ensures WordEnd(w + rest) == |w|
  {
    if w == "" {
      assert w + rest == rest;
    } else {
      assert w[0] in w;
      WordEndOf(w[1..], rest);
      assert (w + rest)[1..] == w[1..] + rest;
    }
  }

  lemma WordsOf(w: string, rest: string)
    requires w != "" && NoSpace(w) && (rest == "" || IsSpace(rest[0]))
    ensures Words(w + rest) == [w] + Words(rest)
  {
    var s := w + rest;
    assert s[0] == w[0] && w[0] in w;
    WordEndOf(w, rest);
    assert s[..|w|] == w && s[|w|..] == rest;
  }

  /** Two words with one space between them. */
  lemma TwoWords(a: string, b: string)
    requires a != "" && b != "" && NoSpace(a) && NoSpace(b)
    ensures Words(a + " " + b) == [a, b]
  {
    WordsOf(a, " " + b);
    WordsOf(b, "");
    assert a + (" " + b) == a + " " + b;
    assert (" " + b)[1..] == b && b + "" == b;
  }

  // ---- Numbers ----

  function Digit(d: int): char
    requires 0 <= d < 10
  {
    '0' + d as char
  }

  predicate IsDigit(c: char) { '0' <= c <= '9' }

  function DigitValue(c: char): int { c as int - '0' as int }

  function Decimal(n: nat): (s: string)
    ensures s != "" && forall c :: c in s ==> IsDigit(c)
  {
    if n < 10 then [Digit(n)] else Decimal(n / 10) + [Digit(n % 10)]
  }

  function Integer(n: int): string {
    if n < 0 then "-" + Decimal(-n) else Decimal(n)
  }

  function Digits(s: string): Option<nat> {
    if s == "" then Some(0)
    else
      var c := s[|s| - 1];
      var high := Digits(s[..|s| - 1]);
      if high.None? || !IsDigit(c) then None else Some(10 * high.value + DigitValue(c))
  }

  lemma {:induction false} DigitsOfDecimal(n: nat)
    ensures Digits(Decimal(n)) == Some(n)
  {
    var s := Decimal(n);
    if n < 10 {
      assert s[..|s| - 1] == "";
    } else {
      DigitsOfDecimal(n / 10);
      assert s[..|s| - 1] == Decimal(n / 10);
    }
  }

  /** `str::parse` for an unsigned type whose largest value is `max`. */
  function ParseUnsigned(s: string, max: nat): (r: Option<nat>)
    ensures r.Some? ==> r.value <= max
  {
    var digits := if s != "" && s[0] == '+' then s[1..] else s;
    var n := Digits(digits);
    if digits == "" || n.None? || n.value > max then None else n
  }

  /** `str::parse` for the signed type of the values from `-limit` to
      `limit - 1`. */
  function ParseSigned(s: string, limit: int): (r: Option<int>)
    ensures r.Some? ==> -limit <= r.value < limit
  {
    var signed := s != "" && (s[0] == '+' || s[0] == '-');
    var digits := if signed then s[1..] else s;
    var n := Digits(digits);
    if digits == "" || n.None? then None
    else
      var v: int := if signed && s[0] == '-' then 0 - n.value else n.value;
      if -limit <= v < limit then Some(v) else None
  }

  lemma UnsignedRoundTrip(n: nat, max: nat)
    requires n <= max
    ensures ParseUnsigned(Decimal(n), max) == Some(n)
  {
    DigitsOfDecimal(n);
    assert IsDigit(Decimal(n)[0]);
  }

  lemma SignedRoundTrip(n: int, limit: int)
    requires -limit <= n < limit
    ensures ParseSigned(Integer(n), limit) == Some(n)
  {
    var s := Integer(n);
    if n < 0 {
      var digits := Decimal(-n);
      DigitsOfDecimal(-n);
      assert s[0] == '-' && s[1..] == digits;
    } else {
      DigitsOfDecimal(n);
      assert s[0] in s && IsDigit(s[0]);
    }
  }

  /** A printed number holds nothing a line or a field could break on. */
  lemma NumbersAreWords(n: int)
    ensures NoSpace(Integer(n)) && Integer(n) != "" && IsTrimmed(Integer(n))
  {
    if n < 0 {
      assert forall c :: c in Decimal(-n) ==> IsDigit(c);
    } else {
      assert forall c :: c in Decimal(n) ==> IsDigit(c);
    }
    assert Integer(n)[0] in Integer(n) && Integer(n)[|Integer(n)| - 1] in Integer(n);
  }
}
