/** A CRONLINE's command text: its words, its options and its header. */
module CommandLines {
  import opened Seqs

  predicate Blank(c: char) { c == ' ' || c == '\t' }

  const QUOTE := '"'

  // ---------------------------------------------------------------------
  // Words

  datatype Words = Words(tokens: seq<string>, current: string, quoted: bool)

  function AddChar(w: Words, c: char): Words {
    if c == QUOTE then w.(quoted := !w.quoted)
    else if Blank(c) && !w.quoted then
      if w.current == [] then w else w.(tokens := w.tokens + [w.current], current := [])
    else w.(current := w.current + [c])
  }

  function AddAll(w: Words, text: string): Words
    decreases text
  {
    if text == [] then w else AddAll(AddChar(w, text[0]), text[1..])
  }

  function Finished(w: Words): seq<string> {
    if w.current == [] then w.tokens else w.tokens + [w.current]
  }

  function Tokens(text: string): seq<string> {
    Finished(AddAll(Words([], [], false), text))
  }

  lemma {:induction false} AddAppend(w: Words, a: string, b: string)
    ensures AddAll(w, a + b) == AddAll(AddAll(w, a), b)
    decreases a
  {
    if a == [] {
      assert a + b == b;
    } else {
      AddAppend(AddChar(w, a[0]), a[1..], b);
      assert (a + b)[1..] == a[1..] + b;
    }
  }

  method Tokenize(text: string) returns (tokens: seq<string>)
    ensures tokens == Tokens(text)
  {
    tokens := [];
    var current: string := [];
    var inQuotes := false;
    for i := 0 to |text|
      invariant AddAll(Words([], [], false), text[..i]) == Words(tokens, current, inQuotes)
    {
      var c := text[i];
      AddAppend(Words([], [], false), text[..i], [c]);
      assert text[..i + 1] == text[..i] + [c] && [c][1..] == [];
      if c == QUOTE {
        inQuotes := !inQuotes;
      } else if Blank(c) && !inQuotes {
        if current != [] {
          tokens := tokens + [current];
          current := [];
        }
      } else {
        current := current + [c];
      }
    }
    assert text[..|text|] == text;
    if current != [] {
      tokens := tokens + [current];
    }
  }

  predicate HasBlank(s: string) { exists i :: 0 <= i < |s| && Blank(s[i]) }

  predicate AllBlank(s: string) { forall i :: 0 <= i < |s| ==> Blank(s[i]) }

  /** A word as it is written: in quotes, or bare. */
  datatype Word = Word(text: string, quotes: bool)

  /** A word that can be written: not empty, no quote in it, and in quotes if
      it has blanks. */
  predicate Writable(w: Word) {
    w.text != [] && QUOTE !in w.text && (HasBlank(w.text) ==> w.quotes)
  }

  function WriteWord(w: Word): string {
    if w.quotes then [QUOTE] + w.text + [QUOTE] else w.text
  }

  /** The words, each with the blanks after it. */
  function Write(words: seq<Word>, gaps: seq<string>): string
    requires |gaps| == |words|
  {
    if words == [] then [] else WriteWord(words[0]) + gaps[0] + Write(words[1..], gaps[1..])
  }

  function TextOf(words: seq<Word>): seq<string> {
    seq(|words|, i requires 0 <= i < |words| => words[i].text)
  }

  /** Blanks after each word, except that the last may have none. */
  predicate Gaps(words: seq<Word>, gaps: seq<string>) {
    && |gaps| == |words|
    && (forall i :: 0 <= i < |gaps| ==> AllBlank(gaps[i]))
    && (forall i :: 0 <= i < |gaps| - 1 ==> gaps[i] != [])
  }

  lemma {:induction false} AddPlain(w: Words, text: string)
    requires QUOTE !in text && (w.quoted || !HasBlank(text))
    ensures AddAll(w, text) == w.(current := w.current + text)
    decreases text
  {
    if text == [] {
      assert w.current + text == w.current;
    } else {
      assert !w.quoted ==> !Blank(text[0]);
      assert !HasBlank(text) ==> !HasBlank(text[1..]) by {
        if HasBlank(text[1..]) {
          var i :| 0 <= i < |text[1..]| && Blank(text[1..][i]);
          assert Blank(text[i + 1]);
        }
      }
      AddPlain(AddChar(w, text[0]), text[1..]);
      assert w.current + [text[0]] + text[1..] == w.current + text;
    }
  }

  lemma {:induction false} AddBlanks(w: Words, gap: string)
    requires AllBlank(gap) && !w.quoted
    ensures AddAll(w, gap) == if gap == [] then w else Words(Finished(w), [], false)
    decreases gap
  {
    if gap != [] {
      AddBlanks(AddChar(w, gap[0]), gap[1..]);
    }
  }

  lemma AddWord(w: Words, word: Word)
    requires Writable(word) && !w.quoted && w.current == []
    ensures AddAll(w, WriteWord(word)) == Words(w.tokens, word.text, false)
  {
    if word.quotes {
      assert WriteWord(word) == [QUOTE] + (word.text + [QUOTE]);
      AddAppend(w, [QUOTE], word.text + [QUOTE]);
      assert [QUOTE][1..] == [];
      var inside := w.(quoted := true);
      AddAppend(inside, word.text, [QUOTE]);
      AddPlain(inside, word.text);
    } else {
      AddPlain(w, word.text);
    }
    assert [] + word.text == word.text;
  }

  /** One word and the blanks after it. */
  lemma AddWordAndGap(w: Words, word: Word, gap: string, rest: string)
    requires Writable(word) && !w.quoted && w.current == [] && AllBlank(gap)
    ensures AddAll(w, WriteWord(word) + gap + rest) ==
            AddAll(if gap == [] then Words(w.tokens, word.text, false)
                   else Words(Finished(Words(w.tokens, word.text, false)), [], false), rest)
  {
    Associative(WriteWord(word), gap, rest);
    AddAppend(w, WriteWord(word), gap + rest);
    AddWord(w, word);
    var mid := Words(w.tokens, word.text, false);
    AddAppend(mid, gap, rest);
    AddBlanks(mid, gap);
  }

  lemma {:induction false} AddWords(w: Words, words: seq<Word>, gaps: seq<string>)
    requires Gaps(words, gaps) && !w.quoted && w.current == []
    requires forall word :: word in words ==> Writable(word)
    ensures Finished(AddAll(w, Write(words, gaps))) == w.tokens + TextOf(words)
    decreases |words|
  {
    if words == [] {
      assert w.tokens + TextOf(words) == w.tokens;
    } else {
      var word, gap, rest := words[0], gaps[0], Write(words[1..], gaps[1..]);
      assert Write(words, gaps) == WriteWord(word) + gap + rest;
      AddWordAndGap(w, word, gap, rest);
      assert TextOf(words) == [word.text] + TextOf(words[1..]);
      if gap == [] {
        assert |words| == 1;
        assert rest == [] && TextOf(words[1..]) == [];
      } else {
        AddWords(Words(w.tokens + [word.text], [], false), words[1..], gaps[1..]);
        assert w.tokens + [word.text] + TextOf(words[1..]) == w.tokens + TextOf(words);
      }
    }
  }

  /** Cutting a written command line into words gives the words back. */
  lemma TokensInvertWrite(lead: string, words: seq<Word>, gaps: seq<string>)
    requires AllBlank(lead) && Gaps(words, gaps)
    requires forall word :: word in words ==> Writable(word)
    ensures Tokens(lead + Write(words, gaps)) == TextOf(words)
  {
    var start := Words([], [], false);
    AddAppend(start, lead, Write(words, gaps));
    AddBlanks(start, lead);
    AddWords(start, words, gaps);
    assert [] + TextOf(words) == TextOf(words);
  }
}
