/** getopt_long() as the DNS measurement's command line is read with it. */
module Getopts {
  import opened Seqs
  import opened Commands
  import CommandLines

  /** What an option sets. */
  datatype DigOpt =
    | Query(qtype: nat) | Type | Class | QueryName | Chaos(name: string)
    | V4 | V6 | Both | Atlas | Bundle | ClientSubnet | Cookies | Do
    | Edns0 | EdnsVersion | EdnsFlags | EdnsOption | Ipv6DestOption
    | Interface | Nsid | Port | OutFile | Rd | Tcp | Timeout | Qbuf | NoAbuf
    | Tls | Https | SniCertName | HttpsPath | Ttl | Ad | Cd | Retry | Resolv
    | PrependProbeId | Evdns | WriteResponse | ReadResponse | Refused

  datatype ShortOpt = ShortOpt(hasArg: bool, opt: DigOpt)

  datatype LongOpt = LongOpt(name: string, hasArg: bool, opt: DigOpt)

  /** The options a command takes, by letter and by name. */
  datatype Table = Table(short: char -> Option<ShortOpt>, longs: seq<LongOpt>)

  function EvtdigShort(c: char): Option<ShortOpt> {
    match c
    case '4' => Some(ShortOpt(false, V4))
    case '6' => Some(ShortOpt(false, V6))
    case 'a' => Some(ShortOpt(false, Both))
    case 'd' => Some(ShortOpt(false, Do))
    case 'D' => Some(ShortOpt(true, Refused))
    case 'e' => Some(ShortOpt(true, Edns0))
    case 't' => Some(ShortOpt(false, Tcp))
    case 'b' => Some(ShortOpt(false, Chaos("version.bind.")))
    case 'h' => Some(ShortOpt(false, Chaos("hostname.bind.")))
    case 'i' => Some(ShortOpt(false, Chaos("id.server.")))
    case 'n' => Some(ShortOpt(false, Nsid))
    case 'q' => Some(ShortOpt(false, Refused))
    case '?' => Some(ShortOpt(false, Refused))
    case 'O' => Some(ShortOpt(true, OutFile))
    case 'R' => Some(ShortOpt(false, Rd))
    case 'r' => Some(ShortOpt(false, Chaos("version.server.")))
    case 's' => Some(ShortOpt(true, Query(6)))
    case 'A' => Some(ShortOpt(true, Atlas))
    case 'B' => Some(ShortOpt(true, Bundle))
    case 'I' => Some(ShortOpt(true, Interface))
    case _ => None
  }

  const EVTDIG_LONGOPTS: seq<LongOpt> := [
    LongOpt("a", true, Query(1)),
    LongOpt("aaaa", true, Query(28)),
    LongOpt("any", true, Query(255)),
    LongOpt("afsdb", true, Query(18)),
    LongOpt("apl", true, Query(42)),
    LongOpt("axfr", true, Query(252)),
    LongOpt("caa", true, Query(257)),
    LongOpt("cert", true, Query(37)),
    LongOpt("cname", true, Query(5)),
    LongOpt("dlv", true, Query(32769)),
    LongOpt("dname", true, Query(39)),
    LongOpt("dnskey", true, Query(48)),
    LongOpt("ds", true, Query(43)),
    LongOpt("ipseckey", true, Query(45)),
    LongOpt("key", true, Query(25)),
    LongOpt("loc", true, Query(29)),
    LongOpt("mx", true, Query(15)),
    LongOpt("naptr", true, Query(35)),
    LongOpt("ns", true, Query(2)),
    LongOpt("nsec", true, Query(47)),
    LongOpt("nsec3", true, Query(50)),
    LongOpt("nsec3param", true, Query(51)),
    LongOpt("ptr", true, Query(12)),
    LongOpt("rrsig", true, Query(46)),
    LongOpt("rp", true, Query(17)),
    LongOpt("soa", true, Query(6)),
    LongOpt("sig", true, Query(24)),
    LongOpt("spf", true, Query(99)),
    LongOpt("sshfp", true, Query(44)),
    LongOpt("srv", true, Query(33)),
    LongOpt("ta", true, Query(32768)),
    LongOpt("tlsa", true, Query(52)),
    LongOpt("tsig", true, Query(250)),
    LongOpt("txt", true, Query(16)),
    LongOpt("type", true, Type),
    LongOpt("class", true, Class),
    LongOpt("query", true, QueryName),
    LongOpt("hostname.bind", false, Chaos("hostname.bind.")),
    LongOpt("id.server", false, Chaos("id.server.")),
    LongOpt("version.bind", false, Chaos("version.bind.")),
    LongOpt("version.server", false, Chaos("version.server.")),
    LongOpt("c_output", false, Refused),
    LongOpt("ad", false, Ad),
    LongOpt("cd", false, Cd),
    LongOpt("client-subnet", false, ClientSubnet),
    LongOpt("cookies", false, Cookies),
    LongOpt("do", false, Do),
    LongOpt("evdns", false, Evdns),
    LongOpt("noabuf", false, NoAbuf),
    LongOpt("nsid", false, Nsid),
    LongOpt("p_probe_id", false, PrependProbeId),
    LongOpt("qbuf", false, Qbuf),
    LongOpt("resolv", false, Resolv),
    LongOpt("tls", false, Tls),
    LongOpt("https", false, Https),
    LongOpt("sni-cert-name", true, SniCertName),
    LongOpt("https-path", true, HttpsPath),
    LongOpt("ttl", false, Ttl),
    LongOpt("edns0", true, Edns0),
    LongOpt("edns-flags", true, EdnsFlags),
    LongOpt("edns-option", true, EdnsOption),
    LongOpt("edns-version", true, EdnsVersion),
    LongOpt("ipv6-dest-option", true, Ipv6DestOption),
    LongOpt("out-file", true, OutFile),
    LongOpt("port", true, Port),
    LongOpt("retry", true, Retry),
    LongOpt("timeout", true, Timeout),
    LongOpt("write-response", true, WriteResponse),
    LongOpt("read-response", true, ReadResponse)
  ]

  const EVTDIG := Table(EvtdigShort, EVTDIG_LONGOPTS)

  type Opts = seq<(DigOpt, string)>

  datatype Parse = Ok(opts: Opts, operands: seq<string>) | Err(arg: string)

  // ---------------------------------------------------------------------
  // Names

  /** The first option of exactly this name. */
  function Exact(longs: seq<LongOpt>, name: string): Option<LongOpt> {
    if longs == [] then None
    else if longs[0].name == name then Some(longs[0])
    else Exact(longs[1..], name)
  }

  /** The options whose name begins with this one. */
  function Prefixed(longs: seq<LongOpt>, name: string): seq<LongOpt> {
    if longs == [] then []
    else (if StartsWith(longs[0].name, name) then [longs[0]] else []) + Prefixed(longs[1..], name)
  }

  /** An option by its exact name, or by a prefix no other option has. */
  function Resolve(longs: seq<LongOpt>, name: string): Option<LongOpt> {
    var exact := Exact(longs, name);
    var prefixed := Prefixed(longs, name);
    if exact.Some? then exact else if |prefixed| == 1 then Some(prefixed[0]) else None
  }

  function FirstEq(s: string): (i: nat)
    ensures i <= |s| && '=' !in s[..i] && (i < |s| ==> s[i] == '=')
  {
    if s == [] || s[0] == '=' then 0 else 1 + FirstEq(s[1..])
  }

  // ---------------------------------------------------------------------
  // The parser

  function Prepend(opts: Opts, operands: seq<string>, p: Parse): Parse {
    match p
    case Ok(o, r) => Ok(opts + o, operands + r)
    case Err(_) => p
  }

  function Getopt(t: Table, args: seq<string>): Parse
    decreases |args|, 0
  {
    if args == [] then Ok([], []) else
    var arg, rest := args[0], args[1..];
    if arg == "--" then Ok([], rest)
    else if StartsWith(arg, "--") then LongArg(t, arg, rest)
    else if |arg| > 1 && arg[0] == '-' then ShortArgs(t, arg, 1, rest)
    else Prepend([], [arg], Getopt(t, rest))
  }

  function LongArg(t: Table, arg: string, rest: seq<string>): Parse
    requires StartsWith(arg, "--")
    decreases |rest|, 1
  {
    var long := arg[2..];
    var i := FirstEq(long);
    match Resolve(t.longs, long[..i])
    case None => Err(arg)
    case Some(o) =>
      if i < |long| then
        if o.hasArg then Prepend([(o.opt, long[i + 1..])], [], Getopt(t, rest)) else Err(arg)
      else if !o.hasArg then Prepend([(o.opt, "")], [], Getopt(t, rest))
      else if rest == [] then Err(arg)
      else Prepend([(o.opt, rest[0])], [], Getopt(t, rest[1..]))
  }

  /** The letters of `arg` from `k` on. */
  function ShortArgs(t: Table, arg: string, k: nat, rest: seq<string>): Parse
    requires k <= |arg|
    decreases |rest|, 1, |arg| - k
  {
    if k == |arg| then Getopt(t, rest) else
    match t.short(arg[k])
    case None => Err(arg)
    case Some(o) =>
      if !o.hasArg then Prepend([(o.opt, "")], [], ShortArgs(t, arg, k + 1, rest))
      else if k + 1 < |arg| then Prepend([(o.opt, arg[k + 1..])], [], Getopt(t, rest))
      else if rest == [] then Err(arg)
      else Prepend([(o.opt, rest[0])], [], Getopt(t, rest[1..]))
  }

  lemma PrependTwice(o1: Opts, r1: seq<string>, o2: Opts, r2: seq<string>, p: Parse)
    ensures Prepend(o1, r1, Prepend(o2, r2, p)) == Prepend(o1 + o2, r1 + r2, p)
  {
    if p.Ok? {
      assert o1 + (o2 + p.opts) == o1 + o2 + p.opts;
      assert r1 + (r2 + p.operands) == r1 + r2 + p.operands;
    }
  }

  lemma PrependNothing(p: Parse)
    ensures Prepend([], [], p) == p
  {
    if p.Ok? {
      assert [] + p.opts == p.opts && [] + p.operands == p.operands;
    }
  }

  method LongOption(t: Table, arg: string, args: seq<string>, i: nat)
    returns (bad: bool, found: (DigOpt, string), next: nat)
    requires i <= |args| && StartsWith(arg, "--")
    ensures i <= next <= |args|
    ensures LongArg(t, arg, args[i..]) ==
            if bad then Err(arg) else Prepend([found], [], Getopt(t, args[next..]))
  {
    bad, found, next := true, (Refused, ""), i;
    var long := arg[2..];
    var eq := FirstEq(long);
    var o := Resolve(t.longs, long[..eq]);
    if o.None? {
      return;
    }
    var value := "";
    if eq < |long| {
      if !o.value.hasArg {
        return;
      }
      value := long[eq + 1..];
    } else if o.value.hasArg {
      if i == |args| {
        return;
      }
      value := args[i];
      next := i + 1;
      assert args[i..][0] == value && args[i..][1..] == args[next..];
    }
    bad, found := false, (o.value.opt, value);
  }

  method ShortOptions(t: Table, arg: string, args: seq<string>, i: nat) returns (bad: bool, found: Opts, next: nat)
    requires i <= |args| && |arg| > 1
    ensures i <= next <= |args|
    ensures ShortArgs(t, arg, 1, args[i..]) ==
            if bad then Err(arg) else Prepend(found, [], Getopt(t, args[next..]))
  {
    bad, found, next := true, [], i;
    var k := 1;
    PrependNothing(ShortArgs(t, arg, 1, args[i..]));
    while k < |arg|
      invariant 1 <= k <= |arg|
      invariant ShortArgs(t, arg, 1, args[i..]) == Prepend(found, [], ShortArgs(t, arg, k, args[i..]))
    {
      var o := t.short(arg[k]);
      if o.None? {
        return;
      }
      if !o.value.hasArg {
        PrependTwice(found, [], [(o.value.opt, "")], [], ShortArgs(t, arg, k + 1, args[i..]));
        found := found + [(o.value.opt, "")];
        k := k + 1;
        continue;
      }
      var value;
      if k + 1 < |arg| {
        value := arg[k + 1..];
      } else if i == |args| {
        return;
      } else {
        value := args[i];
        next := i + 1;
        assert args[i..][0] == value && args[i..][1..] == args[next..];
      }
      PrependTwice(found, [], [(o.value.opt, value)], [], Getopt(t, args[next..]));
      bad, found := false, found + [(o.value.opt, value)];
      return;
    }
    bad := false;
  }

  method ParseArgs(t: Table, args: seq<string>) returns (result: Parse)
    ensures result == Getopt(t, args)
  {
    var opts: Opts, operands: seq<string> := [], [];
    var i := 0;
    assert args[0..] == args;
    PrependNothing(Getopt(t, args));
    while i < |args|
      invariant 0 <= i <= |args|
      invariant Getopt(t, args) == Prepend(opts, operands, Getopt(t, args[i..]))
    {
      var arg := args[i];
      assert args[i..][0] == arg && args[i..][1..] == args[i + 1..];
      i := i + 1;
      if arg == "--" {
        assert opts + [] == opts;
        return Ok(opts, operands + args[i..]);
      }
      if StartsWith(arg, "--") {
        var bad, found, next := LongOption(t, arg, args, i);
        if bad {
          return Err(arg);
        }
        PrependTwice(opts, operands, [found], [], Getopt(t, args[next..]));
        assert operands + [] == operands;
        opts, i := opts + [found], next;
      } else if |arg| > 1 && arg[0] == '-' {
        var bad, found, next := ShortOptions(t, arg, args, i);
        if bad {
          return Err(arg);
        }
        PrependTwice(opts, operands, found, [], Getopt(t, args[next..]));
        assert operands + [] == operands;
        opts, i := opts + found, next;
      } else {
        PrependTwice(opts, operands, [], [arg], Getopt(t, args[i..]));
        assert opts + [] == opts;
        operands := operands + [arg];
      }
    }
    assert opts + [] == opts && operands + [] == operands;
    result := Ok(opts, operands);
  }

  // ---------------------------------------------------------------------
  // The same command line, written

  /** How a long option's value is written. */
  datatype Style = Bare | Inline(value: string) | Separate(value: string)

  datatype Item =
    | Operand(text: string)
    | Flags(letters: string)
    | Valued(letters: string, last: char, value: string, attached: bool)
    | Long(name: string, style: Style)

  predicate AllFlags(t: Table, letters: string) {
    forall i :: 0 <= i < |letters| ==> t.short(letters[i]).Some? && !t.short(letters[i]).value.hasArg
  }

  /** An item getopt_long() can be given, and that says what it means. */
  predicate Fits(t: Table, item: Item) {
    match item
    case Operand(text) => |text| <= 1 || text[0] != '-'
    case Flags(letters) => letters != [] && AllFlags(t, letters)
    case Valued(letters, last, value, attached) =>
      AllFlags(t, letters) && t.short(last).Some? && t.short(last).value.hasArg
      && (attached ==> value != [])
    case Long(name, style) =>
      '=' !in name && Resolve(t.longs, name).Some?
      && (Resolve(t.longs, name).value.hasArg <==> !style.Bare?)
      && (name == [] ==> style.Inline?)
  }

  function WriteItem(item: Item): seq<string> {
    match item
    case Operand(text) => [text]
    case Flags(letters) => ["-" + letters]
    case Valued(letters, last, value, attached) =>
      if attached then ["-" + letters + [last] + value] else ["-" + letters + [last], value]
    case Long(name, Bare) => ["--" + name]
    case Long(name, Inline(value)) => ["--" + name + "=" + value]
    case Long(name, Separate(value)) => ["--" + name, value]
  }

  function FlagOpts(t: Table, letters: string): Opts
    requires AllFlags(t, letters)
  {
    seq(|letters|, i requires 0 <= i < |letters| => (t.short(letters[i]).value.opt, ""))
  }

  function OptsOf(t: Table, item: Item): Opts
    requires Fits(t, item)
  {
    match item
    case Operand(_) => []
    case Flags(letters) => FlagOpts(t, letters)
    case Valued(letters, last, value, _) => FlagOpts(t, letters) + [(t.short(last).value.opt, value)]
    case Long(name, style) =>
      [(Resolve(t.longs, name).value.opt, if style.Bare? then "" else style.value)]
  }

  function OperandsOf(item: Item): seq<string> {
    if item.Operand? then [item.text] else []
  }

  predicate AllFit(t: Table, items: seq<Item>) {
    forall i :: 0 <= i < |items| ==> Fits(t, items[i])
  }

  function WriteItems(items: seq<Item>): seq<string> {
    if items == [] then [] else WriteItem(items[0]) + WriteItems(items[1..])
  }

  function AllOpts(t: Table, items: seq<Item>): Opts
    requires AllFit(t, items)
  {
    if items == [] then [] else OptsOf(t, items[0]) + AllOpts(t, items[1..])
  }

  function AllOperands(items: seq<Item>): seq<string> {
    if items == [] then [] else OperandsOf(items[0]) + AllOperands(items[1..])
  }

  /** `--` and the operands after it, if there are any such. */
  function WriteTail(tail: Option<seq<string>>): seq<string> {
    if tail.Some? then ["--"] + tail.value else []
  }

  lemma {:induction false} FlagLetters(t: Table, arg: string, k: nat, n: nat, rest: seq<string>)
    requires k <= n <= |arg| && AllFlags(t, arg[k..n])
    ensures ShortArgs(t, arg, k, rest) ==
            Prepend(FlagOpts(t, arg[k..n]), [], ShortArgs(t, arg, n, rest))
    decreases n - k
  {
    if k == n {
      PrependNothing(ShortArgs(t, arg, n, rest));
    } else {
      var letters, more := arg[k..n], arg[k + 1..n];
      assert more == letters[1..] && letters[0] == arg[k];
      FlagLetters(t, arg, k + 1, n, rest);
      PrependTwice([(t.short(arg[k]).value.opt, "")], [], FlagOpts(t, more), [], ShortArgs(t, arg, n, rest));
      assert [(t.short(arg[k]).value.opt, "")] + FlagOpts(t, more) == FlagOpts(t, letters);
    }
  }

  lemma FirstEqIs(name: string, rest: string)
    requires '=' !in name
    ensures FirstEq(name + rest) == |name| + FirstEq(rest)
  {
    if name == [] {
      assert name + rest == rest;
    } else {
      FirstEqIs(name[1..], rest);
      assert (name + rest)[1..] == name[1..] + rest;
    }
  }

  /** A written option cannot be taken for a long one or an operand. */
  lemma BundleShape(t: Table, letters: string, first: char, arg: string)
    requires t.short('-').None? && t.short(first).Some?
    requires |arg| > 1 && arg[0] == '-' && arg[1] == first
    ensures arg != "--" && !StartsWith(arg, "--")
  {
    assert first != '-';
    assert arg[..2][1] == first && "--"[1] == '-';
  }

  lemma LongItem(t: Table, item: Item, rest: seq<string>)
    requires item.Long? && Fits(t, item)
    ensures Getopt(t, WriteItem(item) + rest) ==
            Prepend(OptsOf(t, item), OperandsOf(item), Getopt(t, rest))
  {
    var args := WriteItem(item) + rest;
    var arg, name := args[0], item.name;
    var long := if item.style.Inline? then name + ("=" + item.style.value) else name + "";
    assert arg == "--" + long;
    assert StartsWith(arg, "--") && arg[2..] == long;
    assert arg != "--" by {
      assert |long| > 0;
    }
    FirstEqIs(name, if item.style.Inline? then "=" + item.style.value else "");
    assert long[..|name|] == name;
    match item.style
    case Bare => assert args[1..] == rest;
    case Inline(value) =>
      assert args[1..] == rest && long[|name| + 1..] == value;
    case Separate(value) =>
      assert args[1..][0] == value && args[1..][1..] == rest;
  }

  lemma ShortItem(t: Table, item: Item, rest: seq<string>)
    requires t.short('-').None?
    requires (item.Flags? || item.Valued?) && Fits(t, item)
    ensures Getopt(t, WriteItem(item) + rest) ==
            Prepend(OptsOf(t, item), OperandsOf(item), Getopt(t, rest))
  {
    var args := WriteItem(item) + rest;
    var arg, letters, n := args[0], item.letters, 1 + |item.letters|;
    assert arg[1..n] == letters;
    var first := if letters != [] then letters[0] else item.last;
    assert arg[1] == first;
    BundleShape(t, letters, first, arg);
    FlagLetters(t, arg, 1, n, args[1..]);
    if item.Flags? {
      assert args[1..] == rest;
    } else {
      var o := t.short(item.last).value;
      if item.attached {
        assert args[1..] == rest && arg[n + 1..] == item.value;
      } else {
        assert args[1..][0] == item.value && args[1..][1..] == rest;
      }
      PrependTwice(FlagOpts(t, letters), [], [(o.opt, item.value)], [], Getopt(t, rest));
    }
  }

  lemma OneItem(t: Table, item: Item, rest: seq<string>)
    requires t.short('-').None? && Fits(t, item)
    ensures Getopt(t, WriteItem(item) + rest) ==
            Prepend(OptsOf(t, item), OperandsOf(item), Getopt(t, rest))
  {
    match item
    case Operand(text) => assert (WriteItem(item) + rest)[1..] == rest;
    case Long(_, _) => LongItem(t, item, rest);
    case _ => ShortItem(t, item, rest);
  }

  /** What a command line means. */
  function Meant(t: Table, items: seq<Item>, tail: Option<seq<string>>): Parse
    requires AllFit(t, items)
  {
    Ok(AllOpts(t, items), AllOperands(items) + if tail.Some? then tail.value else [])
  }

  lemma MeantCons(t: Table, items: seq<Item>, tail: Option<seq<string>>)
    requires AllFit(t, items) && items != []
    ensures Meant(t, items, tail) ==
            Prepend(OptsOf(t, items[0]), OperandsOf(items[0]), Meant(t, items[1..], tail))
  {
    var more := if tail.Some? then tail.value else [];
    assert OperandsOf(items[0]) + AllOperands(items[1..]) + more
        == OperandsOf(items[0]) + (AllOperands(items[1..]) + more);
  }

  lemma TailOnly(t: Table, tail: Option<seq<string>>)
    ensures Getopt(t, WriteTail(tail)) == Ok([], if tail.Some? then tail.value else [])
  {
    if tail.Some? {
      assert WriteTail(tail)[1..] == tail.value;
    }
  }

  lemma GetoptNext(t: Table, items: seq<Item>, tail: Option<seq<string>>)
    requires t.short('-').None? && AllFit(t, items) && items != []
    ensures Getopt(t, WriteItems(items) + WriteTail(tail)) ==
            Prepend(OptsOf(t, items[0]), OperandsOf(items[0]), Getopt(t, WriteItems(items[1..]) + WriteTail(tail)))
  {
    Associative(WriteItem(items[0]), WriteItems(items[1..]), WriteTail(tail));
    OneItem(t, items[0], WriteItems(items[1..]) + WriteTail(tail));
  }

  lemma NothingWritten(t: Table, tail: Option<seq<string>>)
    ensures Getopt(t, WriteItems([]) + WriteTail(tail)) == Meant(t, [], tail)
  {
    assert WriteItems([]) + WriteTail(tail) == WriteTail(tail);
    TailOnly(t, tail);
    var more := if tail.Some? then tail.value else [];
    assert [] + more == more;
  }

  /** Reading a written command line gives back its options in order, its
      operands in order, and what stands after `--`. */
  lemma {:induction false} GetoptInvertsWrite(t: Table, items: seq<Item>, tail: Option<seq<string>>)
    requires t.short('-').None? && AllFit(t, items)
    ensures Getopt(t, WriteItems(items) + WriteTail(tail)) == Meant(t, items, tail)
    decreases items
  {
    if items == [] {
      NothingWritten(t, tail);
    } else {
      GetoptInvertsWrite(t, items[1..], tail);
      GetoptNext(t, items, tail);
      MeantCons(t, items, tail);
    }
  }

  /** From the text of a command line to its options: words written in any
      way, whatever the blanks between them. */
  lemma CommandLineInvertsWrite(t: Table, items: seq<Item>, tail: Option<seq<string>>,
                                lead: string, words: seq<CommandLines.Word>, gaps: seq<string>)
    requires t.short('-').None? && AllFit(t, items)
    requires CommandLines.AllBlank(lead) && CommandLines.Gaps(words, gaps)
    requires forall word :: word in words ==> CommandLines.Writable(word)
    requires CommandLines.TextOf(words) == WriteItems(items) + WriteTail(tail)
    ensures Getopt(t, CommandLines.Tokens(lead + CommandLines.Write(words, gaps))) ==
            Meant(t, items, tail)
  {
    CommandLines.TokensInvertWrite(lead, words, gaps);
    GetoptInvertsWrite(t, items, tail);
  }

  /** evtdig's own options are such a table. */
  lemma EvtdigInvertsWrite(items: seq<Item>, tail: Option<seq<string>>)
    requires AllFit(EVTDIG, items)
    ensures Getopt(EVTDIG, WriteItems(items) + WriteTail(tail)) == Meant(EVTDIG, items, tail)
  {
    GetoptInvertsWrite(EVTDIG, items, tail);
  }
}
