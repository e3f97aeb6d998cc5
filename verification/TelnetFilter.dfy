/** Telnet command stripping (RFC 854, "Telnet Command Structure"; RFC 855 for
    subnegotiation), with its state kept from one read to the next. */
module TelnetFilters {
  import opened Seqs
  import Runs

  const IAC: byte := 255
  const DONT: byte := 254
  const DO: byte := 253
  const WONT: byte := 252
  const WILL: byte := 251
  const SB: byte := 250
  const SE: byte := 240

  datatype FilterState = Normal | Iac | IacOption | Sb | SbIac

  predicate OptionVerb(b: byte) {
    b == WILL || b == WONT || b == DO || b == DONT
  }

  /** The filter's state after one byte. */
  function NextState(st: FilterState, b: byte): FilterState {
    match st
    case Normal => if b == IAC then Iac else Normal
    case Iac =>
      if b == IAC then Normal
      else if OptionVerb(b) then IacOption
      else if b == SB then Sb
      else Normal
    case IacOption => Normal
    case Sb => if b == IAC then SbIac else Sb
    case SbIac => if b == SE then Normal else if b == IAC then SbIac else Sb
  }

  /** The data byte one byte lets through, if any. */
  function Emitted(st: FilterState, b: byte): seq<byte> {
    if (st.Normal? && b != IAC) || (st.Iac? && b == IAC) then [b] else []
  }

  function Run(st: FilterState, data: seq<byte>): (FilterState, seq<byte>)
    decreases data
  {
    if data == [] then (st, []) else
    var (end, rest) := Run(NextState(st, data[0]), data[1..]);
    (end, Emitted(st, data[0]) + rest)
  }

  lemma RunIterates()
    ensures Runs.Iterates(Run, (st, b) => (NextState(st, b), Emitted(st, b)))
  {
    forall st, data: seq<byte> | data != []
      ensures Run(st, data) == Runs.Joined(Emitted(st, data[0]), Run(NextState(st, data[0]), data[1..]))
    {
    }
  }

  lemma RunAppend(st: FilterState, a: seq<byte>, b: seq<byte>)
    ensures var (mid, out) := Run(st, a);
            var (end, more) := Run(mid, b);
            Run(st, a + b) == (end, out + more)
  {
    RunIterates();
    Runs.RunsOn(Run, (st, b) => (NextState(st, b), Emitted(st, b)), st, a, b);
  }

  lemma RunOne(st: FilterState, b: byte)
    ensures Run(st, [b]) == (NextState(st, b), Emitted(st, b))
  {
    assert [b][1..] == [];
    assert Emitted(st, b) + [] == Emitted(st, b);
  }

  class TelnetFilter {
    var state: FilterState

    constructor ()
      ensures state == Normal
    {
      state := Normal;
    }

    method Feed(data: seq<byte>) returns (result: seq<byte>)
      modifies this
      ensures (state, result) == Run(old(state), data)
    {
      result := [];
      var st := state;
      for i := 0 to |data|
        invariant Run(old(state), data[..i]) == (st, result)
      {
        var b := data[i];
        RunAppend(old(state), data[..i], [b]);
        RunOne(Run(old(state), data[..i]).0, b);
        assert data[..i + 1] == data[..i] + [b];
        ghost var before := result;
        assert before + [] == before;
        match st
        case Normal =>
          if b == IAC { st := Iac; } else { result := result + [b]; }
        case Iac =>
          if b == IAC {
            result := result + [IAC];
            st := Normal;
          } else if b == WILL || b == WONT || b == DO || b == DONT {
            st := IacOption;
          } else if b == SB {
            st := Sb;
          } else {
            st := Normal;
          }
        case IacOption => st := Normal;
        case Sb => if b == IAC { st := SbIac; }
        case SbIac =>
          if b == SE { st := Normal; } else if b != IAC { st := Sb; }
      }
      assert data[..|data|] == data;
      state := st;
    }
  }

  // ---------------------------------------------------------------------
  // The sender's side: what a telnet peer may put on the wire.

  datatype Item =
    | Data(b: byte)
    | Command(code: byte)
    | Negotiation(verb: byte, opt: byte)
    | Subnegotiation(payload: seq<byte>)

  predicate WellFormed(item: Item) {
    match item
    case Command(code) => code != IAC && code != SB && !OptionVerb(code)
    case Negotiation(verb, _) => OptionVerb(verb)
    case _ => true
  }

  function EscapeByte(b: byte): seq<byte> {
    if b == IAC then [IAC, IAC] else [b]
  }

  function Escape(data: seq<byte>): seq<byte> {
    if data == [] then []
    else EscapeByte(data[0]) + Escape(data[1..])
  }

  function EncodeItem(item: Item): seq<byte> {
    match item
    case Data(b) => EscapeByte(b)
    case Command(code) => [IAC, code]
    case Negotiation(verb, opt) => [IAC, verb, opt]
    case Subnegotiation(payload) => [IAC, SB] + Escape(payload) + [IAC, SE]
  }

  function Encode(items: seq<Item>): seq<byte> {
    if items == [] then [] else EncodeItem(items[0]) + Encode(items[1..])
  }

  /** The data bytes the sender meant. */
  function Meant(items: seq<Item>): seq<byte> {
    if items == [] then []
    else (if items[0].Data? then [items[0].b] else []) + Meant(items[1..])
  }

  /** No payload byte 255 has a 240 right after it, except as its last two
      bytes. The filter stays in SbIac on an escaped 255, so such a 240 ends
      the subnegotiation where RFC 855 does not. */
  ghost predicate Contained(payload: seq<byte>) {
    forall i :: 0 <= i && i + 2 < |payload| && payload[i] == IAC ==> payload[i + 1] != SE
  }

  /** The payload bytes the filter lets out as data: those after the first
      255 240. `afterIac` says that the byte before `payload` was a 255. */
  function Leak(payload: seq<byte>, afterIac: bool): seq<byte> {
    if payload == [] then []
    else if afterIac && payload[0] == SE then payload[1..]
    else Leak(payload[1..], payload[0] == IAC)
  }

  function DecodedItem(item: Item): seq<byte> {
    match item
    case Data(b) => [b]
    case Subnegotiation(payload) => Leak(payload, false)
    case _ => []
  }

  function Decoded(items: seq<Item>): seq<byte> {
    if items == [] then [] else DecodedItem(items[0]) + Decoded(items[1..])
  }

  /** Two bytes, one after the other. */
  lemma TwoBytes(st: FilterState, a: byte, b: byte)
    ensures var next := NextState(st, a);
            Run(st, [a, b]) == (NextState(next, b), Emitted(st, a) + Emitted(next, b))
  {
    assert [a] + [b] == [a, b];
    RunAppend(st, [a], [b]);
    RunOne(st, a);
    RunOne(NextState(st, a), b);
  }

  lemma EscapedByte(b: byte)
    ensures Run(Normal, EscapeByte(b)) == (Normal, [b])
  {
    if b == IAC {
      TwoBytes(Normal, IAC, IAC);
      assert [] + [IAC] == [IAC];
    } else {
      RunOne(Normal, b);
    }
  }

  lemma {:induction false} EscapedData(data: seq<byte>)
    ensures Run(Normal, Escape(data)) == (Normal, data)
  {
    if data != [] {
      EscapedByte(data[0]);
      EscapedData(data[1..]);
      RunAppend(Normal, EscapeByte(data[0]), Escape(data[1..]));
      assert [data[0]] + data[1..] == data;
    }
  }

  lemma PayloadByte(st: FilterState, b: byte)
    requires st.Sb? || st.SbIac?
    ensures Run(st, EscapeByte(b)) ==
            (if b == IAC then SbIac else if st.SbIac? && b == SE then Normal else Sb, [])
  {
    if b == IAC {
      TwoBytes(st, IAC, IAC);
      assert Emitted(st, IAC) + Emitted(NextState(st, IAC), IAC) == [];
    } else {
      RunOne(st, b);
    }
  }

  lemma {:induction false} SubnegotiationRun(payload: seq<byte>, afterIac: bool)
    ensures Run(if afterIac then SbIac else Sb, Escape(payload) + [IAC, SE]) == (Normal, Leak(payload, afterIac))
  {
    var st := if afterIac then SbIac else Sb;
    if payload == [] {
      TwoBytes(st, IAC, SE);
      assert Escape(payload) + [IAC, SE] == [IAC, SE];
      assert Emitted(st, IAC) + Emitted(NextState(st, IAC), SE) == [];
    } else {
      var b, tail := payload[0], payload[1..];
      var after := Escape(tail) + [IAC, SE];
      Associative(EscapeByte(b), Escape(tail), [IAC, SE]);
      PayloadByte(st, b);
      RunAppend(st, EscapeByte(b), after);
      if afterIac && b == SE {
        AfterEarlyEnd(tail);
        assert [] + tail == tail;
      } else {
        SubnegotiationRun(tail, b == IAC);
        assert [] + Leak(tail, b == IAC) == Leak(tail, b == IAC);
      }
    }
  }

  /** What is left of a subnegotiation that ended early is data, and its own
      end a command. */
  lemma AfterEarlyEnd(tail: seq<byte>)
    ensures Run(Normal, Escape(tail) + [IAC, SE]) == (Normal, tail)
  {
    EscapedData(tail);
    RunAppend(Normal, Escape(tail), [IAC, SE]);
    TwoBytes(Normal, IAC, SE);
    assert tail + [] == tail;
  }

  lemma NegotiationRun(verb: byte, opt: byte)
    requires OptionVerb(verb)
    ensures Run(Normal, [IAC, verb, opt]) == (Normal, [])
  {
    assert [IAC, verb] + [opt] == [IAC, verb, opt];
    TwoBytes(Normal, IAC, verb);
    RunOne(IacOption, opt);
    RunAppend(Normal, [IAC, verb], [opt]);
  }

  lemma SubnegotiationItemRun(payload: seq<byte>)
    ensures Run(Normal, [IAC, SB] + Escape(payload) + [IAC, SE]) == (Normal, Leak(payload, false))
  {
    Associative([IAC, SB], Escape(payload), [IAC, SE]);
    TwoBytes(Normal, IAC, SB);
    SubnegotiationRun(payload, false);
    RunAppend(Normal, [IAC, SB], Escape(payload) + [IAC, SE]);
    assert [] + Leak(payload, false) == Leak(payload, false);
  }

  lemma ItemRun(item: Item)
    requires WellFormed(item)
    ensures Run(Normal, EncodeItem(item)) == (Normal, DecodedItem(item))
  {
    match item
    case Data(b) => EscapedByte(b);
    case Command(code) => TwoBytes(Normal, IAC, code);
    case Negotiation(verb, opt) => NegotiationRun(verb, opt);
    case Subnegotiation(payload) => SubnegotiationItemRun(payload);
  }

  lemma {:induction false} EncodedRun(items: seq<Item>)
    requires forall item :: item in items ==> WellFormed(item)
    ensures Run(Normal, Encode(items)) == (Normal, Decoded(items))
  {
    if items != [] {
      ItemRun(items[0]);
      EncodedRun(items[1..]);
      RunAppend(Normal, EncodeItem(items[0]), Encode(items[1..]));
    }
  }

  lemma {:induction false} LeakIffNotContained(payload: seq<byte>, afterIac: bool)
    ensures Leak(payload, afterIac) == [] <==>
            Contained(if afterIac then [IAC] + payload else payload)
  {
    if payload != [] {
      var rest := payload[1..];
      var whole := if afterIac then [IAC] + payload else payload;
      if afterIac && payload[0] == SE {
        assert whole[0] == IAC && whole[1] == SE;
      } else {
        LeakIffNotContained(rest, payload[0] == IAC);
        var next := if payload[0] == IAC then [IAC] + rest else rest;
        var skip := |whole| - |next|;
        assert whole[skip..] == next;
        assert Contained(whole) ==> Contained(next) by {
          if Contained(whole) {
            forall i | 0 <= i && i + 2 < |next| && next[i] == IAC
              ensures next[i + 1] != SE
            {
              assert whole[skip + i] == next[i] && whole[skip + i + 1] == next[i + 1];
            }
          }
        }
        assert Contained(next) ==> Contained(whole) by {
          if Contained(next) {
            forall i | 0 <= i && i + 2 < |whole| && whole[i] == IAC
              ensures whole[i + 1] != SE
            {
              if i >= skip {
                assert next[i - skip] == whole[i] && next[i - skip + 1] == whole[i + 1];
              }
            }
          }
        }
      }
    }
  }

  ghost predicate AllContained(items: seq<Item>) {
    forall item :: item in items && item.Subnegotiation? ==> Contained(item.payload)
  }

  lemma {:induction false} DecodedIsMeant(items: seq<Item>)
    ensures |Decoded(items)| >= |Meant(items)|
    ensures Decoded(items) == Meant(items) <==> AllContained(items)
    ensures |Decoded(items)| == |Meant(items)| ==> AllContained(items)
  {
    if items != [] {
      var head, rest := items[0], items[1..];
      DecodedIsMeant(rest);
      if head.Subnegotiation? {
        LeakIffNotContained(head.payload, false);
      }
      assert AllContained(items) <==>
        AllContained(rest) && (head.Subnegotiation? ==> Contained(head.payload));
    }
  }

  /** Decoding undoes encoding: whatever commands, options and
      subnegotiations stand between the data bytes, the filter ends in Normal,
      and it returns exactly the data if and only if no payload leaks. */
  lemma DecodeInvertsEncode(items: seq<Item>)
    requires forall item :: item in items ==> WellFormed(item)
    ensures Run(Normal, Encode(items)).0 == Normal
    ensures Run(Normal, Encode(items)).1 == Meant(items) <==> AllContained(items)
  {
    EncodedRun(items);
    DecodedIsMeant(items);
  }

  /** A payload 255 240 65, escaped as RFC 855 asks, comes out as data 65. */
  lemma EscapedSeEndsSubnegotiation()
    ensures Run(Normal, Encode([Subnegotiation([IAC, SE, 65])])) == (Normal, [65])
    ensures Meant([Subnegotiation([IAC, SE, 65])]) == []
  {
    var item := Subnegotiation([IAC, SE, 65]);
    EncodedRun([item]);
    assert [item][1..] == [];
    assert item.payload[1..] == [SE, 65];
    assert [SE, 65][1..] == [65];
    assert Decoded([item]) == DecodedItem(item);
    assert Leak(item.payload, false) == Leak([SE, 65], true) == [65];
  }
}
