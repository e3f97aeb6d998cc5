/** crates/starla-network/src/wsacmsg.rs: Winsock control messages, laid out
    and walked. The word is the 64-bit little-endian one of the platform the
    file is for. */
module ControlMessages {
  import opened Seqs

  const ALIGN: nat := 8
  const HEADER: nat := 16
  const DATA: nat := 16
  const IPPROTO_IPV6: i32 := 41
  const IPV6_PKTINFO: i32 := 19
  const IPV6_HOPLIMIT: i32 := 21

  type i32 = x: int | -0x8000_0000 <= x < 0x8000_0000

  datatype Message = Message(level: i32, kind: i32, data: seq<byte>)

  datatype Meta = Meta(ttl: Option<byte>, dst: Option<seq<byte>>)

  // ---- Bytes of numbers ----

  function Power(n: nat): (p: nat)
    ensures p >= 1
  {
    if n == 0 then 1 else 256 * Power(n - 1)
  }

  /** The `n` low bytes of `value`, lowest first. */
  function Bytes(value: nat, n: nat): (r: seq<byte>)
    ensures |r| == n
  {
    if n == 0 then [] else [value % 256] + Bytes(value / 256, n - 1)
  }

  /** The number in the `n` bytes at offset `at`. */
  function Value(s: seq<byte>, at: nat, n: nat): nat
    requires at + n <= |s|
    decreases n
  {
    if n == 0 then 0 else s[at] + 256 * Value(s, at + 1, n - 1)
  }

  lemma {:induction false} ValueOfBytes(s: seq<byte>, at: nat, n: nat, value: nat)
    requires at + n <= |s| && value < Power(n)
    requires s[at..at + n] == Bytes(value, n)
    ensures Value(s, at, n) == value
    decreases n
  {
    if n > 0 {
      assert s[at] == s[at..at + n][0];
      assert s[at + 1..at + n] == s[at..at + n][1..] == Bytes(value / 256, n - 1);
      ValueOfBytes(s, at + 1, n - 1, value / 256);
    }
  }

  lemma {:induction false} BytesOfValue(s: seq<byte>, at: nat, n: nat)
    requires at + n <= |s|
    ensures Value(s, at, n) < Power(n)
    ensures Bytes(Value(s, at, n), n) == s[at..at + n]
    decreases n
  {
    if n > 0 {
      BytesOfValue(s, at + 1, n - 1);
      var v := Value(s, at + 1, n - 1);
      assert (s[at] + 256 * v) % 256 == s[at] && (s[at] + 256 * v) / 256 == v;
      assert Bytes(Value(s, at, n), n) == [s[at]] + Bytes(v, n - 1);
      assert s[at..at + n] == [s[at]] + s[at + 1..at + n];
    }
  }

  lemma Powers()
    ensures Power(4) == 0x1_0000_0000
    ensures Power(8) == 0x1_0000_0000_0000_0000
  {
    assert Power(2) == 0x1_0000;
    assert Power(4) == 0x1_0000_0000;
    assert Power(6) == 0x1_0000_0000_0000;
  }

  /** Two's complement in four bytes. */
  function IntBytes(x: i32): (r: seq<byte>)
    ensures |r| == 4
  {
    Bytes(if x < 0 then x + 0x1_0000_0000 else x, 4)
  }

  function IntValue(s: seq<byte>, at: nat): i32
    requires at + 4 <= |s|
  {
    Powers();
    BytesOfValue(s, at, 4);
    var v := Value(s, at, 4);
    if v < 0x8000_0000 then v else v - 0x1_0000_0000
  }

  lemma IntOfBytes(s: seq<byte>, at: nat, x: i32)
    requires at + 4 <= |s| && s[at..at + 4] == IntBytes(x)
    ensures IntValue(s, at) == x
  {
    Powers();
    ValueOfBytes(s, at, 4, if x < 0 then x + 0x1_0000_0000 else x);
  }

  lemma BytesOfInt(s: seq<byte>, at: nat)
    requires at + 4 <= |s|
    ensures IntBytes(IntValue(s, at)) == s[at..at + 4]
  {
    Powers();
    BytesOfValue(s, at, 4);
  }

  // ---- Layout ----

  function Align(len: nat): (r: nat)
    ensures len <= r < len + ALIGN && r % 8 == 0
  {
    (len + ALIGN - 1) / 8 * 8
  }

  function Length(m: Message): nat { DATA + |m.data| }

  /** A slice is at most isize::MAX bytes long, so its length with a header
      fits a 64-bit word. */
  predicate Fits(m: Message) { |m.data| < 0x8000_0000_0000_0000 }

  function Header(len: nat, level: i32, kind: i32): (r: seq<byte>)
    ensures |r| == HEADER
  {
    Bytes(len, 8) + IntBytes(level) + IntBytes(kind)
  }

  /** The message without the padding after it. */
  function Unpadded(m: Message): (r: seq<byte>)
    ensures |r| == Length(m)
  {
    Header(Length(m), m.level, m.kind) + m.data
  }

  function Cmsg(m: Message): (r: seq<byte>)
    ensures |r| == Align(Length(m))
  {
    Unpadded(m) + seq<byte>(Align(Length(m)) - Length(m), i => 0)
  }

  /** The first `n` messages in a buffer, one after the other. */
  function Wire(messages: seq<Message>, n: nat): seq<byte>
    requires n <= |messages|
  {
    if n == 0 then [] else Wire(messages, n - 1) + Cmsg(messages[n - 1])
  }

  /** Where message `n` starts. */
  function Offset(messages: seq<Message>, n: nat): nat
    requires n <= |messages|
  {
    if n == 0 then 0 else Offset(messages, n - 1) + Align(Length(messages[n - 1]))
  }

  lemma {:induction false} WireLength(messages: seq<Message>, n: nat)
    requires n <= |messages|
    ensures |Wire(messages, n)| == Offset(messages, n)
  {
    if n > 0 { WireLength(messages, n - 1); }
  }

  method Write(m: Message) returns (out: array<byte>)
    requires Fits(m)
    ensures fresh(out) && out[..] == Cmsg(m)
  {
    var len := DATA + |m.data|;
    out := new byte[Align(len)](i => 0);
    var length, level, kind := Bytes(len, 8), IntBytes(m.level), IntBytes(m.kind);
    forall i | 0 <= i < ALIGN { out[i] := length[i]; }
    forall i | 0 <= i < 4 { out[ALIGN + i] := level[i]; }
    forall i | 0 <= i < 4 { out[ALIGN + 4 + i] := kind[i]; }
    forall i | 0 <= i < |m.data| { out[DATA + i] := m.data[i]; }
    assert out[..] == length + level + kind + m.data + out[len..];
  }

  // ---- The walk ----

  /** The message at offset `at`, if all of it is there. */
  function First(control: seq<byte>, at: nat): (r: Option<Message>)
    ensures r.Some? ==> at + Length(r.value) <= |control|
  {
    if |control| < at + HEADER then None
    else
      var len := Value(control, at, 8);
      if len < DATA || |control| - at < len then None
      else Some(Message(IntValue(control, at + 8), IntValue(control, at + 12),
                        control[at + DATA..at + len]))
  }

  /** Message `i` of `seen` is in the buffer right after those before it. */
  ghost predicate SeenAt(control: seq<byte>, seen: seq<Message>, i: nat)
    requires i < |seen|
  {
    First(control, Offset(seen, i)) == Some(seen[i])
  }

  /** `seen` are the messages of a walk over `control`: each starts at the
      aligned end of the one before, and the walk stops at the first that is
      not all there. */
  ghost predicate IsWalk(control: seq<byte>, seen: seq<Message>) {
    && (forall i: nat :: i < |seen| ==> SeenAt(control, seen, i))
    && First(control, Offset(seen, |seen|)).None?
  }

  predicate IsHops(m: Message) {
    m.level == IPPROTO_IPV6 && m.kind == IPV6_HOPLIMIT && |m.data| >= 4
  }

  predicate IsInfo(m: Message) {
    m.level == IPPROTO_IPV6 && m.kind == IPV6_PKTINFO && |m.data| >= 16
  }

  /** A hop limit that is no `u8` is no hop limit. */
  function Hops(m: Message): Option<byte>
    requires IsHops(m)
  {
    var hops := IntValue(m.data, 0);
    if 0 <= hops < 256 then Some(hops) else None
  }

  /** What the last hop limit among the first `n` messages says. */
  function LastHops(messages: seq<Message>, n: nat): Option<byte>
    requires n <= |messages|
  {
    if n == 0 then None
    else if IsHops(messages[n - 1]) then Hops(messages[n - 1])
    else LastHops(messages, n - 1)
  }

  /** The last destination among the first `n` messages. */
  function LastInfo(messages: seq<Message>, n: nat): Option<seq<byte>>
    requires n <= |messages|
  {
    if n == 0 then None
    else if IsInfo(messages[n - 1]) then Some(messages[n - 1].data[..16])
    else LastInfo(messages, n - 1)
  }

  function MetaOf(messages: seq<Message>, n: nat): Meta
    requires n <= |messages|
  {
    Meta(LastHops(messages, n), LastInfo(messages, n))
  }

  lemma {:induction false} Appended(seen: seq<Message>, m: Message, n: nat)
    requires n <= |seen|
    ensures Offset(seen + [m], n) == Offset(seen, n)
    ensures MetaOf(seen + [m], n) == MetaOf(seen, n)
  {
    if n > 0 { Appended(seen, m, n - 1); }
  }

  /** The walk has taken the messages `seen` and is at offset `at`. */
  ghost predicate Walked(control: seq<byte>, seen: seq<Message>, at: nat, meta: Meta) {
    && (forall i: nat :: i < |seen| ==> SeenAt(control, seen, i))
    && at == Offset(seen, |seen|)
    && meta == MetaOf(seen, |seen|)
  }

  lemma WalkStep(control: seq<byte>, seen: seq<Message>, at: nat, meta: Meta, m: Message, now: Meta)
    requires Walked(control, seen, at, meta) && First(control, at) == Some(m)
    requires now.ttl == if IsHops(m) then Hops(m) else meta.ttl
    requires now.dst == if IsInfo(m) then Some(m.data[..16]) else meta.dst
    ensures Walked(control, seen + [m], at + Align(Length(m)), now)
  {
    Appended(seen, m, |seen|);
    forall i: nat | i < |seen| + 1
      ensures SeenAt(control, seen + [m], i)
    {
      if i < |seen| {
        assert SeenAt(control, seen, i);
        Appended(seen, m, i);
      }
    }
  }

  method RecvMeta(control: seq<byte>) returns (meta: Meta)
    ensures exists seen :: IsWalk(control, seen) && meta == MetaOf(seen, |seen|)
  {
    meta := Meta(None, None);
    ghost var seen: seq<Message> := [];
    var at: nat := 0;
    while at + HEADER <= |control|
      invariant Walked(control, seen, at, meta)
      decreases |control| - at
    {
      var len := Value(control, at, 8);
      var level, kind := IntValue(control, at + 8), IntValue(control, at + 12);
      if len < DATA || |control| - (at + DATA) < len - DATA {
        assert IsWalk(control, seen);
        return;
      }
      var data := control[at + DATA..at + len];
      ghost var before := meta;
      if level == IPPROTO_IPV6 && kind == IPV6_HOPLIMIT {
        if |data| >= 4 {
          var hops := IntValue(data, 0);
          meta := meta.(ttl := if 0 <= hops < 256 then Some(hops) else None);
        }
      } else if level == IPPROTO_IPV6 && kind == IPV6_PKTINFO {
        if |data| >= 16 {
          meta := meta.(dst := Some(data[..16]));
        }
      }
      ghost var m := Message(level, kind, data);
      WalkStep(control, seen, at, before, m, meta);
      at, seen := at + Align(len), seen + [m];
    }
    assert IsWalk(control, seen);
  }

  /** A buffer has one walk. */
  lemma {:induction false} WalksAgree(control: seq<byte>, a: seq<Message>, b: seq<Message>, n: nat)
    requires IsWalk(control, a) && IsWalk(control, b) && n <= |a| && n <= |b|
    requires a[..n] == b[..n] && Offset(a, n) == Offset(b, n)
    ensures a == b
    decreases |a| - n
  {
    if n < |a| { assert SeenAt(control, a, n); }
    if n < |b| { assert SeenAt(control, b, n); }
    if n < |a| && n < |b| {
      assert a[n] == b[n];
      assert a[..n + 1] == a[..n] + [a[n]] == b[..n + 1];
      WalksAgree(control, a, b, n + 1);
    }
  }

  // ---- What a cut leaves ----

  /** Where message `i` ends, its padding not counted. */
  function End(messages: seq<Message>, i: nat): nat
    requires i < |messages|
  {
    Offset(messages, i) + Length(messages[i])
  }

  /** The first `k` messages, and no more of them, fit in `cut` bytes. */
  ghost predicate Whole(messages: seq<Message>, cut: nat, k: nat) {
    && k <= |messages|
    && (forall i: nat :: i < k ==> End(messages, i) <= cut)
    && (k < |messages| ==> cut < End(messages, k))
  }

  lemma Parts<T>(s: seq<T>, at: nat, a: seq<T>, b: seq<T>, c: seq<T>)
    requires at + |a| + |b| + |c| <= |s|
    requires s[at..at + |a| + |b| + |c|] == a + b + c
    ensures s[at..at + |a|] == a
    ensures s[at + |a|..at + |a| + |b|] == b
    ensures s[at + |a| + |b|..at + |a| + |b| + |c|] == c
  {
    var whole := s[at..at + |a| + |b| + |c|];
    forall k: nat | k < |a| ensures s[at + k] == a[k] { assert whole[k] == a[k]; }
    forall k: nat | k < |b| ensures s[at + |a| + k] == b[k] { assert whole[|a| + k] == b[k]; }
    forall k: nat | k < |c| ensures s[at + |a| + |b| + k] == c[k] { assert whole[|a| + |b| + k] == c[k]; }
  }

  /** A header is read back as it was written. */
  lemma HeaderRead(control: seq<byte>, at: nat, len: nat, level: i32, kind: i32)
    requires len < 0x1_0000_0000_0000_0000 && at + HEADER <= |control|
    requires control[at..at + HEADER] == Header(len, level, kind)
    ensures Value(control, at, 8) == len
    ensures IntValue(control, at + 8) == level && IntValue(control, at + 12) == kind
  {
    Parts(control, at, Bytes(len, 8), IntBytes(level), IntBytes(kind));
    Powers();
    ValueOfBytes(control, at, 8, len);
    IntOfBytes(control, at + 8, level);
    IntOfBytes(control, at + 12, kind);
  }

  /** The buffer from `before` on, whatever comes after the cut. */
  lemma Middle<T>(before: seq<T>, header: seq<T>, data: seq<T>, after: seq<T>, cut: nat)
    requires cut <= |before + (header + data + after)|
    ensures var s := (before + (header + data + after))[..cut];
            var at := |before|;
            && (at + |header| <= cut ==> s[at..at + |header|] == header)
            && (at + |header| + |data| <= cut ==> s[at + |header|..at + |header| + |data|] == data)
  {
  }

  lemma FirstOfWire(before: seq<byte>, m: Message, after: seq<byte>, cut: nat)
    requires Fits(m) && cut <= |before + (Unpadded(m) + after)|
    ensures First((before + (Unpadded(m) + after))[..cut], |before|) ==
            if |before| + Length(m) <= cut then Some(m) else None
  {
    var control := (before + (Unpadded(m) + after))[..cut];
    Middle(before, Header(Length(m), m.level, m.kind), m.data, after, cut);
    if |before| + HEADER <= cut {
      HeaderRead(control, |before|, Length(m), m.level, m.kind);
    }
  }

  lemma {:induction false} WireSplits(messages: seq<Message>, i: nat, n: nat) returns (after: seq<byte>)
    requires i < n <= |messages|
    ensures Wire(messages, n) == Wire(messages, i) + (Unpadded(messages[i]) + after)
    decreases n
  {
    var before, m := Wire(messages, i), Unpadded(messages[i]);
    if i == n - 1 {
      after := Cmsg(messages[i])[|m|..];
      assert Cmsg(messages[i]) == m + after;
    } else {
      var part := WireSplits(messages, i, n - 1);
      var last := Cmsg(messages[n - 1]);
      after := part + last;
      assert before + (m + part) + last == before + (m + (part + last));
    }
  }

  lemma FirstOfCut(messages: seq<Message>, cut: nat, i: nat)
    requires i < |messages| && Fits(messages[i]) && cut <= |Wire(messages, |messages|)|
    ensures First(Wire(messages, |messages|)[..cut], Offset(messages, i)) ==
            if End(messages, i) <= cut then Some(messages[i]) else None
  {
    var after := WireSplits(messages, i, |messages|);
    WireLength(messages, i);
    FirstOfWire(Wire(messages, i), messages[i], after, cut);
  }

  lemma {:induction false} OffsetOfPrefix(messages: seq<Message>, k: nat, n: nat)
    requires n <= k <= |messages|
    ensures Offset(messages[..k], n) == Offset(messages, n)
    ensures MetaOf(messages[..k], n) == MetaOf(messages, n)
  {
    if n > 0 { OffsetOfPrefix(messages, k, n - 1); }
  }

  /** However the buffer is cut, the walk sees exactly the messages whose
      bytes are all there. */
  lemma CutKeepsWhole(messages: seq<Message>, cut: nat, k: nat)
    requires forall m :: m in messages ==> Fits(m)
    requires cut <= |Wire(messages, |messages|)| && Whole(messages, cut, k)
    ensures IsWalk(Wire(messages, |messages|)[..cut], messages[..k])
  {
    var control, seen := Wire(messages, |messages|)[..cut], messages[..k];
    forall i: nat | i < k
      ensures SeenAt(control, seen, i)
    {
      assert End(messages, i) <= cut;
      FirstOfCut(messages, cut, i);
      OffsetOfPrefix(messages, k, i);
    }
    OffsetOfPrefix(messages, k, k);
    WireLength(messages, |messages|);
    if k < |messages| { FirstOfCut(messages, cut, k); }
  }

  /** The number of messages that fit is always defined, so the theorem above
      speaks of every cut. */
  lemma {:induction false} SomeAreWhole(messages: seq<Message>, cut: nat, k: nat) returns (n: nat)
    requires k <= |messages| && forall i: nat :: i < k ==> End(messages, i) <= cut
    ensures Whole(messages, cut, n)
    decreases |messages| - k
  {
    n := k;
    if k < |messages| && End(messages, k) <= cut { n := SomeAreWhole(messages, cut, k + 1); }
  }

  /** What `RecvMeta` answers for a buffer cut anywhere: the last hop limit and
      the last destination among the messages that are whole, and no other. */
  lemma TruncatedMeta(messages: seq<Message>, cut: nat, seen: seq<Message>) returns (k: nat)
    requires forall m :: m in messages ==> Fits(m)
    requires cut <= |Wire(messages, |messages|)|
    requires IsWalk(Wire(messages, |messages|)[..cut], seen)
    ensures Whole(messages, cut, k) && seen == messages[..k]
    ensures MetaOf(seen, |seen|) == MetaOf(messages, k)
  {
    k := SomeAreWhole(messages, cut, 0);
    CutKeepsWhole(messages, cut, k);
    WalksAgree(Wire(messages, |messages|)[..cut], seen, messages[..k], 0);
    OffsetOfPrefix(messages, k, k);
  }

  // ---- Any bytes ----

  lemma Joined<T>(s: seq<T>, a: nat, b: nat, c: nat, d: nat)
    requires a <= b <= c <= d <= |s|
    ensures s[a..d] == s[a..b] + s[b..c] + s[c..d]
  {
  }

  lemma HeaderIsThere(control: seq<byte>, at: nat)
    requires at + HEADER <= |control|
    ensures control[at..at + HEADER] ==
            Header(Value(control, at, 8), IntValue(control, at + 8), IntValue(control, at + 12))
  {
    BytesOfValue(control, at, 8);
    BytesOfInt(control, at + 8);
    BytesOfInt(control, at + 12);
    Joined(control, at, at + 8, at + 12, at + 16);
  }

  lemma FirstIsThere(control: seq<byte>, at: nat, m: Message)
    requires First(control, at) == Some(m)
    ensures control[at..at + Length(m)] == Unpadded(m)
  {
    HeaderIsThere(control, at);
    Joined(control, at, at, at + HEADER, at + Length(m));
  }

  /** For any bytes at all, every message the walk sees is in the buffer where
      the layout puts it. */
  lemma SeenIsThere(control: seq<byte>, seen: seq<Message>, i: nat)
    requires IsWalk(control, seen) && i < |seen|
    ensures End(seen, i) <= |control|
    ensures control[Offset(seen, i)..End(seen, i)] == Unpadded(seen[i])
  {
    var at, m := Offset(seen, i), seen[i];
    assert SeenAt(control, seen, i);
    FirstIsThere(control, at, m);
  }
}
