/**
 The strings used as map keys for transactions and challenges, and when they
 identify what they stand for.
 */
module Keys {
  import opened BatcherTypes
  import opened Commitments

  predicate IsDigit(c: char) {
    '0' <= c <= '9'
  }

  function Digit(d: nat): (c: char)
    requires d < 10
    ensures IsDigit(c)
  {
    ['0', '1', '2', '3', '4', '5', '6', '7', '8', '9'][d]
  }

  function Decimal(n: nat): (s: string)
    ensures s != [] && forall i :: 0 <= i < |s| ==> IsDigit(s[i])
  {
    if n < 10 then [Digit(n)] else Decimal(n / 10) + [Digit(n % 10)]
  }

  function Nibble(d: nat): char
    requires d < 16
  {
    if d < 10 then Digit(d) else ['a', 'b', 'c', 'd', 'e', 'f'][d - 10]
  }

  function Hex(bs: Bytes): (s: string)
    ensures |s| == 2 * |bs|
  {
    if bs == [] then [] else [Nibble(bs[0] as nat / 16), Nibble(bs[0] as nat % 16)] + Hex(bs[1..])
  }

  lemma DigitInjective(a: nat, b: nat)
    requires a < 10 && b < 10 && Digit(a) == Digit(b)
    ensures a == b
  {
  }

  lemma NibbleInjective(a: nat, b: nat)
    requires a < 16 && b < 16 && Nibble(a) == Nibble(b)
    ensures a == b
  {
  }

  lemma {:induction false} DecimalInjective(m: nat, n: nat)
    requires Decimal(m) == Decimal(n)
    ensures m == n
  {
    var s := Decimal(m);
    if m < 10 && n < 10 {
      DigitInjective(m, n);
    } else if 10 <= m && 10 <= n {
      assert Decimal(m / 10) == s[..|s| - 1] == Decimal(n / 10);
      assert Digit(m % 10) == s[|s| - 1] == Digit(n % 10);
      DecimalInjective(m / 10, n / 10);
      DigitInjective(m % 10, n % 10);
    }
  }

  lemma {:induction false} HexInjective(a: Bytes, b: Bytes)
    requires Hex(a) == Hex(b)
    ensures a == b
  {
    if a != [] {
      assert |a| == |b|;
      var s := Hex(a);
      assert Nibble(a[0] as nat / 16) == s[0] == Nibble(b[0] as nat / 16);
      assert Nibble(a[0] as nat % 16) == s[1] == Nibble(b[0] as nat % 16);
      NibbleInjective(a[0] as nat / 16, b[0] as nat / 16);
      NibbleInjective(a[0] as nat % 16, b[0] as nat % 16);
      assert Hex(a[1..]) == s[2..] == Hex(b[1..]);
      HexInjective(a[1..], b[1..]);
      assert a == [a[0]] + a[1..] && b == [b[0]] + b[1..];
    }
  }

  ghost predicate NoDigitFirst(s: string) {
    s == [] || !IsDigit(s[0])
  }

  /** A number ends where the digits end. */
  lemma DecimalSplit(m: nat, r: string, n: nat, s: string)
    requires Decimal(m) + r == Decimal(n) + s && NoDigitFirst(r) && NoDigitFirst(s)
    ensures m == n && r == s
  {
    var all := Decimal(m) + r;
    assert |Decimal(m)| < |all| ==> all[|Decimal(m)|] == r[0];
    assert |Decimal(n)| < |all| ==> all[|Decimal(n)|] == s[0];
    assert Decimal(m) == all[..|Decimal(m)|] == Decimal(n);
    assert r == all[|Decimal(m)|..] == s;
    DecimalInjective(m, n);
  }

  // ---------------------------------------------------------------- transaction ids

  const ID_LENGTH: nat := 16

  const ZERO_ID: ChannelId := [0, 0, 0, 0, 0, 0, 0, 0, 0, 0, 0, 0, 0, 0, 0, 0]

  predicate ProperId(id: ChannelId) {
    |id| == ID_LENGTH && id != ZERO_ID
  }

  ghost predicate ProperTxId(id: TxId) {
    forall i :: 0 <= i < |id| ==> ProperId(id[i].chan)
  }

  /** How one frame id is written, after a frame of channel `cur`. */
  function FramePart(f: FrameId, cur: ChannelId): string {
    if f.chan == cur then ['+'] + Decimal(f.number)
    else (if cur != ZERO_ID then ['|'] else []) + Hex(f.chan) + [':'] + Decimal(f.number)
  }

  function TxKeyFrom(id: TxId, cur: ChannelId): string {
    if id == [] then [] else FramePart(id[0], cur) + TxKeyFrom(id[1..], id[0].chan)
  }

  function TxKey(id: TxId): string {
    TxKeyFrom(id, ZERO_ID)
  }

  /** What follows a frame of a proper channel starts with a separator. */
  lemma RestStartsApart(id: TxId, cur: ChannelId)
    requires ProperId(cur)
    ensures NoDigitFirst(TxKeyFrom(id, cur))
  {
  }

  /** A frame's part begins with a plus exactly when the channel goes on. */
  lemma {:induction false} TxKeyFromInjective(a: TxId, b: TxId, cur: ChannelId)
    requires ProperTxId(a) && ProperTxId(b) && (ProperId(cur) || cur == ZERO_ID)
    requires TxKeyFrom(a, cur) == TxKeyFrom(b, cur)
    ensures a == b
    decreases |a|
  {
    if a != [] && b != [] {
      var ra, rb := TxKeyFrom(a[1..], a[0].chan), TxKeyFrom(b[1..], b[0].chan);
      RestStartsApart(a[1..], a[0].chan);
      RestStartsApart(b[1..], b[0].chan);
      FirstFrame(a[0], ra, b[0], rb, cur);
      TxKeyFromInjective(a[1..], b[1..], a[0].chan);
      assert a == [a[0]] + a[1..] && b == [b[0]] + b[1..];
    }
  }

  lemma HexNoPlus(f: FrameId, cur: ChannelId, r: string)
    requires ProperId(f.chan) && f.chan != cur
    ensures (FramePart(f, cur) + r)[0] != '+'
  {
    assert Hex(f.chan)[0] == Nibble(f.chan[0] as nat / 16);
  }

  /** The first frame of a key, and what follows it, can be read back. */
  lemma FirstFrame(f: FrameId, r: string, g: FrameId, s: string, cur: ChannelId)
    requires ProperId(f.chan) && ProperId(g.chan) && NoDigitFirst(r) && NoDigitFirst(s)
    requires FramePart(f, cur) + r == FramePart(g, cur) + s
    ensures f == g && r == s
  {
    hide Hex, Decimal, NoDigitFirst, ProperId;
    if f.chan != cur { HexNoPlus(f, cur, r); }
    if g.chan != cur { HexNoPlus(g, cur, s); }
    if f.chan == cur {
      SameChannel(f, r, g, s, cur);
    } else {
      OtherChannel(f, r, g, s, cur);
    }
    DecimalSplit(f.number, r, g.number, s);
  }

  lemma SameHead(a: string, r: string, b: string, s: string)
    requires a + r == b + s && |a| == |b|
    ensures a == b && r == s
  {
    var all := a + r;
    assert a == all[..|a|] == b;
    assert r == all[|a|..] == s;
  }

  lemma SameChannel(f: FrameId, r: string, g: FrameId, s: string, cur: ChannelId)
    requires f.chan == cur == g.chan && FramePart(f, cur) + r == FramePart(g, cur) + s
    ensures Decimal(f.number) + r == Decimal(g.number) + s
  {
    hide Decimal;
    Associate(['+'], Decimal(f.number), r);
    Associate(['+'], Decimal(g.number), s);
    SameHead(['+'], Decimal(f.number) + r, ['+'], Decimal(g.number) + s);
  }

  lemma Associate(a: string, b: string, c: string)
    ensures a + b + c == a + (b + c)
  {
  }

  lemma OtherChannel(f: FrameId, r: string, g: FrameId, s: string, cur: ChannelId)
    requires ProperId(f.chan) && ProperId(g.chan) && f.chan != cur && g.chan != cur
    requires FramePart(f, cur) + r == FramePart(g, cur) + s
    ensures f.chan == g.chan && Decimal(f.number) + r == Decimal(g.number) + s
  {
    var sep: string := if cur != ZERO_ID then ['|'] else [];
    var a, b := sep + Hex(f.chan) + [':'], sep + Hex(g.chan) + [':'];
    Associate(a, Decimal(f.number), r);
    Associate(b, Decimal(g.number), s);
    SameHead(a, Decimal(f.number) + r, b, Decimal(g.number) + s);
    hide FramePart, Decimal;
    SameHead(sep + Hex(f.chan), [':'], sep + Hex(g.chan), [':']);
    SameHead(sep, Hex(f.chan), sep, Hex(g.chan));
    HexInjective(f.chan, g.chan);
  }

  /** Transactions with different frame lists have different keys. */
  lemma TxKeyInjective(a: TxId, b: TxId)
    requires ProperTxId(a) && ProperTxId(b)
    ensures TxKey(a) == TxKey(b) <==> a == b
  {
    if TxKey(a) == TxKey(b) {
      TxKeyFromInjective(a, b, ZERO_ID);
    }
  }

  // ---------------------------------------------------------------- challenge keys

  function ChallengeKey(comm: Comm, block: nat): string {
    Decimal(block) + Hex(comm.Encode())
  }

  /** Commitments of one length, such as all Keccak commitments, have distinct keys. */
  lemma ChallengeKeyInjective(c: Comm, m: nat, d: Comm, n: nat)
    requires |c.data| == |d.data|
    ensures ChallengeKey(c, m) == ChallengeKey(d, n) <==> c == d && m == n
  {
    hide Hex, Decimal;
    ChallengeKeyExact(c, m, d, n);
    var e := c.Encode();
    assert e[..0] == [] && e[0..] == e && c.data == e[1..] && d.data == d.Encode()[1..];
    assert Decimal(m) + Hex([]) == Decimal(m);
    if Decimal(n) == Decimal(m) {
      DecimalInjective(m, n);
    }
  }

  function Ones(k: nat): Bytes {
    if k == 0 then [] else [1] + Ones(k - 1)
  }

  function AppendOnes(block: nat, k: nat): nat
    decreases k
  {
    if k == 0 then block else AppendOnes(block * 100 + 1, k - 1)
  }

  lemma {:induction false} HexConcat(a: Bytes, b: Bytes)
    ensures Hex(a + b) == Hex(a) + Hex(b)
  {
    if a == [] {
      assert a + b == b;
    } else {
      assert (a + b)[1..] == a[1..] + b;
      HexConcat(a[1..], b);
    }
  }

  /**
   When two challenge keys are equal, whatever the lengths: the longer encoding ends in the shorter, and what it has
   before, in hexadecimal, reads as the further digits of the other's block number.
   */
  lemma ChallengeKeyExact(c: Comm, m: nat, d: Comm, n: nat)
    requires |d.data| <= |c.data|
    ensures var k := |c.data| - |d.data|;
      ChallengeKey(c, m) == ChallengeKey(d, n) <==>
        c.Encode()[k..] == d.Encode() && Decimal(n) == Decimal(m) + Hex(c.Encode()[..k])
  {
    hide Hex, Decimal;
    var k, e := |c.data| - |d.data|, c.Encode();
    assert e == e[..k] + e[k..];
    HexConcat(e[..k], e[k..]);
    Associate(Decimal(m), Hex(e[..k]), Hex(e[k..]));
    if ChallengeKey(c, m) == ChallengeKey(d, n) {
      SameTail(Decimal(m) + Hex(e[..k]), Hex(e[k..]), Decimal(n), Hex(d.Encode()));
      HexInjective(e[k..], d.Encode());
    }
  }

  lemma SameTail(a: string, r: string, b: string, s: string)
    requires a + r == b + s && |r| == |s|
    ensures a == b && r == s
  {
    assert |a| == |b|;
    SameHead(a, r, b, s);
  }

  /**
   Such pairs exist for every difference in length: with no separator, leading bytes of a longer generic commitment
   read as further digits of the block number.
   */
  lemma {:induction false} ChallengeKeysCollide(data: Bytes, block: nat, k: nat)
    requires 1 <= block
    ensures ChallengeKey(Generic(Ones(k) + data), block) == ChallengeKey(Generic(data), AppendOnes(block, k))
    ensures |Ones(k) + data| == |data| + k
    decreases k
  {
    hide ChallengeKey;
    if k == 0 {
      assert Ones(0) + data == data;
    } else {
      ChallengeKeysCollide(data, block * 100 + 1, k - 1);
      assert Ones(k) + data == [1] + (Ones(k - 1) + data);
      CollideOnce(Ones(k - 1) + data, block);
    }
  }

  lemma CollideOnce(tail: Bytes, block: nat)
    requires 1 <= block
    ensures ChallengeKey(Generic([1] + tail), block) == ChallengeKey(Generic(tail), block * 100 + 1)
  {
    var enc := Generic([1] + tail).Encode();
    assert enc[1..] == Generic(tail).Encode();
    assert Hex(enc) == ['0', '1'] + Hex(Generic(tail).Encode());
    DecimalAppend(block);
  }

  lemma DecimalAppend(block: nat)
    requires 1 <= block
    ensures Decimal(block * 100 + 1) == Decimal(block) + ['0', '1']
  {
    assert (block * 100 + 1) / 10 == block * 10 && (block * 100 + 1) % 10 == 1;
    assert (block * 10) / 10 == block && (block * 10) % 10 == 0;
    assert Decimal(block * 10) == Decimal(block) + ['0'];
  }
}
