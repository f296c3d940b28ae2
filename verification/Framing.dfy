/**
 How the peers of the pre-image oracle know where a message ends: a fixed size,
 or a big-endian length prefix.
 */
module Framing {
  import opened BatcherTypes

  function BigEndian(bs: Bytes): nat {
    if bs == [] then 0 else 256 * BigEndian(bs[..|bs| - 1]) + bs[|bs| - 1] as nat
  }

  function Pow256(width: nat): (p: nat)
    ensures 1 <= p
  {
    if width == 0 then 1 else 256 * Pow256(width - 1)
  }

  /** The last `width` base-256 digits of `n`, as an unsigned integer of that width is written. */
  function ToBigEndian(n: nat, width: nat): (bs: Bytes)
    ensures |bs| == width
    decreases width
  {
    if width == 0 then [] else ToBigEndian(n / 256, width - 1) + [(n % 256) as byte]
  }

  lemma {:induction false} BigEndianRoundTrip(n: nat, width: nat)
    ensures BigEndian(ToBigEndian(n, width)) == n % Pow256(width)
    decreases width
  {
    if width != 0 {
      BigEndianRoundTrip(n / 256, width - 1);
      var p := Pow256(width - 1);
      assert ToBigEndian(n, width)[..width - 1] == ToBigEndian(n / 256, width - 1);
      DigitMod(n, p);
    }
  }

  /** The most significant byte comes first. */
  lemma {:induction false} DigitAt(n: nat, width: nat, i: nat)
    requires i < width
    ensures ToBigEndian(n, width)[i] as nat == n / Pow256(width - 1 - i) % 256
    decreases width
  {
    if i == width - 1 {
      assert Pow256(0) == 1;
    } else {
      DigitAt(n / 256, width - 1, i);
      DivTwice(n, Pow256(width - 2 - i));
    }
  }

  lemma DivTwice(n: nat, p: nat)
    requires 1 <= p
    ensures n / 256 / p == n / (256 * p)
  {
    var q, d := n / 256, n % 256;
    var h, r := q / p, q % p;
    assert n == h * (256 * p) + (256 * r + d) by {
      assert q == h * p + r && n == 256 * q + d;
      assert 256 * (h * p) == h * (256 * p);
    }
    DivUnique(n, 256 * p, h, 256 * r + d);
  }

  lemma DivUnique(n: nat, m: nat, h: nat, r: nat)
    requires 1 <= m && n == h * m + r && r < m
    ensures n / m == h
  {
    ModUnique(n, m, h, r);
    assert n == m * (n / m) + r;
    assert m * (n / m) == m * h;
  }

  lemma DigitMod(n: nat, p: nat)
    requires 1 <= p
    ensures 256 * ((n / 256) % p) + n % 256 == n % (256 * p)
  {
    var q, d := n / 256, n % 256;
    var h, r := q / p, q % p;
    assert q == h * p + r;
    assert n == 256 * q + d;
    assert n == h * (256 * p) + (256 * r + d) by {
      assert 256 * (h * p) == h * (256 * p);
    }
    assert 0 <= 256 * r + d < 256 * p;
    ModUnique(n, 256 * p, h, 256 * r + d);
  }

  lemma MulAtLeast(k: nat, m: nat)
    requires 1 <= k
    ensures m <= k * m
  {
    assert k * m == (k - 1) * m + m;
  }

  lemma ModUnique(n: nat, m: nat, h: nat, r: nat)
    requires 1 <= m && n == h * m + r && r < m
    ensures n % m == r
  {
    var h', r' := n / m, n % m;
    assert n == m * h' + r';
    assert (h - h') * m == r' - r;
    if h < h' {
      MulAtLeast(h' - h, m);
      assert false;
    } else if h' < h {
      MulAtLeast(h - h', m);
      assert false;
    }
  }

  // ---------------------------------------------------------------- messages

  datatype Format = Fixed(size: nat) | Prefixed(width: nat)
  {
    /** How many bytes the reader still asks for, having read `got`. */
    function Needed(got: Bytes): int {
      match this
      case Fixed(size) => size - |got|
      case Prefixed(width) =>
        if |got| < width then width - |got| else width + BigEndian(got[..width]) - |got|
    }

    /** A whole message: nothing more is asked for, and there was something to ask for. */
    predicate Whole(m: Bytes) {
      && m != [] && Needed(m) == 0
      && (Prefixed? ==> 1 <= width <= |m|)
    }
  }

  /** Reading a message piecewise, the reader asks for no byte past its end and stops nowhere before it. */
  lemma PrefixNeeds(f: Format, got: Bytes, rest: Bytes)
    requires f.Whole(got + rest)
    ensures 0 <= f.Needed(got) <= |rest|
    ensures f.Needed(got) == 0 <==> rest == []
  {
    if f.Prefixed? && f.width <= |got| {
      assert (got + rest)[..f.width] == got[..f.width];
    }
  }

  /** A length-prefixed value, as it is written. */
  function Prefix(width: nat, value: Bytes): Bytes {
    ToBigEndian(|value|, width) + value
  }

  /** A length-prefixed value is one whole message exactly when its length fits the prefix. */
  lemma PrefixWhole(width: nat, value: Bytes)
    requires 1 <= width
    ensures Prefixed(width).Whole(Prefix(width, value)) <==> |value| < Pow256(width)
    ensures Prefix(width, value)[width..] == value
  {
    hide BigEndian, ToBigEndian, Pow256;
    var m := Prefix(width, value);
    assert m[..width] == ToBigEndian(|value|, width);
    BigEndianRoundTrip(|value|, width);
    var p := Pow256(width);
    assert Prefixed(width).Needed(m) == |value| % p - |value|;
    if |value| < p {
      ModUnique(|value|, p, 0, |value|);
    }
  }
}
