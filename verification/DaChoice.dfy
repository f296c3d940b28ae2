/**
 Choosing between calldata and blobs for the next channel, by cost per byte.
 Gas prices are given; amounts are exact integers.
 */
module DaChoice {

  const TX_GAS: nat := 21000
  const BLOB_GAS: nat := 0x20000
  const MAX_BLOB_DATA: nat := (4 * 31 + 3) * 1024 - 4
  const STANDARD_TOKEN_COST: nat := 4
  const FLOOR_TOKEN_COST: nat := 10

  datatype Prices = Prices(tipCap: nat, baseFee: nat, blobBaseFee: nat)

  /** The largest calldata frame, and the number of blobs in a blob transaction. */
  datatype Sizes = Sizes(maxFrameSize: nat, numBlobs: nat)

  datatype Choice = Calldata | Blobs

  function CalldataBytes(z: Sizes): nat {
    z.maxFrameSize + 1
  }

  function BlobBytes(z: Sizes): nat {
    MAX_BLOB_DATA * z.numBlobs
  }

  function CalldataCost(tokens: nat, p: Prices, isPectra: bool): nat {
    (TX_GAS + tokens * (if isPectra then FLOOR_TOKEN_COST else STANDARD_TOKEN_COST)) * (p.baseFee + p.tipCap)
  }

  function BlobCost(z: Sizes, p: Prices): nat {
    BLOB_GAS * z.numBlobs * p.blobBaseFee + TX_GAS * (p.baseFee + p.tipCap)
  }

  /** The comparison is cross-multiplied, so nothing is rounded. */
  function Choose(z: Sizes, p: Prices, isPectra: bool): Choice {
    if CalldataCost(CalldataBytes(z) * 4, p, isPectra) * BlobBytes(z) < BlobCost(z, p) * CalldataBytes(z) then Calldata
    else Blobs
  }

  /** The provider remembers its last choice and repeats it when prices cannot be had. */
  class ConfigProvider {
    const sizes: Sizes
    var last: Choice

    constructor (sizes: Sizes)
      ensures this.sizes == sizes && last == Blobs
    {
      this.sizes := sizes;
      last := Blobs;
    }

    method ChannelConfig(known: bool, prices: Prices, isPectra: bool) returns (choice: Choice)
      modifies this
      ensures choice == last
      ensures last == if known then Choose(sizes, prices, isPectra) else old(last)
    {
      if !known {
        return last;
      }
      var calldataCost := CalldataCost(CalldataBytes(sizes) * 4, prices, isPectra);
      var blobCost := BlobCost(sizes, prices);
      if blobCost * CalldataBytes(sizes) > calldataCost * BlobBytes(sizes) {
        last := Calldata;
        return Calldata;
      }
      last := Blobs;
      return Blobs;
    }
  }

  /**
   The cost model, apart from the functions: every transaction pays 21000 gas; a non-zero calldata byte costs 16 gas, and
   40 by the floor of EIP-7623; a blob costs 131072 blob gas at the blob base fee. Gas is paid at base fee plus tip.
   */
  lemma CostsPerByte(bytes: nat, z: Sizes, p: Prices)
    ensures CalldataCost(0, p, false) == CalldataCost(0, p, true) == 21000 * (p.baseFee + p.tipCap)
    ensures CalldataCost(4 * (bytes + 1), p, false) - CalldataCost(4 * bytes, p, false) == 16 * (p.baseFee + p.tipCap)
    ensures CalldataCost(4 * (bytes + 1), p, true) - CalldataCost(4 * bytes, p, true) == 40 * (p.baseFee + p.tipCap)
    ensures BlobCost(z.(numBlobs := 0), p) == 21000 * (p.baseFee + p.tipCap)
    ensures BlobCost(z.(numBlobs := z.numBlobs + 1), p) - BlobCost(z, p) == 131072 * p.blobBaseFee
    ensures CalldataBytes(z) == z.maxFrameSize + 1 && BlobBytes(z) == 130044 * z.numBlobs
  {
    var fee := p.baseFee + p.tipCap;
    OneMore(TX_GAS + 4 * bytes * STANDARD_TOKEN_COST, 16, fee);
    OneMore(TX_GAS + 4 * bytes * FLOOR_TOKEN_COST, 40, fee);
    OneMore(BLOB_GAS * z.numBlobs, BLOB_GAS, p.blobBaseFee);
  }

  lemma OneMore(gas: nat, more: nat, fee: nat)
    ensures (gas + more) * fee - gas * fee == more * fee
  {
  }

  lemma CrossMultiply(a: int, x: int, b: int, y: int)
    requires 0 < x && 0 < y
    ensures a as real / x as real > b as real / y as real <==> a * y > b * x
  {
    var ar, xr, br, yr := a as real, x as real, b as real, y as real;
    var p, q := ar / xr, br / yr;
    assert ar == p * xr && br == q * yr;
    assert (a * y) as real == ar * yr && (b * x) as real == br * xr;
    assert ar * yr == p * (xr * yr) && br * xr == q * (xr * yr);
    ScaleOrder(p, q, xr * yr);
  }

  lemma ScaleOrder(p: real, q: real, s: real)
    requires 0.0 < s
    ensures p > q <==> p * s > q * s
  {
    assert p * s - q * s == (p - q) * s;
  }

  /** Calldata is chosen exactly when a byte in a blob costs strictly more than a byte of calldata. */
  lemma ChoiceIsCheapest(z: Sizes, p: Prices, isPectra: bool)
    requires 0 < z.numBlobs
    ensures Choose(z, p, isPectra) == Calldata <==>
      BlobCost(z, p) as real / BlobBytes(z) as real
        > CalldataCost(CalldataBytes(z) * 4, p, isPectra) as real / CalldataBytes(z) as real
  {
    CrossMultiply(BlobCost(z, p), BlobBytes(z), CalldataCost(CalldataBytes(z) * 4, p, isPectra), CalldataBytes(z));
  }

  lemma MulMonotone(a: nat, b: nat, k: nat)
    requires a <= b
    ensures a * k <= b * k
  {
    assert b * k == a * k + (b - a) * k;
  }

  /** A higher blob base fee never moves the choice to blobs. */
  lemma BlobFeeMonotone(z: Sizes, p: Prices, fee: nat, isPectra: bool)
    requires p.blobBaseFee <= fee && Choose(z, p, isPectra) == Calldata
    ensures Choose(z, p.(blobBaseFee := fee), isPectra) == Calldata
  {
    var q := p.(blobBaseFee := fee);
    assert BlobCost(z, p) <= BlobCost(z, q) by {
      MulMonotone(p.blobBaseFee, fee, BLOB_GAS * z.numBlobs);
    }
    MulMonotone(BlobCost(z, p), BlobCost(z, q), CalldataBytes(z));
  }

  /** Enabling Pectra pricing never moves the choice from blobs to calldata. */
  lemma PectraKeepsBlobs(z: Sizes, p: Prices)
    requires Choose(z, p, false) == Blobs
    ensures Choose(z, p, true) == Blobs
  {
    var tokens := CalldataBytes(z) * 4;
    assert CalldataCost(tokens, p, false) <= CalldataCost(tokens, p, true) by {
      MulMonotone(TX_GAS + tokens * STANDARD_TOKEN_COST, TX_GAS + tokens * FLOOR_TOKEN_COST, p.baseFee + p.tipCap);
    }
    MulMonotone(CalldataCost(tokens, p, false), CalldataCost(tokens, p, true), BlobBytes(z));
  }

  function Scaled(p: Prices, k: nat): Prices {
    Prices(p.tipCap * k, p.baseFee * k, p.blobBaseFee * k)
  }

  /** Only the ratios of the prices matter. */
  lemma ScaleInvariant(z: Sizes, p: Prices, k: nat, isPectra: bool)
    requires 1 <= k
    ensures Choose(z, Scaled(p, k), isPectra) == Choose(z, p, isPectra)
  {
    var tokens := CalldataBytes(z) * 4;
    var a, b := CalldataCost(tokens, p, isPectra), BlobCost(z, p);
    var gas := TX_GAS + tokens * (if isPectra then FLOOR_TOKEN_COST else STANDARD_TOKEN_COST);
    var fee := p.baseFee + p.tipCap;
    Factor(gas, fee, k);
    Factor(TX_GAS, fee, k);
    Factor(BLOB_GAS * z.numBlobs, p.blobBaseFee, k);
    assert p.baseFee * k + p.tipCap * k == fee * k;
    assert CalldataCost(tokens, Scaled(p, k), isPectra) == a * k;
    assert BlobCost(z, Scaled(p, k)) == b * k;
    ScaledLess(a * BlobBytes(z), b * CalldataBytes(z), k);
    Reorder(a, k, BlobBytes(z));
    Reorder(b, k, CalldataBytes(z));
  }

  lemma Factor(a: nat, b: nat, k: nat)
    ensures a * (b * k) == (a * b) * k
  {
  }

  lemma Reorder(a: nat, k: nat, x: nat)
    ensures (a * k) * x == (a * x) * k
  {
  }

  lemma ScaledLess(a: nat, b: nat, k: nat)
    requires 1 <= k
    ensures a < b <==> a * k < b * k
  {
    if a < b {
      MulMonotone(a + 1, b, k);
    } else {
      MulMonotone(b, a, k);
    }
  }
}
