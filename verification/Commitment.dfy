/**
 Input commitments of the alt-DA mode. The hash is a parameter: nothing here
 depends on which function it is.
 */
module Commitments {
  import opened BatcherTypes

  type HashFn = Bytes -> Bytes

  /** The two known kinds; the leading type byte is 0 for Keccak and 1 for generic. */
  datatype Comm = Keccak(data: Bytes) | Generic(data: Bytes)
  {
    function Encode(): Bytes {
      [if Keccak? then 0 else 1] + data
    }

    /** A generic commitment is never opened by the node, so anything matches it. */
    predicate Verify(hash: HashFn, input: Bytes) {
      Generic? || hash(input) == data
    }

    /** What decoding accepts. */
    predicate Valid() {
      if Keccak? then |data| == 32 else data != []
    }
  }

  function Decode(input: Bytes): Option<Comm> {
    if input == [] then None
    else if input[0] == 0 && |input| == 33 then Some(Keccak(input[1..]))
    else if input[0] == 1 && 1 < |input| then Some(Generic(input[1..]))
    else None
  }

  /** Decoding inverts encoding on exactly the valid commitments, and yields nothing else. */
  lemma DecodeEncode(c: Comm, input: Bytes)
    ensures Decode(c.Encode()) == (if c.Valid() then Some(c) else None)
    ensures Decode(input).Some? ==> Decode(input).value.Valid() && Decode(input).value.Encode() == input
  {
    assert c.Encode()[1..] == c.data;
  }
}
