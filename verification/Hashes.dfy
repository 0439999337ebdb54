/** Length-delimited tagged hashing. SHA-256 itself is an unknown function. */
module Hashes {
  import opened Bits

  type Bytes = seq<Byte>

  const SECURITY: nat := 32

  type HashOutput = b: Bytes | |b| == SECURITY witness seq(SECURITY, _ => 0)

  /** The digest function: nothing is assumed about it. */
  const Sha256: Bytes -> HashOutput

  // Big-endian integers

  function ToByte(n: nat): (b: Byte)
    requires n < 256
    ensures b as int == n
  {
    PosByte(n);
    Pos(n)
  }

  function Pow256(k: nat): nat {
    if k == 0 then 1 else 256 * Pow256(k - 1)
  }

  /** The k low-order bytes of n, most significant first: to_be_bytes. */
  function BigEndian(n: nat, k: nat): (b: Bytes)
    ensures |b| == k
  {
    if k == 0 then [] else BigEndian(n / 256, k - 1) + [ToByte(n % 256)]
  }

  /** from_be_bytes */
  function FromBigEndian(b: Bytes): nat {
    if b == [] then 0 else FromBigEndian(b[..|b| - 1]) * 256 + b[|b| - 1] as int
  }

  lemma {:induction false} BigEndianRoundTrip(n: nat, k: nat)
    requires n < Pow256(k)
    ensures FromBigEndian(BigEndian(n, k)) == n
  {
    if k > 0 {
      BigEndianRoundTrip(n / 256, k - 1);
      var b := BigEndian(n, k);
      assert b[..k - 1] == BigEndian(n / 256, k - 1);
    }
  }

  // The encoding that is hashed

  function LengthPrefixed(component: Bytes): Bytes {
    BigEndian(|component|, 8) + component
  }

  /** len(c_0) || c_0 || len(c_1) || c_1 || ... */
  function Encode(components: seq<Bytes>): Bytes {
    if components == [] then [] else LengthPrefixed(components[0]) + Encode(components[1..])
  }

  lemma {:induction false} EncodeAppend(components: seq<Bytes>, c: Bytes)
    ensures Encode(components + [c]) == Encode(components) + LengthPrefixed(c)
  {
    if components == [] {
      assert (components + [c])[1..] == [];
    } else {
      EncodeAppend(components[1..], c);
      assert (components + [c])[1..] == components[1..] + [c];
    }
  }

  method AppendLenPrefixed(encoded: Bytes, component: Bytes) returns (r: Bytes)
    ensures r == encoded + LengthPrefixed(component)
  {
    r := encoded + BigEndian(|component|, 8);
    r := r + component;
  }

  /** tagged_hash */
  method TaggedHashOf(tag: Bytes, components: seq<Bytes>) returns (h: HashOutput)
    ensures h == TaggedHash(tag, components)
  {
    var encoded := AppendLenPrefixed([], tag);
    assert Encode([tag] + components[..0]) == encoded by {
      assert [tag] + components[..0] == [] + [tag];
      EncodeAppend([], tag);
    }
    for i := 0 to |components|
      invariant encoded == Encode([tag] + components[..i])
    {
      EncodeAppend([tag] + components[..i], components[i]);
      assert [tag] + components[..i + 1] == [tag] + components[..i] + [components[i]];
      encoded := AppendLenPrefixed(encoded, components[i]);
    }
    assert components[..|components|] == components;
    h := Sha256(encoded);
  }

  function TaggedHash(tag: Bytes, components: seq<Bytes>): HashOutput {
    Sha256(Encode([tag] + components))
  }

  /** All lengths fit in a u64, as they do for every slice. */
  predicate Encodable(components: seq<Bytes>) {
    forall i :: 0 <= i < |components| ==> |components[i]| < Pow256(8)
  }

  lemma PrefixDetermines(a: Bytes, b: Bytes, s: Bytes, t: Bytes)
    requires |a| < Pow256(8) && |b| < Pow256(8)
    requires LengthPrefixed(a) + s == LengthPrefixed(b) + t
    ensures a == b && s == t
  {
    var x, y := LengthPrefixed(a) + s, LengthPrefixed(b) + t;
    assert BigEndian(|a|, 8) == x[..8] == y[..8] == BigEndian(|b|, 8);
    BigEndianRoundTrip(|a|, 8);
    BigEndianRoundTrip(|b|, 8);
    assert a == x[8..8 + |a|] == y[8..8 + |b|] == b;
    assert s == x[8 + |a|..] == y[8 + |b|..] == t;
  }

  /** Equal encodings come from equal component lists. */
  lemma {:induction false} EncodeInjective(a: seq<Bytes>, b: seq<Bytes>)
    requires Encodable(a) && Encodable(b) && Encode(a) == Encode(b)
    ensures a == b
  {
    if a == [] {
      assert b != [] ==> |Encode(b)| >= 8;
    } else {
      assert |Encode(a)| >= 8;
      assert b != [];
      PrefixDetermines(a[0], b[0], Encode(a[1..]), Encode(b[1..]));
      EncodeInjective(a[1..], b[1..]);
      assert a == [a[0]] + a[1..] && b == [b[0]] + b[1..];
    }
  }

  /** The bytes handed to the digest determine the tag, the number of components and each of them. */
  lemma TaggedEncodingInjective(tag: Bytes, components: seq<Bytes>, tag': Bytes, components': seq<Bytes>)
    requires Encodable([tag] + components) && Encodable([tag'] + components')
    requires Encode([tag] + components) == Encode([tag'] + components')
    ensures tag == tag' && components == components'
  {
    EncodeInjective([tag] + components, [tag'] + components');
    assert tag == ([tag] + components)[0] && components == ([tag] + components)[1..];
    assert tag' == ([tag'] + components')[0] && components' == ([tag'] + components')[1..];
  }
}
