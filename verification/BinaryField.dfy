/** Packed field elements: the product is a function of its factors, commutative and linear over XOR. */
module BinaryField {
  import opened Bits
  import opened Hashes
  import opened BinaryPolynomials
  import opened FieldMultiplication
  import opened PackedBits
  import opened Outcomes

  type FieldElement = b: Bytes | |b| == FIELD_BYTES witness seq(FIELD_BYTES, _ => 0)

  /** m represents the product of l and r modulo X^208 + X^9 + X^3 + X + 1. */
  ghost predicate IsProduct(l: FieldElement, r: FieldElement, m: FieldElement) {
    Congruent(Product(BytesPoly(l), BytesPoly(r), 208), BytesPoly(m))
  }

  // Packed bytes and polynomials

  lemma BytesBelow(a: Bytes)
    requires |a| <= 64
    ensures Below(BytesPoly(a), 8 * |a|)
  {
    hide ByteBit;
  }

  lemma BytesPolyInjective(a: Bytes, b: Bytes)
    requires |a| == |b| <= 64 && BytesPoly(a) == BytesPoly(b)
    ensures a == b
  {
    hide ByteBit, BytesPoly;
    forall i | 0 <= i < 8 * |a| ensures RowBit(a, i) == RowBit(b, i) {
      BytesPolyAt(a, i);
      BytesPolyAt(b, i);
    }
    SameRow(a, b);
  }

  lemma BytesPolyXor(a: Bytes, b: Bytes)
    requires |a| == |b| <= 64
    ensures BytesPoly(XorBytes(a, b)) == Plus(BytesPoly(a), BytesPoly(b))
  {
    hide ByteBit, BytesPoly, XorBytes;
    var x := XorBytes(a, b);
    forall k | 0 <= k < SIZE ensures BytesPoly(x)[k] == Plus(BytesPoly(a), BytesPoly(b))[k] {
      BytesPolyAt(a, k);
      BytesPolyAt(b, k);
      BytesPolyAt(x, k);
      if k < 8 * |a| {
        XorRowBit(a, b, k);
      }
    }
  }

  lemma PackPoly(p: Poly) returns (m: FieldElement)
    requires Below(p, 208)
    ensures BytesPoly(m) == p
  {
    hide ByteBit, BytesPoly, Pack;
    m := Pack(p[..208]);
    forall k | 0 <= k < SIZE ensures BytesPoly(m)[k] == p[k] {
      BytesPolyAt(m, k);
      if k < 208 {
        PackRowBit(p[..208], k);
      }
    }
  }

  // Long division

  lemma {:induction false} Divide(whole: Poly, p: Poly, n: nat) returns (r: Poly)
    requires 208 <= n <= SIZE && Below(p, n) && Congruent(whole, p)
    ensures Congruent(whole, r) && Below(r, 208)
    decreases n
  {
    hide Congruent;
    if n == 208 {
      r := p;
    } else if !p[n - 1] {
      r := Divide(whole, p, n - 1);
    } else {
      var q := Monomial(n - 1 - 208);
      StillCongruent(whole, p, q);
      r := Divide(whole, Plus(p, Multiple(q)), n - 1);
    }
  }

  lemma ProductExists(l: FieldElement, r: FieldElement)
    ensures exists m: FieldElement :: IsProduct(l, r, m)
  {
    hide Congruent, BytesPoly;
    var p := Product(BytesPoly(l), BytesPoly(r), 208);
    CongruentSelf(p);
    var rest := Divide(p, p, SIZE);
    var m := PackPoly(rest);
    assert IsProduct(l, r, m);
  }

  /** The product of two field elements. */
  ghost function FieldProduct(l: FieldElement, r: FieldElement): (m: FieldElement)
    ensures IsProduct(l, r, m)
  {
    ProductExists(l, r);
    var m: FieldElement :| IsProduct(l, r, m);
    m
  }

  lemma ProductUnique(l: FieldElement, r: FieldElement, m: FieldElement)
    requires IsProduct(l, r, m)
    ensures m == FieldProduct(l, r)
  {
    hide Congruent, BytesPoly, Product;
    var w := FieldProduct(l, r);
    BytesBelow(m);
    BytesBelow(w);
    RemainderIsUnique(Product(BytesPoly(l), BytesPoly(r), 208), BytesPoly(m), BytesPoly(w));
    BytesPolyInjective(m, w);
  }

  /** field_mul computes the product and fails exactly on operands of another length. */
  method Multiply(left: Bytes, right: Bytes) returns (r: Result<FieldElement, FieldError>)
    ensures r.Ok? <==> |left| == FIELD_BYTES && |right| == FIELD_BYTES
    ensures r.Ok? ==> r.value == FieldProduct(left, right)
  {
    hide Congruent, BytesPoly, Product;
    var m := FieldMul(left, right);
    if m.Err? {
      return Err(m.error);
    }
    assert IsProduct(left, right, m.value);
    ProductUnique(left, right, m.value);
    return Ok(m.value);
  }

  // Algebra

  lemma CongruentPlus(p: Poly, r: Poly, p': Poly, r': Poly)
    requires Congruent(p, r) && Congruent(p', r')
    ensures Congruent(Plus(p, p'), Plus(r, r'))
  {
    var q: Poly :| Below(q, 304) && p == Plus(r, Product(q, Modulus(), 304));
    var q': Poly :| Below(q', 304) && p' == Plus(r', Product(q', Modulus(), 304));
    ProductPlusLeft(q, q', Modulus(), 304);
    Interleave(r, Product(q, Modulus(), 304), r', Product(q', Modulus(), 304));
    assert Below(Plus(q, q'), 304);
  }

  lemma Interleave(a: Poly, b: Poly, c: Poly, d: Poly)
    ensures Plus(Plus(a, b), Plus(c, d)) == Plus(Plus(a, c), Plus(b, d))
  {}

  /** XOR of factors gives XOR of products. */
  lemma ProductXor(a: FieldElement, b: FieldElement, c: FieldElement)
    ensures FieldProduct(XorBytes(a, b), c) == XorBytes(FieldProduct(a, c), FieldProduct(b, c))
  {
    hide Congruent, BytesPoly, Product, Plus, XorBytes;
    var m := XorBytes(FieldProduct(a, c), FieldProduct(b, c));
    BytesPolyXor(a, b);
    BytesPolyXor(FieldProduct(a, c), FieldProduct(b, c));
    ProductPlusLeft(BytesPoly(a), BytesPoly(b), BytesPoly(c), 208);
    CongruentPlus(Product(BytesPoly(a), BytesPoly(c), 208), BytesPoly(FieldProduct(a, c)),
                  Product(BytesPoly(b), BytesPoly(c), 208), BytesPoly(FieldProduct(b, c)));
    ProductUnique(XorBytes(a, b), c, m);
  }

  lemma FieldProductCommutes(a: FieldElement, b: FieldElement)
    ensures FieldProduct(a, b) == FieldProduct(b, a)
  {
    hide Congruent, BytesPoly, Product;
    BytesBelow(a);
    BytesBelow(b);
    ProductCommutes(BytesPoly(a), BytesPoly(b), 208, 208);
    ProductUnique(b, a, FieldProduct(a, b));
  }

  /** A factor switched off switches its product off. */
  lemma ProductMask(on: bool, a: FieldElement, c: FieldElement)
    ensures FieldProduct(Mask(on, a), c) == Mask(on, FieldProduct(a, c))
  {
    hide FieldProduct, IsProduct, Mask, XorBytes;
    if on {
      MaskOff(a, a);
      MaskOff(FieldProduct(a, c), FieldProduct(a, c));
    } else {
      var z := Mask(false, a);
      MaskOff(z, a);
      ProductXor(z, z, c);
      XorIsZero(z, a, FieldProduct(z, c), FieldProduct(a, c));
    }
  }

  lemma XorIsZero(z: FieldElement, a: FieldElement, w: FieldElement, b: FieldElement)
    requires z == Mask(false, a) && XorBytes(z, z) == z ==> w == XorBytes(w, w)
    requires z == Mask(false, a)
    ensures w == Mask(false, b)
  {
    assert XorBytes(z, z) == z;
    forall i | 0 <= i < |w| ensures w[i] == MaskByte(false, b[i]) {
      assert w[i] == XorByte(w[i], w[i]);
    }
  }
}
