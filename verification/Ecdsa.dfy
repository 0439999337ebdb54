/** ECDSA (sections 4.1.3, 4.1.4 and 4.1.6 of SEC 1) and the assembly of a signature from broadcast shares. */
module Ecdsa {
  import opened Outcomes
  import opened PrimeField
  import opened Sums
  import opened Polynomials
  import opened Hashes
  import opened Curve
  import opened Proofs
  import opened Protocols

  /** Reads a number as a scalar only if it is below the group order: parse_hex_to_scalar. */
  function ParseScalar(value: nat): Option<Scalar> {
    if value < Q then Some(value) else None
  }

  /** verify_ecdsa_signature */
  function VerifyEcdsa(msg: HashOutput, pk: Point, x_coord: nat, signature: nat): bool {
    var rx, s := ParseScalar(x_coord), ParseScalar(signature);
    if rx.None? || s.None? then false
    else if rx.value == 0 || s.value == 0 then false
    else
      var inverse_s := Inv(s.value);
      var first := Mul(ReduceHash(msg), inverse_s);
      var second := Mul(rx.value, inverse_s);
      var point_to_check := Plus(Base(first), Times(pk, second));
      if point_to_check == IDENTITY then false else Of(X(point_to_check)) == rx.value
  }

  /** (m + r * sk) / s times the generator, as sign_phase4 computes it. */
  function SignaturePoint(msg: HashOutput, pk: Point, rx: Scalar, s: Scalar): Point
    requires s != 0
  {
    Times(Plus(Base(ReduceHash(msg)), Times(pk, rx)), Inv(s))
  }

  /** Both ways of computing the signature point agree. */
  lemma SamePoint(m: Scalar, i: Scalar, r: Scalar, pk: Scalar)
    ensures Add(Mul(m, i), Mul(pk, Mul(r, i))) == Mul(Add(m, Mul(pk, r)), i)
  {
    var m': int, i': int, pk': int, r': int := m, i, pk, r;
    OfScalar(m); OfScalar(i); OfScalar(pk); OfScalar(r);
    OfMul(m', i'); OfMul(r', i'); OfMul(pk', (r' * i')); OfAdd((m' * i'), (pk' * (r' * i'))); OfMul(pk', r');
    OfAdd(m', (pk' * r')); OfMul((m' + (pk' * r')), i');
    assert (m' * i') + (pk' * (r' * i')) == (m' + (pk' * r')) * i';
  }

  /** A signature verifies just when r and s are non-zero scalars and the x coordinate of
      (m + r * sk) / s * G reduces to r. */
  lemma VerifyMeaning(msg: HashOutput, pk: Point, x_coord: nat, signature: nat)
    ensures VerifyEcdsa(msg, pk, x_coord, signature) <==>
      && 0 < x_coord < Q && 0 < signature < Q
      && var p := Base(Mul(Add(ReduceHash(msg), Mul(pk.log, x_coord)), Inv(signature)));
         p != IDENTITY && Of(X(p)) == x_coord
  {
    if 0 < x_coord < Q && 0 < signature < Q {
      SamePoint(ReduceHash(msg), Inv(signature), x_coord, pk.log);
    }
  }

  /** The signature of a single signer with instance key k. */
  function SingleSigner(k: Scalar, sk: Scalar, m: Scalar, r: Scalar): Scalar
    requires k != 0
  {
    Mul(Inv(k), Add(m, Mul(r, sk)))
  }

  lemma DivideBack(e: Scalar, k: Scalar)
    requires k != 0 && e != 0
    ensures Mul(Inv(k), e) != 0 && Mul(e, Inv(Mul(Inv(k), e))) == k
  {
    var s := Mul(Inv(k), e);
    InvNonZero(k);
    if s == 0 {
      NoZeroDivisors(Inv(k), e);
      assert false;
    }
    calc {
      Mul(e, Inv(s));
      { Commute(1, e); Identities(e); }
      Mul(Mul(Mul(k, Inv(k)), e), Inv(s));
      { MulAssoc(k, Inv(k), e); MulAssoc(k, s, Inv(s)); }
      Mul(k, Mul(s, Inv(s)));
      { Identities(k); }
      k;
    }
  }

  lemma NegProduct(a: Scalar, b: Scalar)
    ensures Mul(Neg(a), b) == Neg(Mul(a, b)) && Mul(a, Neg(b)) == Neg(Mul(a, b))
  {
    var a': int, b': int := a, b;
    OfScalar(a); OfScalar(b);
    OfNeg(a'); OfNeg(b'); OfMul(-a', b'); OfMul(a', -b'); OfMul(a', b'); OfNeg(a' * b');
    assert (-a') * b' == -(a' * b') == a' * (-b');
  }

  lemma NegNonZero(a: Scalar)
    requires a != 0
    ensures Neg(a) != 0
  {
    NegValue(a);
  }

  lemma InverseUnique(a: Scalar, b: Scalar)
    requires a != 0 && Mul(a, b) == 1
    ensures b == Inv(a)
  {
    var i := Inv(a);
    Commute(a, i);
    MulAssoc(i, a, b);
    Commute(1, b);
    Identities(b);
    Identities(i);
  }

  lemma NegInverse(a: Scalar)
    requires a != 0
    ensures Neg(a) != 0 && Inv(Neg(a)) == Neg(Inv(a))
  {
    NegNonZero(a);
    NegProduct(a, Neg(Inv(a)));
    NegProduct(a, Inv(a));
    NegNeg(1);
    InverseUnique(Neg(a), Neg(Inv(a)));
  }

  /** s is the single signer's value or its negative. */
  ghost predicate UpToSign(s: Scalar, s0: Scalar) {
    s == s0 || s == Neg(s0)
  }

  /** The signature point of (r, ±s) is ±kG. */
  lemma PointOfSignature(k: Scalar, sk: Scalar, msg: HashOutput, r: Scalar, s: Scalar)
    requires k != 0 && Add(ReduceHash(msg), Mul(r, sk)) != 0
    requires UpToSign(s, SingleSigner(k, sk, ReduceHash(msg), r))
    ensures s != 0
    ensures SignaturePoint(msg, Base(sk), r, s) == if s == SingleSigner(k, sk, ReduceHash(msg), r) then Base(k) else Minus(Base(k))
  {
    var e := Add(ReduceHash(msg), Mul(r, sk));
    var s0 := SingleSigner(k, sk, ReduceHash(msg), r);
    Commute(r, sk);
    DivideBack(e, k);
    if s != s0 {
      NegInverse(s0);
      NegProduct(e, Inv(s0));
    }
  }

  lemma SameX(k: Scalar)
    requires k != 0
    ensures Base(k) != IDENTITY && Minus(Base(k)) != IDENTITY && X(Minus(Base(k))) == X(Base(k))
  {
    NegNonZero(k);
    assert AreCoordinates(COORDINATES);
    NegNeg(k);
  }

  /** Both signs of the single signer's value verify. */
  lemma SingleSignerVerifies(k: Scalar, sk: Scalar, msg: HashOutput, s: Scalar)
    requires k != 0 && 0 < X(Base(k)) < Q
    requires Add(ReduceHash(msg), Mul(X(Base(k)), sk)) != 0
    requires UpToSign(s, SingleSigner(k, sk, ReduceHash(msg), X(Base(k))))
    ensures VerifyEcdsa(msg, Base(sk), X(Base(k)), s)
  {
    var r: Scalar := X(Base(k));
    PointOfSignature(k, sk, msg, r, s);
    VerifyMeaning(msg, Base(sk), r, s);
    SameX(k);
    OfScalar(r);
  }

  // Assembly

  datatype Broadcast3to4 = Broadcast3to4(u: Scalar, w: Scalar)

  function Us(received: seq<Broadcast3to4>): (s: seq<Scalar>)
    ensures |s| == |received|
  {
    seq<Scalar>(|received|, i requires 0 <= i < |received| => received[i].u)
  }

  function Ws(received: seq<Broadcast3to4>): (s: seq<Scalar>)
    ensures |s| == |received|
  {
    seq<Scalar>(|received|, i requires 0 <= i < |received| => received[i].w)
  }

  /** s > n / 2 */
  predicate IsHigh(s: Scalar) {
    2 * s > Q
  }

  function Normalized(s: Scalar, normalize: bool): Scalar {
    if normalize && IsHigh(s) then Neg(s) else s
  }

  /** Bit 0: y is odd. Bit 1: x was reduced. */
  function RecoveryId(point: Point, x_coord: nat): nat {
    (if YIsOdd(point) then 1 else 0) + (if x_coord != Of(x_coord) then 2 else 0)
  }

  /** What sign_phase4 returns. */
  function Phase4Outcome(me: PartyIndex, pk: Point, msg: HashOutput, x_coord: nat, received: seq<Broadcast3to4>, normalize: bool)
    : Result<(Scalar, nat), Abort>
  {
    var numerator, denominator := Sum(Ws(received)), Sum(Us(received));
    if denominator == 0 then Err(Recover(me, ZeroDenominator))
    else
      var s := Normalized(Mul(numerator, Inv(denominator)), normalize);
      if !VerifyEcdsa(msg, pk, x_coord, s) then Err(Recover(me, SignatureVerificationFailed))
      else Ok((s, RecoveryId(SignaturePoint(msg, pk, Of(x_coord), s), x_coord)))
  }

  method SumShares(received: seq<Broadcast3to4>) returns (numerator: Scalar, denominator: Scalar)
    ensures numerator == Sum(Ws(received)) && denominator == Sum(Us(received))
  {
    numerator, denominator := 0, 0;
    for i := 0 to |received|
      invariant numerator == Sum(Ws(received)[..i]) && denominator == Sum(Us(received)[..i])
    {
      numerator := Add(numerator, received[i].w);
      denominator := Add(denominator, received[i].u);
      assert Ws(received)[..i + 1][..i] == Ws(received)[..i] && Us(received)[..i + 1][..i] == Us(received)[..i];
    }
    assert Ws(received)[..|received|] == Ws(received) && Us(received)[..|received|] == Us(received);
  }

  method NormalizeS(quotient: Scalar, normalize: bool) returns (s: Scalar)
    ensures s == Normalized(quotient, normalize)
  {
    s := quotient;
    if normalize && IsHigh(s) {
      s := Neg(s);
    }
  }

  /** sign_phase4 */
  method SignPhase4(me: PartyIndex, pk: Point, msg: HashOutput, x_coord: nat, received: seq<Broadcast3to4>, normalize: bool)
    returns (r: Result<(Scalar, nat), Abort>)
    ensures r == Phase4Outcome(me, pk, msg, x_coord, received, normalize)
  {
    hide VerifyEcdsa, SignaturePoint, RecoveryId, Sum, Normalized;
    var numerator, denominator := SumShares(received);
    if denominator == 0 {
      return Err(Recover(me, ZeroDenominator));
    }
    var s := NormalizeS(Mul(numerator, Inv(denominator)), normalize);
    var verification := VerifyEcdsa(msg, pk, x_coord, s);
    if !verification {
      return Err(Recover(me, SignatureVerificationFailed));
    }
    VerifyMeaning(msg, pk, x_coord, s);
    var signature_point := SignaturePoint(msg, pk, Of(x_coord), s);
    return Ok((s, RecoveryId(signature_point, x_coord)));
  }

  lemma LowS(s: Scalar)
    ensures 2 * Normalized(s, true) <= Q
    ensures UpToSign(Normalized(s, true), s)
  {
    NegValue(s);
  }

  /** SEC 1, section 4.1.6: the key recovered from the signature point. */
  function RecoverKey(point: Point, r: Scalar, s: Scalar, m: Scalar): Point
    requires r != 0
  {
    Times(Plus(Times(point, s), Minus(Base(m))), Inv(r))
  }

  lemma UndoDivision(m: Scalar, pk: Scalar, r: Scalar, s: Scalar)
    requires r != 0 && s != 0
    ensures Mul(Sub(Mul(Mul(Add(m, Mul(pk, r)), Inv(s)), s), m), Inv(r)) == pk
  {
    var e := Add(m, Mul(pk, r));
    assert Mul(Mul(e, Inv(s)), s) == e by {
      MulAssoc(e, Inv(s), s);
      Commute(s, Inv(s));
      Identities(e);
    }
    assert Sub(e, m) == Mul(pk, r) by {
      RemoveFirst(m, Mul(pk, r));
    }
    MulAssoc(pk, r, Inv(r));
    Identities(pk);
  }

  lemma TakesBack(w: Scalar, u: Scalar)
    requires u != 0
    ensures Mul(Mul(w, Inv(u)), u) == w
  {
    MulAssoc(w, Inv(u), u);
    Commute(u, Inv(u));
    Identities(w);
  }

  lemma RemoveFirst(a: Scalar, b: Scalar)
    ensures Sub(Add(a, b), a) == b
  {
    Ring();
  }

  /** Every signature that phase 4 returns is the quotient of the two sums, negated just when a low s was asked for and the
      quotient is high. It verifies, has recovery bit 1 clear and, if asked for, low s; bit 0 is the parity of the signature
      point's y. The signature point recovers the public key. If its x coordinate is x_coord itself, and only then, it is
      among the points that (x_coord, recovery id) describes, and it is the only one. */
  lemma Phase4Sound(me: PartyIndex, pk: Point, msg: HashOutput, x_coord: nat, received: seq<Broadcast3to4>, normalize: bool)
    requires Phase4Outcome(me, pk, msg, x_coord, received, normalize).Ok?
    ensures var (s, rec_id) := Phase4Outcome(me, pk, msg, x_coord, received, normalize).value;
      var (w, u) := (Sum(Ws(received)), Sum(Us(received)));
      && VerifyEcdsa(msg, pk, x_coord, s) && 0 < x_coord < Q && s != 0 && u != 0
      && s == (if normalize && 2 * Mul(w, Inv(u)) > Q then Neg(Mul(w, Inv(u))) else Mul(w, Inv(u)))
      && (!normalize ==> Mul(s, u) == w)
      && (normalize ==> 2 * s <= Q)
      && var point := SignaturePoint(msg, pk, x_coord, s);
      && rec_id == (if YIsOdd(point) then 1 else 0)
      && RecoverKey(point, x_coord, s, ReduceHash(msg)) == pk
      && (X(point) == x_coord <==> IsCandidate(point, x_coord, rec_id))
      && (X(point) == x_coord ==> forall p :: IsCandidate(p, x_coord, rec_id) <==> p == point)
  {
    hide VerifyEcdsa;
    var (s, rec_id) := Phase4Outcome(me, pk, msg, x_coord, received, normalize).value;
    VerifyMeaning(msg, pk, x_coord, s);
    OfScalar(x_coord);
    if normalize {
      LowS(Mul(Sum(Ws(received)), Inv(Sum(Us(received)))));
    }
    UndoDivision(ReduceHash(msg), pk.log, x_coord, s);
    TakesBack(Sum(Ws(received)), Sum(Us(received)));
    var point := SignaturePoint(msg, pk, x_coord, s);
    if X(point) == x_coord {
      forall p ensures IsCandidate(p, x_coord, rec_id) <==> p == point {
        assert AreCoordinates(COORDINATES);
      }
    }
  }

  /** p is a candidate for the signature point: x coordinate r, or r + n if bit 1 is set, and y parity bit 0. */
  predicate IsCandidate(p: Point, r: nat, rec_id: nat) {
    && p != IDENTITY && X(p) == r + (if rec_id >= 2 then Q else 0)
    && YIsOdd(p) == (rec_id % 2 == 1)
  }

  /** Key recovery from (r, s, recovery id) finds the key pk and no other. */
  ghost predicate RecoversKey(r: nat, s: Scalar, rec_id: nat, m: Scalar, pk: Point) {
    && 0 < r < Q && rec_id < 2
    && (exists p :: IsCandidate(p, r, rec_id))
    && forall p :: IsCandidate(p, r, rec_id) ==> RecoverKey(p, r, s, m) == pk
  }

  lemma DividedShares(phi: Scalar, k: Scalar, e: Scalar)
    requires phi != 0 && k != 0
    ensures Mul(k, phi) != 0 && Mul(Mul(phi, e), Inv(Mul(k, phi))) == Mul(Inv(k), e)
  {
    if Mul(k, phi) == 0 {
      NoZeroDivisors(k, phi);
      assert false;
    }
    var d := Mul(k, phi);
    assert Mul(Mul(Inv(k), Inv(phi)), d) == 1 by {
      Regroup(Inv(k), Inv(phi), k, phi);
      Commute(Inv(k), k);
      Commute(Inv(phi), phi);
      Identities(1);
    }
    Commute(Mul(Inv(k), Inv(phi)), d);
    InverseUnique(d, Mul(Inv(k), Inv(phi)));
    calc {
      Mul(Mul(phi, e), Inv(d));
      { Commute(Inv(k), Inv(phi)); Regroup(phi, e, Inv(phi), Inv(k)); }
      Mul(Mul(phi, Inv(phi)), Mul(e, Inv(k)));
      { Commute(1, Mul(e, Inv(k))); Identities(Mul(e, Inv(k))); Commute(e, Inv(k)); }
      Mul(Inv(k), e);
    }
  }

  /** When the shares add up to k * phi and phi * (m + r * sk), phase 4 succeeds with the single signer's
      signature up to sign, and the recovery id describes the point whose x coordinate is r. */
  lemma AssemblyCorrect(me: PartyIndex, sk: Scalar, msg: HashOutput, k: Scalar, phi: Scalar, received: seq<Broadcast3to4>,
                        normalize: bool)
    requires k != 0 && phi != 0 && 0 < X(Base(k)) < Q
    requires Add(ReduceHash(msg), Mul(X(Base(k)), sk)) != 0
    requires Sum(Us(received)) == Mul(k, phi)
    requires Sum(Ws(received)) == Mul(phi, Add(ReduceHash(msg), Mul(X(Base(k)), sk)))
    ensures var r := Phase4Outcome(me, Base(sk), msg, X(Base(k)), received, normalize);
      var s0 := SingleSigner(k, sk, ReduceHash(msg), X(Base(k)));
      && r.Ok? && r.value.0 == (if normalize && 2 * s0 > Q then Neg(s0) else s0) && UpToSign(r.value.0, s0)
      && IsCandidate(if r.value.0 == s0 then Base(k) else Minus(Base(k)), X(Base(k)), r.value.1)
      && RecoversKey(X(Base(k)), r.value.0, r.value.1, ReduceHash(msg), Base(sk))
  {
    hide VerifyEcdsa;
    var r: Scalar := X(Base(k));
    var e := Add(ReduceHash(msg), Mul(r, sk));
    var s0 := SingleSigner(k, sk, ReduceHash(msg), r);
    DividedShares(phi, k, e);
    var s := Normalized(s0, normalize);
    LowS(s0);
    SingleSignerVerifies(k, sk, msg, s);
    PointOfSignature(k, sk, msg, r, s);
    SameX(k);
    OfScalar(r);
    Phase4Sound(me, Base(sk), msg, r, received, normalize);
  }

  /** Whatever was broadcast: phase 4 succeeds just when both sums and x are non-zero, x is canonical, and the x coordinate of
      (m + x sk) u / w times the generator reduces to x. Otherwise it fails without blaming anybody. */
  lemma Phase4Decides(me: PartyIndex, pk: Point, msg: HashOutput, x_coord: nat, received: seq<Broadcast3to4>, normalize: bool)
    ensures var (w, u) := (Sum(Ws(received)), Sum(Us(received)));
      var r := Phase4Outcome(me, pk, msg, x_coord, received, normalize);
      && (r.Ok? <==>
           && u != 0 && w != 0 && 0 < x_coord < Q
           && var p := Base(Mul(Add(ReduceHash(msg), Mul(pk.log, x_coord)), Mul(u, Inv(w))));
              p != IDENTITY && Of(X(p)) == x_coord)
      && (r.Err? ==> r.error == Recover(me, if u == 0 then ZeroDenominator else SignatureVerificationFailed))
  {
    hide VerifyEcdsa, Sum, SignaturePoint, RecoveryId;
    var (w, u) := (Sum(Ws(received)), Sum(Us(received)));
    if u != 0 {
      var q := Mul(w, Inv(u));
      VerifyEitherSign(msg, pk, x_coord, q, Normalized(q, normalize));
      InvNonZero(u);
      if w == 0 {
        ZeroProducts(w, Inv(u));
      } else {
        InverseOfQuotient(w, u);
      }
    }
  }

  lemma InverseOfQuotient(w: Scalar, u: Scalar)
    requires w != 0 && u != 0
    ensures Mul(w, Inv(u)) != 0 && Inv(Mul(w, Inv(u))) == Mul(u, Inv(w))
  {
    InvNonZero(u);
    var q := Mul(w, Inv(u));
    if q == 0 {
      NoZeroDivisors(w, Inv(u));
      assert false;
    }
    Commute(Inv(u), u);
    Regroup(w, Inv(u), Inv(w), u);
    Commute(u, Inv(w));
    Identities(1);
    InverseUnique(q, Mul(Inv(w), u));
  }

  /** Verification does not distinguish s from -s. */
  lemma VerifyEitherSign(msg: HashOutput, pk: Point, x_coord: nat, q: Scalar, s: Scalar)
    requires UpToSign(s, q)
    ensures VerifyEcdsa(msg, pk, x_coord, s) <==>
      && q != 0 && 0 < x_coord < Q
      && var p := Base(Mul(Add(ReduceHash(msg), Mul(pk.log, x_coord)), Inv(q)));
         p != IDENTITY && Of(X(p)) == x_coord
  {
    hide VerifyEcdsa;
    VerifyMeaning(msg, pk, x_coord, s);
    if s != q {
      if q == 0 {
        Identities(0);
      } else if 0 < x_coord < Q {
        var e := Add(ReduceHash(msg), Mul(pk.log, x_coord));
        NegInverse(q);
        NegProduct(e, Inv(q));
        SameUpToSign(Mul(e, Inv(q)));
      }
    }
  }

  /** A point and its opposite are both the identity or share their x coordinate. */
  lemma SameUpToSign(k: Scalar)
    ensures Base(Neg(k)) == IDENTITY <==> Base(k) == IDENTITY
    ensures Base(k) != IDENTITY ==> X(Base(Neg(k))) == X(Base(k))
  {
    NegNeg(k);
    Identities(0);
    if k != 0 {
      SameX(k);
    }
  }

  /** On shares with those sums, phase 4 succeeds just when no factor vanishes and X(kG) is a non-zero canonical scalar. */
  lemma AssemblyDecides(me: PartyIndex, sk: Scalar, msg: HashOutput, k: Scalar, phi: Scalar, received: seq<Broadcast3to4>,
                        normalize: bool)
    requires Sum(Us(received)) == Mul(k, phi)
    requires Sum(Ws(received)) == Mul(phi, Add(ReduceHash(msg), Mul(Of(X(Base(k))), sk)))
    ensures Phase4Outcome(me, Base(sk), msg, X(Base(k)), received, normalize).Ok? <==>
      && k != 0 && phi != 0 && 0 < X(Base(k)) < Q && Add(ReduceHash(msg), Mul(X(Base(k)), sk)) != 0
  {
    hide VerifyEcdsa;
    var e := Add(ReduceHash(msg), Mul(Of(X(Base(k))), sk));
    if k == 0 || phi == 0 {
      ZeroProducts(k, phi);
    } else {
      DividedShares(phi, k, e);
      var s := Normalized(Mul(Inv(k), e), normalize);
      VerifyMeaning(msg, Base(sk), X(Base(k)), s);
      if 0 < X(Base(k)) < Q {
        OfScalar(X(Base(k)));
        if e == 0 {
          ZeroProducts(Inv(k), e);
        } else {
          AssemblyCorrect(me, sk, msg, k, phi, received, normalize);
        }
      }
    }
  }

  lemma ZeroProducts(a: Scalar, b: Scalar)
    requires a == 0 || b == 0
    ensures Mul(a, b) == 0
  {
    Identities(a);
    Identities(b);
    Commute(a, b);
  }
}
