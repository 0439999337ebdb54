/** BIP-32 (non-hardened) derivation of key shares, and what it means for the shared secret. */
module Derivation {
  import opened Sequences
  import opened Outcomes
  import opened PrimeField
  import opened Polynomials
  import opened Hashes
  import opened Curve
  import opened Protocols
  import opened Paths
  import opened ZeroShares
  import opened PartyStates

  datatype DerivError = AtMaximumDepth | InvalidChildNumber | TweakTooLarge | IdentityKey | BadPath(error: PathError)

  type Hmac512 = b: Bytes | |b| == 64 witness seq(64, _ => 0)
  type Fingerprint = b: Bytes | |b| == 4 witness seq(4, _ => 0)

  /** HMAC-SHA512 of data under a key, and the first four bytes of HASH160: nothing is assumed about them. */
  const HmacSha512: (Bytes, Bytes) -> Hmac512
  const Hash160: Bytes -> Fingerprint

  /** The left half as a scalar, unless it is not below the group order; and the right half. */
  function Tweak(pk: Point, chain_code: ChainCode, child_number: nat): Result<(Scalar, ChainCode), DerivError> {
    var hmac := HmacSha512(chain_code, PointBytes(pk) + BigEndian(child_number, 4));
    var left := FromBigEndian(hmac[..32]);
    if left >= Q then Err(TweakTooLarge) else Ok((left, hmac[32..]))
  }

  /** child_tweak */
  function ChildTweak(data: DerivData, child_number: nat): Result<(Scalar, ChainCode, Fingerprint), DerivError> {
    var tweak := Tweak(data.pk, data.chain_code, child_number);
    if tweak.Err? then Err(tweak.error) else Ok((tweak.value.0, tweak.value.1, Hash160(PointBytes(data.pk))))
  }

  /** DerivData::derive_child */
  function DeriveChild(data: DerivData, child_number: nat): Result<DerivData, DerivError> {
    if data.depth == MAX_DEPTH then Err(AtMaximumDepth)
    else if child_number > MAX_CHILD_NUMBER then Err(InvalidChildNumber)
    else
      var tweak := ChildTweak(data, child_number);
      if tweak.Err? then Err(tweak.error)
      else
        var (t, chain_code, fingerprint) := tweak.value;
        var new_pk := Plus(Base(t), data.pk);
        if new_pk == IDENTITY then Err(IdentityKey)
        else Ok(DerivData(data.depth + 1, child_number, fingerprint, Add(data.poly_point, t), new_pk, chain_code))
  }

  /** Every field of a derived child: the left half of the HMAC is added to share and key, the right half is the chain code, and
      the parent's fingerprint is the first bytes of the hash of its key. */
  lemma DeriveChildIs(data: DerivData, child_number: nat)
    ensures var i := HmacSha512(data.chain_code, PointBytes(data.pk) + BigEndian(child_number, 4));
      var left := FromBigEndian(i[..32]);
      var r := DeriveChild(data, child_number);
      && (r.Ok? <==> data.depth < 255 && child_number <= 0x7FFF_FFFF && left < Q && Plus(Base(left), data.pk) != IDENTITY)
      && (r.Ok? ==>
           r.value == DerivData(data.depth + 1, child_number, Hash160(PointBytes(data.pk)), Add(data.poly_point, left),
                                Plus(Base(left), data.pk), i[32..]))
      && (r.Err? ==>
           r.error == if data.depth == 255 then AtMaximumDepth else if child_number > 0x7FFF_FFFF then InvalidChildNumber
                      else if left >= Q then TweakTooLarge else IdentityKey)
  {
    hide FromBigEndian, BigEndian;
  }

  // Paths

  function DeriveAlong(data: DerivData, path: seq<nat>): Result<DerivData, DerivError>
    decreases |path|
  {
    if path == [] then Ok(data)
    else
      var child := DeriveChild(data, path[0]);
      if child.Err? then child else DeriveAlong(child.value, path[1..])
  }

  function DeriveFromPath(data: DerivData, path: string): Result<DerivData, DerivError> {
    var numbers := ParsePath(path);
    if numbers.Err? then Err(BadPath(numbers.error)) else DeriveAlong(data, numbers.value)
  }

  /** DerivData::derive_from_path */
  method DeriveFromPathOf(data: DerivData, path: string) returns (r: Result<DerivData, DerivError>)
    ensures r == DeriveFromPath(data, path)
  {
    hide DeriveChild, ParsePath;
    var numbers := ParsePathOf(path);
    if numbers.Err? {
      return Err(BadPath(numbers.error));
    }
    var path_parsed := numbers.value;
    var final_data := data;
    for i := 0 to |path_parsed|
      invariant DeriveAlong(data, path_parsed) == DeriveAlong(final_data, path_parsed[i..])
    {
      assert path_parsed[i..][0] == path_parsed[i] && path_parsed[i..][1..] == path_parsed[i + 1..];
      var child := DeriveChild(final_data, path_parsed[i]);
      if child.Err? {
        return child;
      }
      final_data := child.value;
    }
    return Ok(final_data);
  }

  /** Deriving along p and then along q is deriving along p + q. */
  lemma {:induction false} DeriveConcat(data: DerivData, p: seq<nat>, q: seq<nat>)
    ensures DeriveAlong(data, p + q)
            == var first := DeriveAlong(data, p); if first.Err? then first else DeriveAlong(first.value, q)
    decreases |p|
  {
    hide DeriveChild;
    if p == [] {
      assert p + q == q;
    } else {
      assert (p + q)[0] == p[0] && (p + q)[1..] == p[1..] + q;
      var child := DeriveChild(data, p[0]);
      if child.Ok? {
        DeriveConcat(child.value, p[1..], q);
      }
    }
  }

  /** Every step goes one level down, so no path leads below level 255. */
  lemma {:induction false} DeriveDepth(data: DerivData, path: seq<nat>)
    ensures DeriveAlong(data, path).Ok? ==>
      && DeriveAlong(data, path).value.depth == data.depth + |path| <= MAX_DEPTH
      && forall i :: 0 <= i < |path| ==> path[i] <= MAX_CHILD_NUMBER
    decreases |path|
  {
    hide Tweak;
    if path != [] {
      var child := DeriveChild(data, path[0]);
      if child.Ok? {
        DeriveDepth(child.value, path[1..]);
        assert path == [path[0]] + path[1..];
      }
    }
  }

  /** The same for printed paths: if the concatenation has at most 255 steps, deriving in two stages is deriving at
      once; if it has more, both ways fail. */
  lemma PathConcat(data: DerivData, p: seq<nat>, q: seq<nat>)
    ensures var first := DeriveFromPath(data, PrintPath(p));
      var staged := if first.Err? then first else DeriveFromPath(first.value, PrintPath(q));
      var whole := DeriveFromPath(data, PrintPath(p + q));
      && (staged.Ok? <==> whole.Ok?) && (whole.Ok? ==> staged == whole)
  {
    hide ParsePath, DeriveAlong, PrintPath;
    ParseInvertsPrint(p);
    ParseInvertsPrint(q);
    ParseInvertsPrint(p + q);
    DeriveConcat(data, p, q);
    DeriveDepth(data, p + q);
    var first := DeriveAlong(data, p);
    if first.Ok? {
      DeriveDepth(data, p);
    }
    BoundsConcat(p, q);
  }

  lemma BoundsConcat(p: seq<nat>, q: seq<nat>)
    ensures (forall i :: 0 <= i < |p + q| ==> (p + q)[i] <= MAX_CHILD_NUMBER)
       <==> (forall i :: 0 <= i < |p| ==> p[i] <= MAX_CHILD_NUMBER) && (forall i :: 0 <= i < |q| ==> q[i] <= MAX_CHILD_NUMBER)
  {
    assert forall i :: 0 <= i < |p| ==> p[i] == (p + q)[i];
    assert forall i :: 0 <= i < |q| ==> q[i] == (p + q)[|p| + i];
  }

  // Parties and packages

  /** The party with new derivation data, and everything that follows from it. */
  function MovedTo(party: Party, data: DerivData, address_fn: Point -> string): Party {
    party.(poly_point := data.poly_point, pk := data.pk, derivation_data := data, address := address_fn(data.pk))
  }

  /** Party::derive_child */
  function DeriveParty(party: Party, child_number: nat, address_fn: Point -> string): Result<Party, DerivError> {
    var data := DeriveChild(party.derivation_data, child_number);
    if data.Err? then Err(data.error)
    else Ok(MovedTo(party, data.value, address_fn))
  }

  /** Party::derive_from_path */
  function DerivePartyFromPath(party: Party, path: string, address_fn: Point -> string): Result<Party, DerivError> {
    var data := DeriveFromPath(party.derivation_data, path);
    if data.Err? then Err(data.error)
    else Ok(MovedTo(party, data.value, address_fn))
  }

  /** PublicKeyPackage::derive_child */
  function DerivePackage(package: PublicKeyPackage, chain_code: ChainCode, child_number: nat)
    : Result<PublicKeyPackage, DerivError>
  {
    if child_number > MAX_CHILD_NUMBER then Err(InvalidChildNumber)
    else
      var tweak := Tweak(package.verifying_key, chain_code, child_number);
      if tweak.Err? then Err(tweak.error)
      else
        var tweak_point := Base(tweak.value.0);
        var new_key := Plus(tweak_point, package.verifying_key);
        if new_key == IDENTITY then Err(IdentityKey)
        else Ok(PublicKeyPackage(new_key,
               map j | j in package.verifying_shares :: Plus(tweak_point, package.verifying_shares[j]), package.parameters))
  }

  // The meaning for the shared secret

  /** CKDpriv of BIP-32 for non-hardened children, the reference that derivation is compared with: with I the HMAC-SHA512 of
      the public key and the child number under the chain code, the child key is the left half of I plus the key, and the child
      chain code the right half. */
  function CkdPriv(k: Scalar, chain_code: ChainCode, child_number: nat): Result<(Scalar, ChainCode), DerivError> {
    var i := HmacSha512(chain_code, PointBytes(Base(k)) + BigEndian(child_number, 4));
    if FromBigEndian(i[..32]) >= Q then Err(TweakTooLarge)
    else
      var child_key := Add(FromBigEndian(i[..32]), k);
      if child_key == 0 then Err(IdentityKey) else Ok((child_key, i[32..]))
  }

  /** Adding c to the constant coefficient. */
  function Raised(p: seq<Scalar>, c: Scalar): (q: seq<Scalar>)
    requires p != []
    ensures |q| == |p|
  {
    p[0 := Add(p[0], c)]
  }

  lemma EvalRaised(p: seq<Scalar>, c: Scalar, x: Scalar)
    requires p != []
    ensures Eval(Raised(p, c), x) == Add(Eval(p, x), c)
  {
    assert Raised(p, c)[1..] == p[1..];
    AddAssoc(Mul(Eval(p[1..], x), x), p[0], c);
  }

  /** ps' is ps after every party has derived the same child. */
  ghost predicate AllDerive(ps: Parties, ps': Parties, child_number: nat, address_fn: Point -> string) {
    ps'.Keys == ps.Keys && forall i :: i in ps ==> DeriveParty(ps[i], child_number, address_fn) == Ok(ps'[i])
  }

  /** One party that holds p(i) of a secret p(0): below level 255 and for a non-hardened child number it succeeds just
      when CKDpriv of p(0) does, and its share moves by as much as the secret. Otherwise it fails, whatever CKDpriv does. */
  lemma DeriveOne(party: Party, k: Scalar, child_number: nat, address_fn: Point -> string)
    requires party.pk == party.derivation_data.pk == Base(k) && party.poly_point == party.derivation_data.poly_point
    ensures var r := DeriveParty(party, child_number, address_fn);
      var depth := party.derivation_data.depth;
      var reference := CkdPriv(k, party.derivation_data.chain_code, child_number);
      && (r.Ok? <==> depth < MAX_DEPTH && child_number <= MAX_CHILD_NUMBER && reference.Ok?)
      && (r.Err? ==>
           r.error == if depth == MAX_DEPTH then AtMaximumDepth
                      else if child_number > MAX_CHILD_NUMBER then InvalidChildNumber else reference.error)
      && (r.Ok? ==>
           && r.value.pk == r.value.derivation_data.pk == Base(reference.value.0)
           && r.value.derivation_data.chain_code == reference.value.1
           && r.value.poly_point == r.value.derivation_data.poly_point == Add(party.poly_point, Sub(reference.value.0, k))
           && r.value.derivation_data.depth == depth + 1 && r.value.address == address_fn(r.value.pk))
  {
    var tweak := Tweak(Base(k), party.derivation_data.chain_code, child_number);
    if tweak.Ok? {
      TakeBack(tweak.value.0, k);
    }
  }

  lemma TakeBack(a: Scalar, b: Scalar)
    ensures Sub(Add(a, b), b) == a
  {
    Ring();
  }

  /** When all parties derive the same child, they succeed together, exactly when they are above level 255, the child
      is not hardened and CKDpriv of the shared secret succeeds. They then hold a sharing of the derived secret with its
      chain code. */
  lemma DeriveShared(ps: Parties, parameters: ValidParameters, p: seq<Scalar>, sid: Bytes, chain_code: ChainCode, depth: nat,
                     child_number: nat, address_fn: Point -> string)
    requires ConsistentParties(ps, parameters, p, sid, chain_code) && SameLevel(ps, depth)
    ensures var reference := CkdPriv(Eval(p, 0), chain_code, child_number);
      && (forall i :: i in ps ==>
           (DeriveParty(ps[i], child_number, address_fn).Ok? <==>
            depth < MAX_DEPTH && child_number <= MAX_CHILD_NUMBER && reference.Ok?))
      && (reference.Ok? ==>
           var q := Raised(p, Sub(reference.value.0, Eval(p, 0)));
           && Eval(q, 0) == reference.value.0
           && forall ps' :: AllDerive(ps, ps', child_number, address_fn) ==>
                ConsistentParties(ps', parameters, q, sid, reference.value.1) && SameLevel(ps', depth + 1))
  {
    hide PairwiseSeeds, AllPaired, Eval, DeriveParty, CkdPriv;
    var k := Eval(p, 0);
    var reference := CkdPriv(k, chain_code, child_number);
    forall i | i in ps
      ensures DeriveParty(ps[i], child_number, address_fn).Ok? <==>
              depth < MAX_DEPTH && child_number <= MAX_CHILD_NUMBER && reference.Ok?
    {
      DeriveOne(ps[i], k, child_number, address_fn);
    }
    if reference.Ok? {
      var c := Sub(reference.value.0, k);
      EvalRaised(p, c, 0);
      PutBack(k, reference.value.0);
      forall ps' | AllDerive(ps, ps', child_number, address_fn)
        ensures ConsistentParties(ps', parameters, Raised(p, c), sid, reference.value.1) && SameLevel(ps', depth + 1)
      {
        DerivedConsistent(ps, ps', parameters, p, sid, chain_code, depth, child_number, address_fn, reference.value.0, reference.value.1);
      }
    }
  }

  lemma PutBack(k: Scalar, r: Scalar)
    ensures Add(k, Sub(r, k)) == r
  {
    Ring();
  }

  /** Everything about one derived party. */
  ghost predicate DerivedParty(party: Party, before: Party, i: PartyIndex, parameters: ValidParameters, q: seq<Scalar>,
                               sid: Bytes, chain_code: ChainCode, depth: nat)
  {
    && party.parameters == parameters && party.party_index == i && party.session_id == sid
    && party.pk == party.derivation_data.pk == Base(Eval(q, 0)) && party.derivation_data.chain_code == chain_code
    && party.poly_point == party.derivation_data.poly_point == Eval(q, i)
    && party.derivation_data.depth == depth
    && party.zero_share == before.zero_share
    && party.mul_senders == before.mul_senders && party.mul_receivers == before.mul_receivers
  }

  lemma OneDerived(ps: Parties, parameters: ValidParameters, p: seq<Scalar>, sid: Bytes, chain_code: ChainCode,
                   depth: nat, child_number: nat, address_fn: Point -> string, k': Scalar, chain_code': ChainCode, i: PartyIndex)
    requires ConsistentParties(ps, parameters, p, sid, chain_code) && SameLevel(ps, depth) && i in ps
    requires DeriveParty(ps[i], child_number, address_fn).Ok?
    requires CkdPriv(Eval(p, 0), chain_code, child_number) == Ok((k', chain_code'))
    ensures DerivedParty(DeriveParty(ps[i], child_number, address_fn).value, ps[i], i, parameters, Raised(p, Sub(k', Eval(p, 0))), sid,
                         chain_code', depth + 1)
  {
    hide PairwiseSeeds, AllPaired, Eval, DeriveParty, CkdPriv;
    var k := Eval(p, 0);
    EvalRaised(p, Sub(k', k), 0);
    PutBack(k, k');
    DeriveOne(ps[i], k, child_number, address_fn);
    EvalRaised(p, Sub(k', k), i);
    DeriveFields(ps[i], child_number, address_fn);
  }

  lemma DerivedConsistent(ps: Parties, ps': Parties, parameters: ValidParameters, p: seq<Scalar>, sid: Bytes,
                          chain_code: ChainCode, depth: nat, child_number: nat, address_fn: Point -> string,
                          k': Scalar, chain_code': ChainCode)
    requires ConsistentParties(ps, parameters, p, sid, chain_code) && SameLevel(ps, depth)
    requires AllDerive(ps, ps', child_number, address_fn)
    requires CkdPriv(Eval(p, 0), chain_code, child_number) == Ok((k', chain_code'))
    ensures ConsistentParties(ps', parameters, Raised(p, Sub(k', Eval(p, 0))), sid, chain_code') && SameLevel(ps', depth + 1)
  {
    hide PairwiseSeeds, AllPaired, Eval, DeriveParty, CkdPriv, SamePublicData, SharesOf, Raised, SameLevel, DerivedParty;
    var q := Raised(p, Sub(k', Eval(p, 0)));
    forall i | i in ps' ensures DerivedParty(ps'[i], ps[i], i, parameters, q, sid, chain_code', depth + 1) {
      OneDerived(ps, parameters, p, sid, chain_code, depth, child_number, address_fn, k', chain_code', i);
    }
    DerivedTogether(ps, ps', parameters, q, sid, chain_code', depth + 1);
  }

  lemma DerivedTogether(ps: Parties, ps': Parties, parameters: ValidParameters, q: seq<Scalar>, sid: Bytes,
                        chain_code: ChainCode, depth: nat)
    requires ps'.Keys == ps.Keys && PairwiseSeeds(ZeroSharesOf(ps)) && AllPaired(ps)
    requires forall i :: i in ps' ==> DerivedParty(ps'[i], ps[i], i, parameters, q, sid, chain_code, depth)
    ensures SamePublicData(ps', parameters, Base(Eval(q, 0)), sid, chain_code) && SharesOf(ps', q) && SameLevel(ps', depth)
    ensures PairwiseSeeds(ZeroSharesOf(ps')) && AllPaired(ps')
  {
    hide PairwiseSeeds, AllPaired, Eval;
    assert ZeroSharesOf(ps') == ZeroSharesOf(ps);
    SamePairs(ps, ps');
  }

  lemma DeriveFields(party: Party, child_number: nat, address_fn: Point -> string)
    requires DeriveParty(party, child_number, address_fn).Ok?
    ensures var r := DeriveParty(party, child_number, address_fn).value;
      && r.parameters == party.parameters && r.party_index == party.party_index && r.session_id == party.session_id
      && r.zero_share == party.zero_share && r.mul_senders == party.mul_senders && r.mul_receivers == party.mul_receivers
  {
    hide DeriveChild;
  }

  lemma SamePairs(ps: Parties, ps': Parties)
    requires AllPaired(ps) && ps'.Keys == ps.Keys
    requires forall i :: i in ps ==> ps'[i].mul_senders == ps[i].mul_senders && ps'[i].mul_receivers == ps[i].mul_receivers
    ensures AllPaired(ps')
  {}

  // Along paths

  /** CKDpriv along a path. */
  function CkdAlong(k: Scalar, chain_code: ChainCode, path: seq<nat>): Result<(Scalar, ChainCode), DerivError>
    decreases |path|
  {
    if path == [] then Ok((k, chain_code))
    else
      var child := CkdPriv(k, chain_code, path[0]);
      if child.Err? then child else CkdAlong(child.value.0, child.value.1, path[1..])
  }

  /** One party along a path: its share moves by as much as the secret does under CKDpriv along the same path. */
  lemma {:induction false} DeriveAlongOne(data: DerivData, k: Scalar, path: seq<nat>)
    requires data.pk == Base(k)
    ensures var r := DeriveAlong(data, path);
      var reference := CkdAlong(k, data.chain_code, path);
      && (r.Ok? <==>
           && data.depth + |path| <= MAX_DEPTH && (forall i :: 0 <= i < |path| ==> path[i] <= MAX_CHILD_NUMBER)
           && reference.Ok?)
      && (r.Ok? ==>
           && r.value.pk == Base(reference.value.0) && r.value.chain_code == reference.value.1
           && r.value.poly_point == Add(data.poly_point, Sub(reference.value.0, k))
           && r.value.depth == data.depth + |path|)
    decreases |path|
  {
    if path == [] {
      Identities(k);
      Identities(data.poly_point);
    } else {
      var tweak := Tweak(Base(k), data.chain_code, path[0]);
      var child := DeriveChild(data, path[0]);
      if child.Ok? {
        var k' := Add(tweak.value.0, k);
        DeriveAlongOne(child.value, k', path[1..]);
        var reference := CkdAlong(k', tweak.value.1, path[1..]);
        if reference.Ok? {
          MovesAddUp(data.poly_point, tweak.value.0, k, reference.value.0);
        }
      }
    }
  }

  lemma MovesAddUp(x: Scalar, t: Scalar, k: Scalar, r: Scalar)
    ensures Add(Add(x, t), Sub(r, Add(t, k))) == Add(x, Sub(r, k))
  {
    Ring();
  }

  /** ps' is ps after every party has derived along the same printed path. */
  ghost predicate AllDeriveFromPath(ps: Parties, ps': Parties, path: string, address_fn: Point -> string) {
    ps'.Keys == ps.Keys && forall i :: i in ps ==> DerivePartyFromPath(ps[i], path, address_fn) == Ok(ps'[i])
  }

  /** Whether derivation along a printed path succeeds, for parties at the given depth that share k. */
  ghost predicate PathAllowed(k: Scalar, chain_code: ChainCode, depth: nat, path: string) {
    var numbers := ParsePath(path);
    numbers.Ok? && depth + |numbers.value| <= MAX_DEPTH && CkdAlong(k, chain_code, numbers.value).Ok?
  }

  /** One party along a printed path. */
  lemma DeriveFromPathOne(party: Party, k: Scalar, path: string, address_fn: Point -> string)
    requires party.pk == party.derivation_data.pk == Base(k) && party.poly_point == party.derivation_data.poly_point
    ensures var r := DerivePartyFromPath(party, path, address_fn);
      var (chain_code, depth) := (party.derivation_data.chain_code, party.derivation_data.depth);
      && (r.Ok? <==> PathAllowed(k, chain_code, depth, path))
      && (r.Ok? ==>
           var numbers := ParsePath(path).value;
           var reference := CkdAlong(k, chain_code, numbers).value;
           && r.value.pk == r.value.derivation_data.pk == Base(reference.0)
           && r.value.derivation_data.chain_code == reference.1
           && r.value.poly_point == r.value.derivation_data.poly_point == Add(party.poly_point, Sub(reference.0, k))
           && r.value.derivation_data.depth == depth + |numbers| && r.value.address == address_fn(r.value.pk))
  {
    hide ParsePath, DeriveAlong, CkdAlong;
    var numbers := ParsePath(path);
    if numbers.Ok? {
      ParsedBounds(path);
      DeriveAlongOne(party.derivation_data, k, numbers.value);
    }
  }

  lemma FromPathFields(party: Party, path: string, address_fn: Point -> string)
    requires DerivePartyFromPath(party, path, address_fn).Ok?
    ensures var r := DerivePartyFromPath(party, path, address_fn).value;
      && r.parameters == party.parameters && r.party_index == party.party_index && r.session_id == party.session_id
      && r.zero_share == party.zero_share && r.mul_senders == party.mul_senders && r.mul_receivers == party.mul_receivers
  {
    hide DeriveFromPath;
  }

  /** When all parties derive along the same printed path, they succeed together, exactly when the path parses, does not
      lead below level 255 and CKDpriv succeeds along it. They then hold a sharing of the secret derived along the path. */
  lemma DeriveSharedFromPath(ps: Parties, parameters: ValidParameters, p: seq<Scalar>, sid: Bytes, chain_code: ChainCode,
                             depth: nat, path: string, address_fn: Point -> string)
    requires ConsistentParties(ps, parameters, p, sid, chain_code) && SameLevel(ps, depth)
    ensures forall i :: i in ps ==>
      (DerivePartyFromPath(ps[i], path, address_fn).Ok? <==> PathAllowed(Eval(p, 0), chain_code, depth, path))
    ensures PathAllowed(Eval(p, 0), chain_code, depth, path) ==>
      var numbers := ParsePath(path).value;
      var reference := CkdAlong(Eval(p, 0), chain_code, numbers).value;
      var q := Raised(p, Sub(reference.0, Eval(p, 0)));
      && Eval(q, 0) == reference.0
      && forall ps' :: AllDeriveFromPath(ps, ps', path, address_fn) ==>
           ConsistentParties(ps', parameters, q, sid, reference.1) && SameLevel(ps', depth + |numbers|)
  {
    hide PairwiseSeeds, AllPaired, Eval, DerivePartyFromPath, CkdAlong, ParsePath, PathAllowed;
    var k := Eval(p, 0);
    forall i | i in ps
      ensures DerivePartyFromPath(ps[i], path, address_fn).Ok? <==> PathAllowed(k, chain_code, depth, path)
    {
      DeriveFromPathOne(ps[i], k, path, address_fn);
    }
    if PathAllowed(k, chain_code, depth, path) {
      PathAllowedParts(k, chain_code, depth, path);
      var numbers := ParsePath(path).value;
      var reference := CkdAlong(k, chain_code, numbers).value;
      EvalRaised(p, Sub(reference.0, k), 0);
      PutBack(k, reference.0);
      forall ps' | AllDeriveFromPath(ps, ps', path, address_fn)
        ensures ConsistentParties(ps', parameters, Raised(p, Sub(reference.0, k)), sid, reference.1)
        ensures SameLevel(ps', depth + |numbers|)
      {
        FromPathConsistent(ps, ps', parameters, p, sid, chain_code, depth, path, address_fn);
      }
    }
  }

  lemma PathAllowedParts(k: Scalar, chain_code: ChainCode, depth: nat, path: string)
    requires PathAllowed(k, chain_code, depth, path)
    ensures ParsePath(path).Ok? && CkdAlong(k, chain_code, ParsePath(path).value).Ok?
  {
    hide ParsePath, CkdAlong;
  }

  lemma OneFromPath(ps: Parties, parameters: ValidParameters, p: seq<Scalar>, sid: Bytes, chain_code: ChainCode, depth: nat,
                    path: string, address_fn: Point -> string, i: PartyIndex)
    requires ConsistentParties(ps, parameters, p, sid, chain_code) && SameLevel(ps, depth) && i in ps
    requires DerivePartyFromPath(ps[i], path, address_fn).Ok?
    ensures PathAllowed(Eval(p, 0), chain_code, depth, path)
    ensures var numbers := ParsePath(path).value;
      var reference := CkdAlong(Eval(p, 0), chain_code, numbers).value;
      DerivedParty(DerivePartyFromPath(ps[i], path, address_fn).value, ps[i], i, parameters,
                   Raised(p, Sub(reference.0, Eval(p, 0))), sid, reference.1, depth + |numbers|)
  {
    hide PairwiseSeeds, AllPaired, Eval, DerivePartyFromPath, CkdAlong, ParsePath, PathAllowed;
    var k := Eval(p, 0);
    DeriveFromPathOne(ps[i], k, path, address_fn);
    PathAllowedParts(k, chain_code, depth, path);
    var reference := CkdAlong(k, chain_code, ParsePath(path).value).value;
    EvalRaised(p, Sub(reference.0, k), 0);
    PutBack(k, reference.0);
    EvalRaised(p, Sub(reference.0, k), i);
    FromPathFields(ps[i], path, address_fn);
  }

  lemma FromPathConsistent(ps: Parties, ps': Parties, parameters: ValidParameters, p: seq<Scalar>, sid: Bytes,
                           chain_code: ChainCode, depth: nat, path: string, address_fn: Point -> string)
    requires ConsistentParties(ps, parameters, p, sid, chain_code) && SameLevel(ps, depth)
    requires AllDeriveFromPath(ps, ps', path, address_fn) && PathAllowed(Eval(p, 0), chain_code, depth, path)
    ensures var numbers := ParsePath(path).value;
      var reference := CkdAlong(Eval(p, 0), chain_code, numbers).value;
      && ConsistentParties(ps', parameters, Raised(p, Sub(reference.0, Eval(p, 0))), sid, reference.1)
      && SameLevel(ps', depth + |numbers|)
  {
    hide PairwiseSeeds, AllPaired, Eval, DerivePartyFromPath, CkdAlong, ParsePath, SamePublicData, SharesOf, Raised,
         SameLevel, DerivedParty;
    var k := Eval(p, 0);
    var numbers := ParsePath(path).value;
    var reference := CkdAlong(k, chain_code, numbers).value;
    var q := Raised(p, Sub(reference.0, k));
    forall i | i in ps' ensures DerivedParty(ps'[i], ps[i], i, parameters, q, sid, reference.1, depth + |numbers|) {
      OneFromPath(ps, parameters, p, sid, chain_code, depth, path, address_fn, i);
    }
    DerivedTogether(ps, ps', parameters, q, sid, reference.1, depth + |numbers|);
  }

  /** Interpolating shares that were all derived along a path gives the secret derived along the path: share-wise
      derivation commutes with interpolation. */
  lemma DerivationCommutes(ps: Parties, parameters: ValidParameters, p: seq<Scalar>, sid: Bytes, chain_code: ChainCode,
                           path: seq<nat>, xs: seq<Scalar>, ys: seq<Scalar>)
    requires ConsistentParties(ps, parameters, p, sid, chain_code)
    requires NoRepeats(xs) && |xs| == |ys| == parameters.threshold
    requires forall a :: 0 <= a < |xs| ==>
      && 1 <= xs[a] <= 255 && xs[a] in ps
      && DeriveAlong(ps[xs[a]].derivation_data, path).Ok? && ys[a] == DeriveAlong(ps[xs[a]].derivation_data, path).value.poly_point
    ensures var reference := CkdAlong(Eval(p, 0), chain_code, path);
      reference.Ok? && Sums.Sum(Terms(xs, ys)) == reference.value.0
  {
    hide PairwiseSeeds, AllPaired, Eval, DeriveAlong, CkdAlong, Sums.Sum;
    var k := Eval(p, 0);
    assert |xs| > 0;
    DeriveAlongOne(ps[xs[0]].derivation_data, k, path);
    var reference := CkdAlong(k, chain_code, path);
    var q := Raised(p, Sub(reference.value.0, k));
    forall a | 0 <= a < |xs| ensures ys[a] == Values(q, xs)[a] {
      DeriveAlongOne(ps[xs[a]].derivation_data, k, path);
      EvalRaised(p, Sub(reference.value.0, k), xs[a]);
    }
    assert ys == Values(q, xs);
    Reconstruction(q, xs);
    EvalRaised(p, Sub(reference.value.0, k), 0);
    PutBack(k, reference.value.0);
  }

  // The public package

  /** The package describes the parties: same key, and every verifying share is the party's share in the exponent. */
  ghost predicate Describes(package: PublicKeyPackage, ps: Parties, parameters: ValidParameters, pk: Point) {
    && package.verifying_key == pk && package.parameters == parameters && package.verifying_shares.Keys == ps.Keys
    && forall i :: i in ps ==> package.verifying_shares[i] == Base(ps[i].poly_point)
  }

  /** The package has no depth, so it derives exactly the non-hardened children for which CKDpriv of the secret behind
      its key succeeds, and then has the key of the derived secret. */
  lemma PackageFollowsReference(package: PublicKeyPackage, k: Scalar, chain_code: ChainCode, child_number: nat)
    requires package.verifying_key == Base(k)
    ensures var r := DerivePackage(package, chain_code, child_number);
      var reference := CkdPriv(k, chain_code, child_number);
      && (r.Ok? <==> child_number <= MAX_CHILD_NUMBER && reference.Ok?)
      && (r.Ok? ==> r.value.verifying_key == Base(reference.value.0))
  {
    hide FromBigEndian, BigEndian;
  }

  /** The derived package in full: the left half of the HMAC is added in the exponent to the key and to every share. */
  lemma DerivePackageIs(package: PublicKeyPackage, chain_code: ChainCode, child_number: nat)
    ensures var i := HmacSha512(chain_code, PointBytes(package.verifying_key) + BigEndian(child_number, 4));
      var left := FromBigEndian(i[..32]);
      var r := DerivePackage(package, chain_code, child_number);
      && (r.Ok? <==> child_number <= 0x7FFF_FFFF && left < Q && Plus(Base(left), package.verifying_key) != IDENTITY)
      && (r.Ok? ==>
           && r.value.verifying_key == Plus(Base(left), package.verifying_key) && r.value.parameters == package.parameters
           && r.value.verifying_shares.Keys == package.verifying_shares.Keys
           && forall j :: j in package.verifying_shares ==>
                r.value.verifying_shares[j] == Plus(Base(left), package.verifying_shares[j]))
      && (r.Err? ==>
           r.error == if child_number > 0x7FFF_FFFF then InvalidChildNumber
                      else if left >= Q then TweakTooLarge else IdentityKey)
  {
    hide FromBigEndian, BigEndian;
  }

  /** Deriving the package agrees with deriving every party just when the parties are above level 255 or the package
      cannot be derived either. Whenever the parties derive a child, the derived package describes them. */
  lemma PackageAgrees(package: PublicKeyPackage, ps: Parties, ps': Parties, parameters: ValidParameters, p: seq<Scalar>,
                      sid: Bytes, chain_code: ChainCode, depth: nat, child_number: nat, address_fn: Point -> string)
    requires ConsistentParties(ps, parameters, p, sid, chain_code) && SameLevel(ps, depth)
    requires Describes(package, ps, parameters, Base(Eval(p, 0)))
    ensures var q := DerivePackage(package, chain_code, child_number);
      && (forall i :: i in ps ==>
           ((DeriveParty(ps[i], child_number, address_fn).Ok? <==> q.Ok?) <==> (depth < MAX_DEPTH || q.Err?)))
      && (AllDerive(ps, ps', child_number, address_fn) ==>
           q.Ok? && forall i :: i in ps' ==> Describes(q.value, ps', parameters, ps'[i].pk))
  {
    hide PairwiseSeeds, AllPaired, Eval, Tweak, AllDerive, Describes;
    forall i | i in ps
      ensures DeriveParty(ps[i], child_number, address_fn).Ok? <==>
              depth < MAX_DEPTH && DerivePackage(package, chain_code, child_number).Ok?
    {
      SameOutcome(package, ps, parameters, p, sid, chain_code, depth, child_number, address_fn, i);
    }
    if AllDerive(ps, ps', child_number, address_fn) {
      PackageDescribes(package, ps, ps', parameters, p, sid, chain_code, depth, child_number, address_fn);
    }
  }

  /** The disagreement: at level 255 every party refuses every child, but the package still derives those that CKDpriv
      allows. */
  lemma PackageOutlivesParties(package: PublicKeyPackage, ps: Parties, parameters: ValidParameters, p: seq<Scalar>,
                               sid: Bytes, chain_code: ChainCode, child_number: nat, address_fn: Point -> string)
    requires ConsistentParties(ps, parameters, p, sid, chain_code) && SameLevel(ps, MAX_DEPTH)
    requires Describes(package, ps, parameters, Base(Eval(p, 0)))
    requires child_number <= MAX_CHILD_NUMBER && CkdPriv(Eval(p, 0), chain_code, child_number).Ok?
    ensures forall i :: i in ps ==> DeriveParty(ps[i], child_number, address_fn) == Err(AtMaximumDepth)
    ensures DerivePackage(package, chain_code, child_number).Ok?
    ensures DerivePackage(package, chain_code, child_number).value.verifying_key
            == Base(CkdPriv(Eval(p, 0), chain_code, child_number).value.0)
  {
    hide ConsistentParties, Eval, CkdPriv, DerivePackage;
    PackageFollowsReference(package, Eval(p, 0), chain_code, child_number);
  }

  lemma SameOutcome(package: PublicKeyPackage, ps: Parties, parameters: ValidParameters, p: seq<Scalar>, sid: Bytes,
                    chain_code: ChainCode, depth: nat, child_number: nat, address_fn: Point -> string, i: PartyIndex)
    requires ConsistentParties(ps, parameters, p, sid, chain_code) && SameLevel(ps, depth) && i in ps
    requires Describes(package, ps, parameters, Base(Eval(p, 0)))
    ensures DeriveParty(ps[i], child_number, address_fn).Ok? <==>
            depth < MAX_DEPTH && DerivePackage(package, chain_code, child_number).Ok?
    ensures DeriveParty(ps[i], child_number, address_fn).Ok? ==>
      var derived := DeriveParty(ps[i], child_number, address_fn).value;
      var q := DerivePackage(package, chain_code, child_number).value;
      && q.verifying_key == derived.pk && i in q.verifying_shares && q.verifying_shares[i] == Base(derived.poly_point)
      && q.parameters == parameters
  {
    hide PairwiseSeeds, AllPaired, Eval, Tweak;
    var tweak := Tweak(Base(Eval(p, 0)), chain_code, child_number);
    if tweak.Ok? {
      Commute(tweak.value.0, ps[i].poly_point);
    }
  }

  lemma PackageDescribes(package: PublicKeyPackage, ps: Parties, ps': Parties, parameters: ValidParameters, p: seq<Scalar>,
                         sid: Bytes, chain_code: ChainCode, depth: nat, child_number: nat, address_fn: Point -> string)
    requires ConsistentParties(ps, parameters, p, sid, chain_code) && SameLevel(ps, depth)
    requires Describes(package, ps, parameters, Base(Eval(p, 0))) && AllDerive(ps, ps', child_number, address_fn)
    ensures DerivePackage(package, chain_code, child_number).Ok?
    ensures forall i :: i in ps' ==> Describes(DerivePackage(package, chain_code, child_number).value, ps', parameters, ps'[i].pk)
  {
    hide ConsistentParties, Eval, DeriveParty;
    var one: PartyIndex := 1;
    assert one in ps by { OneIsThere(ps, parameters, p, sid, chain_code); }
    forall i | i in ps
      ensures DerivePackage(package, chain_code, child_number).Ok?
      ensures var q := DerivePackage(package, chain_code, child_number).value;
        && q.verifying_key == ps'[i].pk && q.parameters == parameters
        && i in q.verifying_shares && q.verifying_shares[i] == Base(ps'[i].poly_point)
    {
      SameOutcome(package, ps, parameters, p, sid, chain_code, depth, child_number, address_fn, i);
    }
  }

  lemma OneIsThere(ps: Parties, parameters: ValidParameters, p: seq<Scalar>, sid: Bytes, chain_code: ChainCode)
    requires ConsistentParties(ps, parameters, p, sid, chain_code)
    ensures 1 in ps
  {
    hide PairwiseSeeds, AllPaired, SharesOf, SamePublicData;
  }
}
