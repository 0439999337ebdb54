/** Steps 2, 3 and 5 of distributed key generation: evaluating a polynomial at every party, and deciding
    whether the committed points of all parties come from one polynomial. */
module KeyGenerationSteps {
  import opened Sequences
  import opened Outcomes
  import opened PrimeField
  import opened Sums
  import opened Polynomials
  import opened Hashes
  import opened Curve
  import opened Proofs
  import opened Shamir
  import opened Protocols

  datatype ProofCommitment = ProofCommitment(index: PartyIndex, proof: DLogProof, commitment: HashOutput)

  /** step2: Horner's rule at every party index. */
  method Step2(parameters: ValidParameters, polynomial: seq<Scalar>) returns (points: seq<Scalar>)
    requires |polynomial| == parameters.threshold
    ensures points == Values(polynomial, Indices(1, parameters.share_count))
  {
    hide Eval;
    points := [];
    var last_index := parameters.threshold - 1;
    for j := 1 to parameters.share_count + 1
      invariant |points| == j - 1
      invariant forall k :: 0 <= k < j - 1 ==> points[k] == Eval(polynomial, k + 1)
    {
      var evaluation_at_j := polynomial[last_index];
      EvalConstant(polynomial[last_index], j);
      assert polynomial[last_index..] == [polynomial[last_index]];
      for k := last_index downto 0
        invariant evaluation_at_j == Eval(polynomial[k..], j)
      {
        HornerStep(polynomial, k, j);
        evaluation_at_j := Add(Mul(evaluation_at_j, j), polynomial[k]);
      }
      points := points + [evaluation_at_j];
    }
  }

  lemma HornerStep(p: seq<Scalar>, k: nat, x: Scalar)
    requires k < |p|
    ensures Eval(p[k..], x) == Add(Mul(Eval(p[k + 1..], x), x), p[k])
  {
    assert p[k..][1..] == p[k + 1..];
  }

  /** The share that step3 computes from the fragments received. */
  method Step3(poly_fragments: seq<Scalar>) returns (poly_point: Scalar)
    ensures poly_point == Sum(poly_fragments)
  {
    poly_point := 0;
    for i := 0 to |poly_fragments|
      invariant poly_point == Sum(poly_fragments[..i])
    {
      poly_point := Add(poly_point, poly_fragments[i]);
      assert poly_fragments[..i + 1][..i] == poly_fragments[..i];
    }
    assert poly_fragments[..|poly_fragments|] == poly_fragments;
  }

  // Step 5, first part: the proofs

  ghost predicate ProofAccepted(me: PartyIndex, sid: Bytes, pc: ProofCommitment) {
    pc.index == me || DecommitAccepts(pc.proof, pc.commitment, sid)
  }

  /** The committed points after reading pcs, or the abort of the first proof that fails. */
  ghost function Gathered(me: PartyIndex, sid: Bytes, pcs: seq<ProofCommitment>, points: map<PartyIndex, Point>)
    : Result<map<PartyIndex, Point>, Abort>
  {
    if pcs == [] then Ok(points)
    else if !ProofAccepted(me, sid, pcs[0]) then Err(Recover(me, ProofVerificationFailed(pcs[0].index)))
    else Gathered(me, sid, pcs[1..], points[pcs[0].index := pcs[0].proof.point])
  }

  method GatherPoints(me: PartyIndex, sid: Bytes, pcs: seq<ProofCommitment>) returns (r: Result<map<PartyIndex, Point>, Abort>)
    ensures r == Gathered(me, sid, pcs, map[])
  {
    hide DecommitAccepts;
    var committed_points: map<PartyIndex, Point> := map[];
    for i := 0 to |pcs|
      invariant Gathered(me, sid, pcs, map[]) == Gathered(me, sid, pcs[i..], committed_points)
    {
      assert pcs[i..][0] == pcs[i] && pcs[i..][1..] == pcs[i + 1..];
      if pcs[i].index != me {
        var verification := DecommitVerify(pcs[i].proof, pcs[i].commitment, sid);
        if !verification {
          return Err(Recover(me, ProofVerificationFailed(pcs[i].index)));
        }
      }
      committed_points := committed_points[pcs[i].index := pcs[i].proof.point];
    }
    return Ok(committed_points);
  }

  /** The points by party; the last entry for an index wins. */
  function Committed(pcs: seq<ProofCommitment>, points: map<PartyIndex, Point>): map<PartyIndex, Point> {
    if pcs == [] then points else Committed(pcs[1..], points[pcs[0].index := pcs[0].proof.point])
  }

  lemma {:induction false} GatheredMeaning(me: PartyIndex, sid: Bytes, pcs: seq<ProofCommitment>, points: map<PartyIndex, Point>)
    ensures Gathered(me, sid, pcs, points).Ok? <==> forall i :: 0 <= i < |pcs| ==> ProofAccepted(me, sid, pcs[i])
    ensures Gathered(me, sid, pcs, points).Ok? ==> Gathered(me, sid, pcs, points).value == Committed(pcs, points)
  {
    hide ProofAccepted;
    if pcs != [] {
      GatheredMeaning(me, sid, pcs[1..], points[pcs[0].index := pcs[0].proof.point]);
      assert forall i :: 1 <= i < |pcs| ==> pcs[i] == pcs[1..][i - 1];
      assert forall i :: 0 <= i < |pcs| - 1 ==> pcs[1..][i] == pcs[i + 1];
    }
  }

  // Step 5, second part: the sliding windows

  /** The Lagrange coefficient of party j in the window of t parties from i on. */
  function Coefficient(i: nat, t: nat, j: nat): Scalar
    requires i + t <= 256 && i <= j < i + t
  {
    var xs := Indices(i, t);
    DistinctWithout(xs, j - i);
    Lagrange(xs[j - i], Without(xs, j - i))
  }

  /** How many of the parties from i up to k differ from j. */
  function OthersBefore(i: nat, j: nat, k: nat): nat
    requires i <= j && i <= k
  {
    if k <= j then k - i else k - i - 1
  }

  lemma OtherIndicesStep(i: nat, t: nat, j: nat, k: nat)
    requires i + t <= 256 && i <= j < i + t && i <= k < i + t && k != j
    ensures var others := Without(Indices(i, t), j - i);
      var m := OthersBefore(i, j, k);
      && m < |others| && OthersBefore(i, j, k + 1) == m + 1
      && Prod(others[..m + 1]) == Mul(Prod(others[..m]), k)
      && Prod(Differences(others, j)[..m + 1]) == Mul(Prod(Differences(others, j)[..m]), Sub(k, j))
  {
    var others := Without(Indices(i, t), j - i);
    var m := OthersBefore(i, j, k);
    assert others[m] == k;
    ProdStep(others, m);
    ProdStep(Differences(others, j), m);
  }

  lemma ProdStep(s: seq<Scalar>, m: nat)
    requires m < |s|
    ensures Prod(s[..m + 1]) == Mul(Prod(s[..m]), s[m])
  {
    assert s[..m + 1][..m] == s[..m];
  }

  lemma OthersEnd(i: nat, t: nat, j: nat)
    requires i + t <= 256 && i <= j < i + t
    ensures var others := Without(Indices(i, t), j - i);
      var m := OthersBefore(i, j, i + t);
      m == |others| && others[..m] == others && Differences(others, j)[..m] == Differences(others, j) && j !in others
  {
    DistinctWithout(Indices(i, t), j - i);
  }

  method ComputeCoefficient(i: nat, t: nat, j: nat) returns (lj: Scalar)
    requires 1 <= i && i + t <= 255 && i <= j < i + t
    ensures lj == Coefficient(i, t, j)
  {
    hide Prod, Without, Differences, OthersBefore;
    ghost var others := Without(Indices(i, t), j - i);
    OthersEnd(i, t, j);
    var j_scalar: Scalar := j;
    var lj_numerator: Scalar, lj_denominator: Scalar := 1, 1;
    StartCoefficient(i, j, others);
    for k := i to i + t
      invariant OthersBefore(i, j, k) <= |others| == |Differences(others, j)|
      invariant lj_numerator == Prod(others[..OthersBefore(i, j, k)])
      invariant lj_denominator == Prod(Differences(others, j)[..OthersBefore(i, j, k)])
    {
      if k != j {
        OtherIndicesStep(i, t, j, k);
        var k_scalar: Scalar := k;
        lj_numerator := Mul(lj_numerator, k_scalar);
        lj_denominator := Mul(lj_denominator, Sub(k_scalar, j_scalar));
      } else {
        assert OthersBefore(i, j, k) == OthersBefore(i, j, k + 1) by { SkipSelf(i, j); }
      }
    }
    DenominatorNonZero(others, j_scalar);
    lj := Mul(lj_numerator, Inv(lj_denominator));
  }

  lemma StartCoefficient(i: nat, j: Scalar, others: seq<Scalar>)
    requires i <= j
    ensures OthersBefore(i, j, i) == 0 && |Differences(others, j)| == |others|
    ensures Prod(others[..0]) == 1 && Prod(Differences(others, j)[..0]) == 1
  {}

  lemma SkipSelf(i: nat, j: nat)
    requires i <= j
    ensures OthersBefore(i, j, j) == OthersBefore(i, j, j + 1)
  {}

  /** All parties from first up to end have a committed point. */
  predicate Present(committed: map<PartyIndex, Point>, first: nat, end: nat) {
    forall k: PartyIndex :: first <= k < end ==> k in committed
  }

  /** The first party from j on, before end, without a committed point; end if there is none. */
  function FirstMissing(committed: map<PartyIndex, Point>, j: nat, end: nat): (m: nat)
    requires 1 <= j <= end <= 256
    ensures j <= m <= end
    ensures Present(committed, j, m)
    ensures m < end ==> m !in committed
    decreases end - j
  {
    if j == end || j !in committed then j else FirstMissing(committed, j + 1, end)
  }

  lemma {:induction false} FirstMissingIs(committed: map<PartyIndex, Point>, j: nat, end: nat, m: PartyIndex)
    requires 1 <= j <= m < end <= 256 && Present(committed, j, m) && m !in committed
    ensures FirstMissing(committed, j, end) == m
    decreases m - j
  {
    if j < m {
      FirstMissingIs(committed, j + 1, end, m);
    }
  }

  function LogOf(committed: map<PartyIndex, Point>, k: PartyIndex): Scalar {
    if k in committed then committed[k].log else 0
  }

  /** The discrete logarithms of the points of count parties from i on. */
  function Logs(committed: map<PartyIndex, Point>, i: nat, count: nat): (ys: seq<Scalar>)
    requires 1 <= i && i + count <= 256 && Present(committed, i, i + count)
    ensures |ys| == count
  {
    seq<Scalar>(count, k requires 0 <= k < count => LogOf(committed, i + k))
  }

  /** The reconstruction in the exponent from one window. */
  function WindowPoint(me: PartyIndex, committed: map<PartyIndex, Point>, i: nat, t: nat): Result<Point, Abort>
    requires 1 <= i && i + t <= 255
  {
    var m := FirstMissing(committed, i, i + t);
    if m < i + t then Err(Recover(me, MissingCommittedPoint(m)))
    else Ok(Point(Sum(Terms(Indices(i, t), Logs(committed, i, t)))))
  }

  function WindowPrefix(committed: map<PartyIndex, Point>, i: nat, t: nat, count: nat): (s: seq<Scalar>)
    requires 1 <= i && i + t <= 255 && count <= t && Present(committed, i, i + count)
    ensures |s| == count
  {
    seq<Scalar>(count, k requires 0 <= k < count => Mul(Coefficient(i, t, i + k), LogOf(committed, i + k)))
  }

  lemma WindowPrefixStep(committed: map<PartyIndex, Point>, i: nat, t: nat, count: nat, lj: Scalar)
    requires 1 <= i && i + t <= 255 && count < t && Present(committed, i, i + count + 1) && lj == Coefficient(i, t, i + count)
    ensures Sum(WindowPrefix(committed, i, t, count + 1))
            == Add(Sum(WindowPrefix(committed, i, t, count)), Mul(committed[i + count].log, lj))
  {
    hide Coefficient, Add, Mul;
    var s := WindowPrefix(committed, i, t, count + 1);
    Commute(committed[i + count].log, lj);
    assert s[..count] == WindowPrefix(committed, i, t, count);
    assert s[count] == Mul(lj, LogOf(committed, i + count));
  }

  lemma StopWindow(me: PartyIndex, committed: map<PartyIndex, Point>, i: nat, t: nat, stop: PartyIndex)
    requires 1 <= i <= stop < i + t <= 255 && Present(committed, i, stop) && stop !in committed
    ensures WindowPoint(me, committed, i, t) == Err(Recover(me, MissingCommittedPoint(stop)))
  {
    FirstMissingIs(committed, i, i + t, stop);
  }

  lemma WholeWindow(me: PartyIndex, committed: map<PartyIndex, Point>, i: nat, t: nat, pk: Point)
    requires 1 <= i && i + t <= 255 && Present(committed, i, i + t) && pk.log == Sum(WindowPrefix(committed, i, t, t))
    ensures WindowPoint(me, committed, i, t) == Ok(pk)
  {
    hide WindowPrefix, Terms, Logs, Sum;
    WindowTerms(committed, i, t);
  }

  method ComputeWindow(me: PartyIndex, committed: map<PartyIndex, Point>, i: nat, t: nat) returns (r: Result<Point, Abort>)
    requires 1 <= i && i + t <= 255
    ensures r == WindowPoint(me, committed, i, t)
  {
    hide Coefficient, WindowPoint;
    var current_pk := IDENTITY;
    for j := i to i + t
      invariant Present(committed, i, j)
      invariant current_pk.log == Sum(WindowPrefix(committed, i, t, j - i))
    {
      var lj := ComputeCoefficient(i, t, j);
      if j !in committed {
        StopWindow(me, committed, i, t, j);
        return Err(Recover(me, MissingCommittedPoint(j)));
      }
      var lj_times_point := Curve.Times(committed[j], lj);
      WindowPrefixStep(committed, i, t, j - i, lj);
      Commute(lj_times_point.log, current_pk.log);
      current_pk := Curve.Plus(lj_times_point, current_pk);
    }
    WholeWindow(me, committed, i, t, current_pk);
    return Ok(current_pk);
  }

  lemma WindowTerms(committed: map<PartyIndex, Point>, i: nat, t: nat)
    requires 1 <= i && i + t <= 255 && Present(committed, i, i + t)
    ensures WindowPrefix(committed, i, t, t) == Terms(Indices(i, t), Logs(committed, i, t))
  {
    hide Lagrange, Without;
    var xs, ys := Indices(i, t), Logs(committed, i, t);
    forall k | 0 <= k < t ensures WindowPrefix(committed, i, t, t)[k] == Terms(xs, ys)[k] {
      DistinctWithout(xs, k);
      assert ys[k] == LogOf(committed, i + k);
      assert WindowPrefix(committed, i, t, t)[k] == Mul(Coefficient(i, t, i + k), ys[k]);
      assert Terms(xs, ys)[k] == Mul(Lagrange(xs[k], Without(xs, k)), ys[k]);
    }
  }

  /** The windows from i to last, when the first one gave pk. A window that ends beyond party 254 overflows
      the index arithmetic. */
  function Windows(me: PartyIndex, committed: map<PartyIndex, Point>, t: nat, i: nat, last: nat, pk: Point): Result<Point, Abort>
    requires 1 <= i
    decreases last - i
  {
    if i > last then Ok(pk)
    else if i + t > 255 then Err(Recover(me, IndexPanic))
    else
      var w := WindowPoint(me, committed, i, t);
      if w.Err? then Err(w.error)
      else if i == 1 then Windows(me, committed, t, 2, last, w.value)
      else if pk != w.value then Err(Recover(me, PolynomialInconsistency))
      else Windows(me, committed, t, i + 1, last, pk)
  }

  /** What step5 returns. */
  ghost function Step5Outcome(parameters: ValidParameters, me: PartyIndex, sid: Bytes, pcs: seq<ProofCommitment>)
    : Result<(Point, map<PartyIndex, Point>), Abort>
  {
    var committed := Gathered(me, sid, pcs, map[]);
    if committed.Err? then Err(committed.error)
    else
      var last := parameters.share_count - parameters.threshold + 1;
      var pk := Windows(me, committed.value, parameters.threshold, 1, last, IDENTITY);
      if pk.Err? then Err(pk.error) else Ok((pk.value, committed.value))
  }

  /** step5 */
  method Step5(parameters: ValidParameters, me: PartyIndex, sid: Bytes, pcs: seq<ProofCommitment>)
    returns (r: Result<(Point, map<PartyIndex, Point>), Abort>)
    ensures r == Step5Outcome(parameters, me, sid, pcs)
  {
    hide Gathered, WindowPoint;
    var t := parameters.threshold;
    var committed := GatherPoints(me, sid, pcs);
    if committed.Err? {
      return Err(committed.error);
    }
    var committed_points := committed.value;
    var pk := IDENTITY;
    var last := parameters.share_count - t + 1;
    for i := 1 to last + 1
      invariant Windows(me, committed_points, t, 1, last, IDENTITY) == Windows(me, committed_points, t, i, last, pk)
    {
      if i + t > 255 {
        return Err(Recover(me, IndexPanic));
      }
      var current_pk := ComputeWindow(me, committed_points, i, t);
      if current_pk.Err? {
        return Err(current_pk.error);
      }
      if i == 1 {
        pk := current_pk.value;
      } else if pk != current_pk.value {
        return Err(Recover(me, PolynomialInconsistency));
      }
    }
    return Ok((pk, committed_points));
  }

  // What step 5 decides

  /** All parties' points are present. */
  predicate AllPresent(committed: map<PartyIndex, Point>, n: nat)
    requires n <= 255
  {
    Present(committed, 1, n + 1)
  }

  /** Party j's point is p(j) in the exponent. */
  ghost predicate Interpolated(committed: map<PartyIndex, Point>, n: nat, p: seq<Scalar>)
    requires n <= 255
  {
    forall j :: 1 <= j <= n ==> j in committed && committed[j] == Base(Eval(p, j))
  }

  lemma WindowValue(me: PartyIndex, committed: map<PartyIndex, Point>, n: nat, i: nat, t: nat)
    requires n <= 254 && AllPresent(committed, n) && 1 <= i && i - 1 + t <= n
    ensures WindowPoint(me, committed, i, t) == Ok(Point(WindowAtZero(Logs(committed, 1, n), i, t)))
  {
    assert FirstMissing(committed, i, i + t) == i + t;
    assert Logs(committed, i, t) == Window(Logs(committed, 1, n), i, t);
  }

  /** The remaining windows succeed just when each gives the value of the first. */
  lemma {:induction false} WindowsMeaning(me: PartyIndex, committed: map<PartyIndex, Point>, t: nat, n: nat, i: nat, pk: Point)
    requires 1 <= t <= n <= 254 && AllPresent(committed, n) && 2 <= i <= n - t + 2
    ensures Windows(me, committed, t, i, n - t + 1, pk).Ok? <==>
      forall k :: i <= k <= n - t + 1 ==> Point(WindowAtZero(Logs(committed, 1, n), k, t)) == pk
    ensures Windows(me, committed, t, i, n - t + 1, pk).Ok? ==> Windows(me, committed, t, i, n - t + 1, pk).value == pk
    decreases n - t + 2 - i
  {
    hide WindowAtZero, Logs, WindowPoint;
    if i <= n - t + 1 {
      WindowValue(me, committed, n, i, t);
      WindowsMeaning(me, committed, t, n, i + 1, pk);
    }
  }

  lemma AllWindows(me: PartyIndex, committed: map<PartyIndex, Point>, t: nat, n: nat)
    requires 1 <= t <= n <= 254 && AllPresent(committed, n)
    ensures var r := Windows(me, committed, t, 1, n - t + 1, IDENTITY);
      var ys := Logs(committed, 1, n);
      && (r.Ok? <==> WindowsAgree(ys, t)) && (r.Ok? ==> r.value == Point(WindowAtZero(ys, 1, t)))
  {
    hide WindowAtZero, Logs, WindowPoint;
    WindowValue(me, committed, n, 1, t);
    WindowsMeaning(me, committed, t, n, 2, Point(WindowAtZero(Logs(committed, 1, n), 1, t)));
  }

  lemma WindowPresent(me: PartyIndex, committed: map<PartyIndex, Point>, i: nat, t: nat)
    requires 1 <= i && i + t <= 255 && WindowPoint(me, committed, i, t).Ok?
    ensures Present(committed, i, i + t)
  {}

  /** Success means that every window in range was complete and ended before party 255. */
  lemma {:induction false} WindowsComplete(me: PartyIndex, committed: map<PartyIndex, Point>, t: nat, i: nat, last: nat,
                                           pk: Point)
    requires 1 <= i <= last && 1 <= t && last + t <= 256 && Windows(me, committed, t, i, last, pk).Ok?
    ensures last + t <= 255 && Present(committed, i, last + t)
    decreases last - i
  {
    hide WindowPoint;
    WindowPresent(me, committed, i, t);
    if i < last {
      WindowsComplete(me, committed, t, i + 1, last, if i == 1 then WindowPoint(me, committed, i, t).value else pk);
    }
  }

  lemma InterpolatedLogs(committed: map<PartyIndex, Point>, n: nat, p: seq<Scalar>)
    requires n <= 254 && AllPresent(committed, n)
    ensures Interpolated(committed, n, p) <==> OnPolynomial(Logs(committed, 1, n), p)
  {
    hide Eval;
    var ys := Logs(committed, 1, n);
    forall j | 1 <= j <= n ensures committed[j] == Base(Eval(p, j)) <==> ys[j - 1] == Eval(p, j) {
      assert committed[j].log == ys[j - 1];
    }
  }

  /** step5 succeeds just when there are at most 254 parties, every other party's proof is accepted, the
      points of all parties are present, and they lie on one polynomial with t coefficients; the public
      key is then that polynomial at zero. */
  lemma Step5Decides(parameters: ValidParameters, me: PartyIndex, sid: Bytes, pcs: seq<ProofCommitment>)
    ensures Step5Outcome(parameters, me, sid, pcs).Ok? <==>
      && parameters.share_count <= 254
      && (forall i :: 0 <= i < |pcs| && pcs[i].index != me ==> DecommitAccepts(pcs[i].proof, pcs[i].commitment, sid))
      && (exists p: seq<Scalar> :: |p| == parameters.threshold && Interpolated(Committed(pcs, map[]), parameters.share_count, p))
    ensures Step5Outcome(parameters, me, sid, pcs).Ok? ==>
      && Step5Outcome(parameters, me, sid, pcs).value.1 == Committed(pcs, map[])
      && forall p: seq<Scalar> ::
           |p| == parameters.threshold && Interpolated(Committed(pcs, map[]), parameters.share_count, p) ==>
             Step5Outcome(parameters, me, sid, pcs).value.0 == Base(Eval(p, 0))
  {
    hide Gathered, Committed, Windows, ProofAccepted, Eval, WindowAtZero, Logs, OnPolynomial, WindowsAgree;
    GatheredMeaning(me, sid, pcs, map[]);
    AcceptedProofs(me, sid, pcs);
    if forall i :: 0 <= i < |pcs| ==> ProofAccepted(me, sid, pcs[i]) {
      PointsDecide(me, Committed(pcs, map[]), parameters.threshold, parameters.share_count);
    }
  }

  lemma AcceptedProofs(me: PartyIndex, sid: Bytes, pcs: seq<ProofCommitment>)
    ensures (forall i :: 0 <= i < |pcs| ==> ProofAccepted(me, sid, pcs[i])) <==>
      forall i :: 0 <= i < |pcs| && pcs[i].index != me ==> DecommitAccepts(pcs[i].proof, pcs[i].commitment, sid)
  {
    hide DecommitAccepts;
    if forall i :: 0 <= i < |pcs| ==> ProofAccepted(me, sid, pcs[i]) {
      forall i | 0 <= i < |pcs| && pcs[i].index != me ensures DecommitAccepts(pcs[i].proof, pcs[i].commitment, sid) {
        assert ProofAccepted(me, sid, pcs[i]);
      }
    }
  }

  /** Among several points for one party the last one counts. */
  lemma {:induction false} CommittedLast(pcs: seq<ProofCommitment>, points: map<PartyIndex, Point>, j: PartyIndex)
    ensures j in Committed(pcs, points) <==> j in points || exists k :: 0 <= k < |pcs| && pcs[k].index == j
    ensures forall k :: 0 <= k < |pcs| && pcs[k].index == j && (forall m :: k < m < |pcs| ==> pcs[m].index != j) ==>
      j in Committed(pcs, points) && Committed(pcs, points)[j] == pcs[k].proof.point
    ensures (forall k :: 0 <= k < |pcs| ==> pcs[k].index != j) && j in points ==>
      j in Committed(pcs, points) && Committed(pcs, points)[j] == points[j]
    decreases |pcs|
  {
    if pcs != [] {
      var rest := pcs[1..];
      CommittedLast(rest, points[pcs[0].index := pcs[0].proof.point], j);
      assert forall k :: 0 <= k < |rest| ==> rest[k] == pcs[k + 1];
      assert forall k :: 1 <= k < |pcs| ==> pcs[k] == rest[k - 1];
    }
  }

  lemma {:induction false} GatheredNames(me: PartyIndex, sid: Bytes, pcs: seq<ProofCommitment>, points: map<PartyIndex, Point>,
                                         k: nat)
    requires k < |pcs| && !ProofAccepted(me, sid, pcs[k]) && forall i :: 0 <= i < k ==> ProofAccepted(me, sid, pcs[i])
    ensures Gathered(me, sid, pcs, points) == Err(Recover(me, ProofVerificationFailed(pcs[k].index)))
    decreases k
  {
    hide ProofAccepted;
    if k > 0 {
      assert pcs[1..][k - 1] == pcs[k] && forall i :: 0 <= i < k - 1 ==> pcs[1..][i] == pcs[i + 1];
      GatheredNames(me, sid, pcs[1..], points[pcs[0].index := pcs[0].proof.point], k - 1);
    }
  }

  /** How step 5 fails: it names the first party whose proof is not accepted; and if all proofs are accepted and the points of
      all of at most 254 parties are there, they do not lie on one short polynomial. */
  lemma Step5Names(parameters: ValidParameters, me: PartyIndex, sid: Bytes, pcs: seq<ProofCommitment>, k: nat)
    ensures
      && k < |pcs| && pcs[k].index != me && !DecommitAccepts(pcs[k].proof, pcs[k].commitment, sid)
      && (forall i :: 0 <= i < k && pcs[i].index != me ==> DecommitAccepts(pcs[i].proof, pcs[i].commitment, sid)) ==>
        Step5Outcome(parameters, me, sid, pcs) == Err(Recover(me, ProofVerificationFailed(pcs[k].index)))
    ensures
      && (forall i :: 0 <= i < |pcs| && pcs[i].index != me ==> DecommitAccepts(pcs[i].proof, pcs[i].commitment, sid))
      && parameters.share_count <= 254 && AllPresent(Committed(pcs, map[]), parameters.share_count)
      && Step5Outcome(parameters, me, sid, pcs).Err? ==>
        Step5Outcome(parameters, me, sid, pcs) == Err(Recover(me, PolynomialInconsistency))
  {
    hide Gathered, Committed, Windows, DecommitAccepts;
    if k < |pcs| && pcs[k].index != me && !DecommitAccepts(pcs[k].proof, pcs[k].commitment, sid)
       && forall i :: 0 <= i < k && pcs[i].index != me ==> DecommitAccepts(pcs[i].proof, pcs[i].commitment, sid) {
      GatheredNames(me, sid, pcs, map[], k);
    }
    if forall i :: 0 <= i < |pcs| && pcs[i].index != me ==> DecommitAccepts(pcs[i].proof, pcs[i].commitment, sid) {
      GatheredMeaning(me, sid, pcs, map[]);
      if parameters.share_count <= 254 && AllPresent(Committed(pcs, map[]), parameters.share_count) {
        OnlyInconsistent(me, Committed(pcs, map[]), parameters.threshold, parameters.share_count, 1, IDENTITY);
      }
    }
  }

  lemma {:induction false} OnlyInconsistent(me: PartyIndex, committed: map<PartyIndex, Point>, t: nat, n: nat, i: nat, pk: Point)
    requires 1 <= t <= n <= 254 && AllPresent(committed, n) && 1 <= i
    ensures var r := Windows(me, committed, t, i, n - t + 1, pk);
      r.Err? ==> r.error == Recover(me, PolynomialInconsistency)
    decreases n - t + 2 - i
  {
    hide WindowPoint;
    if i <= n - t + 1 {
      WindowValue(me, committed, n, i, t);
      var w := WindowPoint(me, committed, i, t);
      OnlyInconsistent(me, committed, t, n, i + 1, if i == 1 then w.value else pk);
    }
  }

  // Which error comes first when a point is missing or the index sum overflows

  /** What the first window that reaches party stop fails with. */
  function StopReason(stop: PartyIndex): AbortReason {
    if stop == 255 then IndexPanic else MissingCommittedPoint(stop)
  }

  /** Each window from the i-th on gives pk. */
  ghost predicate WindowsGive(ys: seq<Scalar>, t: nat, i: nat, pk: Point)
    requires t <= |ys| <= MAX_PARTIES && 1 <= i
  {
    forall k :: i <= k <= |ys| - t + 1 ==> WindowAtZero(ys, k, t) == pk.log
  }

  /** The windows before party stop are compared; the next one fails. */
  lemma {:induction false} StopsAt(me: PartyIndex, committed: map<PartyIndex, Point>, t: nat, last: nat, stop: PartyIndex, i: nat,
                                   pk: Point)
    requires 2 <= t < stop && stop <= last + t - 1 && Present(committed, 1, stop) && (stop == 255 || stop !in committed)
    requires 2 <= i <= stop - t + 1
    ensures Windows(me, committed, t, i, last, pk)
      == Err(Recover(me, if WindowsGive(Logs(committed, 1, stop - 1), t, i, pk)
                         then StopReason(stop) else PolynomialInconsistency))
    decreases stop - i
  {
    hide WindowAtZero, Logs, WindowPoint;
    if i <= stop - t {
      WindowValue(me, committed, stop - 1, i, t);
      StopsAt(me, committed, t, last, stop, i + 1, pk);
    } else if stop < 255 {
      StopWindow(me, committed, i, t, stop);
    }
  }

  /** If all proofs are accepted, but the first missing point is that of party stop, or the index sum overflows at stop = 255
      before any point is missing: the points before stop are compared first. If they lie on one short polynomial, or there is
      no complete window among them, the missing party is named or the overflow panics. */
  lemma Step5Stops(parameters: ValidParameters, me: PartyIndex, sid: Bytes, pcs: seq<ProofCommitment>, stop: PartyIndex)
    requires forall i :: 0 <= i < |pcs| && pcs[i].index != me ==> DecommitAccepts(pcs[i].proof, pcs[i].commitment, sid)
    requires stop <= parameters.share_count && Present(Committed(pcs, map[]), 1, stop)
    requires stop == 255 || stop !in Committed(pcs, map[])
    ensures Step5Outcome(parameters, me, sid, pcs)
      == Err(Recover(me, if parameters.threshold == 255 then IndexPanic
                         else if stop <= parameters.threshold
                                 || exists p: seq<Scalar> :: |p| == parameters.threshold && Interpolated(Committed(pcs, map[]), stop - 1, p)
                         then StopReason(stop) else PolynomialInconsistency))
  {
    hide Gathered, Committed, Eval, WindowAtZero, Logs, WindowPoint, DecommitAccepts, OnPolynomial;
    var t, n, committed := parameters.threshold, parameters.share_count, Committed(pcs, map[]);
    AcceptedProofs(me, sid, pcs);
    GatheredMeaning(me, sid, pcs, map[]);
    if t < 255 {
      if stop <= t {
        StopWindow(me, committed, 1, t, stop);
      } else {
        var ys := Logs(committed, 1, stop - 1);
        WindowValue(me, committed, stop - 1, 1, t);
        StopsAt(me, committed, t, n - t + 1, stop, 2, Point(WindowAtZero(ys, 1, t)));
        WindowsDecide(ys, t);
        forall p: seq<Scalar> ensures Interpolated(committed, stop - 1, p) <==> OnPolynomial(ys, p) {
          InterpolatedLogs(committed, stop - 1, p);
        }
      }
    }
  }

  lemma PointsDecide(me: PartyIndex, committed: map<PartyIndex, Point>, t: nat, n: nat)
    requires 2 <= t <= n <= 255
    ensures var r := Windows(me, committed, t, 1, n - t + 1, IDENTITY);
      && (r.Ok? <==> n <= 254 && exists p: seq<Scalar> :: |p| == t && Interpolated(committed, n, p))
      && (r.Ok? ==> forall p: seq<Scalar> :: |p| == t && Interpolated(committed, n, p) ==> r.value == Base(Eval(p, 0)))
  {
    hide Windows, Eval, WindowAtZero, Logs, OnPolynomial, WindowsAgree;
    if Windows(me, committed, t, 1, n - t + 1, IDENTITY).Ok? {
      WindowsComplete(me, committed, t, 1, n - t + 1, IDENTITY);
    }
    if n <= 254 && AllPresent(committed, n) {
      AllWindows(me, committed, t, n);
      WindowsDecide(Logs(committed, 1, n), t);
      forall p: seq<Scalar> ensures Interpolated(committed, n, p) <==> OnPolynomial(Logs(committed, 1, n), p) {
        InterpolatedLogs(committed, n, p);
      }
    }
  }
}
