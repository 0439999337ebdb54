/** From a key to signatures: every state that the parties can reach signs. */
module EndToEnd {
  import opened Outcomes
  import opened PrimeField
  import opened Polynomials
  import opened Hashes
  import opened Curve
  import opened Sequences
  import opened Protocols
  import opened PartyStates
  import opened KeyGenerationRuns
  import opened Derivation
  import opened ReachableStates
  import opened SigningRuns
  import opened SigningOutcome
  import opened SigningInterleavings

  /** A group of t of the parties, each of which lists the others. */
  ghost predicate IsGroup(run: SigningRun) {
    && NoRepeats(run.group) && |run.group| == run.parameters.threshold
    && forall i :: i in run.group ==> i <= run.parameters.share_count && ListsOthers(run, i, run.orders(i))
  }

  /** The run with its shared secret made explicit. */
  ghost function WithSecret(run: SigningRun, p: seq<Scalar>, sid: Bytes, chain_code: ChainCode): SigningRun {
    run.(polynomial := p, session_id := sid, chain_code := chain_code)
  }

  lemma GroupIsValid(run: SigningRun, p: seq<Scalar>, sid: Bytes, chain_code: ChainCode)
    requires ConsistentParties(run.ps, run.parameters, p, sid, chain_code) && IsGroup(run)
    ensures ValidRun(WithSecret(run, p, sid, chain_code))
  {
    hide SamePublicData, SharesOf, ZeroShares.PairwiseSeeds, AllPaired, Eval;
  }

  /** After any history of refreshes and derivations that starts from consistent parties, every group of t parties can sign
      exactly if the run is signable: then nobody aborts in any interleaving of their sessions, some interleaving finishes,
      and the signatures are those of the shared secret. */
  lemma EveryReachableStateSigns(parameters: ValidParameters, states: seq<Parties>, actions: seq<Action>, k: nat, run: SigningRun,
                                 normalize: PartyIndex -> bool, trace: seq<System>, m: nat, i: PartyIndex)
    returns (r: SigningRun)
    requires IsHistory(parameters, states, actions) && Joint(states[0], parameters) && k < |states|
    requires run.ps == states[k] && run.parameters == parameters && IsGroup(run) && i in run.group
    ensures r == WithSecret(run, r.polynomial, r.session_id, r.chain_code) && ValidRun(r)
    ensures i in r.ps && r.ps[i].pk == Base(SecretKey(r))
    ensures IsTrace(r, normalize, trace) && m < |trace| ==>
      i in trace[m].members && RightOutcome(r, normalize(i), i, trace[m].members[i])
    ensures Signable(r) <==>
      exists full :: IsTrace(r, normalize, full) && AllFinished(r, full[|full| - 1])
  {
    var p, sid, chain_code := StateHasSecret(parameters, states, actions, k);
    r := WithSecret(run, p, sid, chain_code);
    GroupIsValid(run, p, sid, chain_code);
    PartyFacts(r, i);
    hide ValidRun, Signable, RightOutcome, IsGroup, IsHistory, Joint, IsTrace;
    SigningDecided(r, normalize);
    if IsTrace(r, normalize, trace) && m < |trace| {
      EveryInterleavingSigns(r, normalize, trace, m, i);
    }
  }

  lemma StateHasSecret(parameters: ValidParameters, states: seq<Parties>, actions: seq<Action>, k: nat)
    returns (p: seq<Scalar>, sid: Bytes, chain_code: ChainCode)
    requires IsHistory(parameters, states, actions) && Joint(states[0], parameters) && k < |states|
    ensures ConsistentParties(states[k], parameters, p, sid, chain_code)
  {
    hide ConsistentParties, SameLevel, Acts;
    AlwaysJoint(parameters, states, actions, k);
    var depth: nat;
    p, sid, chain_code, depth :|
      ConsistentParties(states[k], parameters, p, sid, chain_code) && SameLevel(states[k], depth);
  }

  /** The public package that key generation returns describes the parties. */
  lemma PackageDescribesParties(run: DkgRun)
    requires ValidDkg(run)
    ensures Describes(FinalPackage(run), FinalParties(run), run.parameters, PublicKey(run))
  {
    ValidIsSetUp(run);
    hide ProofsAccepted, OtProofsAccepted, Eval, ReceiversBelow, SendersBelow, AgreedSeeds, CommonChainCode;
  }
}
