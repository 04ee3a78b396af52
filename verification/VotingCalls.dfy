/** What each call of the bridge pallet requires and writes. */
module VotingCalls {
  import opened Arith
  import opened Ledgers
  import opened Wrappers
  import opened BridgeVoting

  // --- administration ---

  /** Relayers are added and removed one at a time, and counted. */
  lemma RelayerCalls(s: State, a: Account)
    requires s.count == |s.relayers|
    ensures var r := AddRelayer(s, a);
            if a in s.relayers then r == Err(RelayerAlreadyExists)
            else if s.count >= U32_MAX then r == Err(Overflow)
            else
              && r.Ok? && r.value == s.(relayers := r.value.relayers, count := s.count + 1)
              && forall e: Account :: e in r.value.relayers <==> e == a || e in s.relayers
    ensures var r := RemoveRelayer(s, a);
            if a !in s.relayers then r == Err(RelayerInvalid)
            else
              && r.Ok? && r.value == s.(relayers := r.value.relayers, count := s.count - 1)
              && forall e: Account :: e in r.value.relayers <==> e != a && e in s.relayers
  {
    if a in s.relayers {
      assert |s.relayers| > 0;
    }
  }

  /** The threshold is any positive number; resources must be known; a foreign chain is whitelisted once, from nonce
      zero. */
  lemma SettingCalls(s: State, n: nat, id: Resource, known: bool, chain: Chain)
    ensures SetThreshold(s, n) == if n > 0 then Ok(s.(threshold := n)) else Err(InvalidThreshold)
    ensures var r := SetResource(s, id, known);
            if !known then r == Err(InvalidResourceId)
            else
              && r.Ok? && r.value == s.(resources := r.value.resources)
              && forall j: Resource :: j in r.value.resources <==> j == id || j in s.resources
    ensures var r := RemoveResource(s, id);
            && r.Ok? && r.value == s.(resources := r.value.resources)
            && forall j: Resource :: j in r.value.resources <==> j != id && j in s.resources
    ensures var r := Whitelist(s, chain);
            if chain == s.home then r == Err(InvalidChainId)
            else if chain in s.nonces then r == Err(ChainAlreadyWhitelisted)
            else r == Ok(s.(nonces := s.nonces[chain := 0]))
  {
  }

  /** A transfer to a whitelisted chain gets the number after the last one. */
  lemma SendCall(s: State, dest: Chain)
    ensures var r := Send(s, dest);
            if dest !in s.nonces then r == Err(ChainNotWhitelisted)
            else
              && r.Ok? && r.value.1 == s.nonces[dest] + 1
              && r.value.0 == s.(nonces := s.nonces[dest := r.value.1])
  {
  }

  // --- votes ---

  /** How votes decide: approved once the threshold is reached, rejected once all others together could not reach it
      any more, although the threshold is within the number of relayers. */
  function Verdict(b: Ballot, threshold: nat, total: nat): BridgeVoting.Status {
    if |b.votesFor| >= threshold then Approved
    else if threshold <= total && total - |b.votesAgainst| < threshold then Rejected
    else Initiated
  }

  lemma CompletedIs(b: Ballot, threshold: nat, total: nat)
    ensures var r, wide := Completed(b, threshold, total),
                           |b.votesFor| < threshold <= total && |b.votesAgainst| + threshold > U32_MAX;
            r == if wide then Err(Overflow) else Ok(Verdict(b, threshold, total))
  {
  }

  /** The ballot with one more vote. */
  function WithVote(b: Ballot, who: Account, inFavour: bool): Ballot {
    if inFavour then Ballot(b.votesFor + [who], b.votesAgainst, b.status, b.expiry)
    else Ballot(b.votesFor, b.votesAgainst + [who], b.status, b.expiry)
  }

  /** What an open, unexpired ballot becomes when it is evaluated. */
  ghost predicate Evaluated(s: State, k: Key, b: Ballot, works: bool, r: Attempt<State>) {
    var verdict := Verdict(b, s.threshold, s.count);
    if |b.votesFor| < s.threshold <= s.count && |b.votesAgainst| + s.threshold > U32_MAX then r == Err(Overflow)
    else if verdict == Approved && !works then r == Err(CallFailed)
    else
      && r.Ok?
      && r.value == s.(votes := s.votes[k := Ballot(b.votesFor, b.votesAgainst, verdict, b.expiry)],
                       succeeded := if verdict == Approved then s.succeeded + [k] else s.succeeded)
  }

  /** Anybody can have an open ballot evaluated. */
  lemma EvaluateCall(s: State, k: Key, works: bool)
    ensures var r := Resolve(s, k, works);
            if k !in s.votes then r == Err(ProposalDoesNotExist)
            else if s.votes[k].status != Initiated then r == Err(ProposalAlreadyComplete)
            else if s.votes[k].expiry <= s.now then r == Err(ProposalExpired)
            else Evaluated(s, k, s.votes[k], works, r)
  {
    hide Completed;
    if k in s.votes {
      CompletedIs(s.votes[k], s.threshold, s.count);
    }
  }

  /** A vote needs a relayer, a whitelisted source and a known resource, and an open, unexpired ballot on which the
      relayer has not voted; a first vote opens a ballot for one lifetime. The vote is added at the end of its side, and
      the ballot is evaluated at once. */
  lemma VoteCall(s: State, who: Account, k: Key, id: Resource, inFavour: bool, works: bool)
    ensures var r := Vote(s, who, k, id, inFavour, works);
            var b := if k in s.votes then s.votes[k] else Ballot([], [], Initiated, s.now + s.lifetime);
            if who !in s.relayers then r == Err(MustBeRelayer)
            else if k.src !in s.nonces then r == Err(ChainNotWhitelisted)
            else if id !in s.resources then r == Err(ResourceDoesNotExist)
            else if k !in s.votes && s.now + s.lifetime > U32_MAX then r == Err(Overflow)
            else if b.status != Initiated then r == Err(ProposalAlreadyComplete)
            else if b.expiry <= s.now then r == Err(ProposalExpired)
            else if who in b.votesFor || who in b.votesAgainst then r == Err(RelayerAlreadyVoted)
            else Evaluated(s, k, WithVote(b, who, inFavour), works, r)
  {
    hide Resolve, Verdict;
    if CommitVote(s, who, k, inFavour).Ok? {
      var b := if k in s.votes then s.votes[k] else Ballot([], [], Initiated, s.now + s.lifetime);
      var s1 := CommitVote(s, who, k, inFavour).value;
      EvaluateCall(s1, k, works);
      var x := WithVote(b, who, inFavour);
      var done := Ballot(x.votesFor, x.votesAgainst, Verdict(x, s.threshold, s.count), x.expiry);
      assert s1.votes == s.votes[k := x];
      assert s1.votes[k := done] == s.votes[k := done];
    }
  }
}
