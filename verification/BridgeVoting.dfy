/** The chainbridge pallet: relayers, thresholds and votes on proposals, over whole runs. */
module BridgeVoting {
  import opened Arith
  import opened Ledgers
  import opened Wrappers

  type Chain = nat
  type Resource = nat
  type Proposal = nat

  datatype Status = Initiated | Approved | Rejected

  datatype Ballot = Ballot(votesFor: seq<Account>, votesAgainst: seq<Account>, status: Status, expiry: nat) {
    predicate Voted(who: Account) { who in votesFor || who in votesAgainst }
  }

  /** A proposal is identified by its source chain, its nonce and the call itself. */
  datatype Key = Key(src: Chain, nonce: nat, call: Proposal)

  datatype Error =
    | InvalidChainId | InvalidThreshold | ChainNotWhitelisted | ChainAlreadyWhitelisted | ResourceDoesNotExist
    | RelayerAlreadyExists | RelayerInvalid | MustBeRelayer | RelayerAlreadyVoted | ProposalDoesNotExist
    | ProposalAlreadyComplete | ProposalExpired | InvalidResourceId | CallFailed | Overflow

  type Attempt<+T> = Result<T, Error>

  datatype State = State(
    home: Chain, lifetime: nat, now: nat, threshold: nat, relayers: set<Account>, count: nat,
    nonces: map<Chain, nat>, resources: set<Resource>, votes: map<Key, Ballot>, succeeded: seq<Key>)

  // --- administration ---

  function SetThreshold(s: State, n: nat): Attempt<State> {
    if n == 0 then Err(InvalidThreshold) else Ok(s.(threshold := n))
  }

  /** `known`: the resource is native or resolves to a token. */
  function SetResource(s: State, id: Resource, known: bool): Attempt<State> {
    if known then Ok(s.(resources := s.resources + {id})) else Err(InvalidResourceId)
  }

  function RemoveResource(s: State, id: Resource): Attempt<State> {
    Ok(s.(resources := s.resources - {id}))
  }

  function Whitelist(s: State, id: Chain): Attempt<State> {
    if id == s.home then Err(InvalidChainId)
    else if id in s.nonces then Err(ChainAlreadyWhitelisted)
    else Ok(s.(nonces := s.nonces[id := 0]))
  }

  function AddRelayer(s: State, a: Account): Attempt<State> {
    if a in s.relayers then Err(RelayerAlreadyExists)
    else if s.count + 1 > U32_MAX then Err(Overflow)
    else Ok(s.(relayers := s.relayers + {a}, count := s.count + 1))
  }

  function RemoveRelayer(s: State, a: Account): Attempt<State> {
    if a !in s.relayers then Err(RelayerInvalid)
    else if s.count == 0 then Err(Overflow)
    else Ok(s.(relayers := s.relayers - {a}, count := s.count - 1))
  }

  /** An outgoing transfer takes the next nonce of its target chain. */
  function Send(s: State, dest: Chain): Attempt<(State, nat)> {
    if dest !in s.nonces then Err(ChainNotWhitelisted)
    else Ok((s.(nonces := s.nonces[dest := s.nonces[dest] + 1]), s.nonces[dest] + 1))
  }

  // --- votes ---

  /** `try_to_complete`. */
  function Completed(b: Ballot, threshold: nat, total: nat): Attempt<Status> {
    if threshold <= |b.votesFor| then Ok(Approved)
    else if threshold > total then Ok(Initiated)
    else if |b.votesAgainst| + threshold > U32_MAX then Err(Overflow)
    else if total < |b.votesAgainst| + threshold then Ok(Rejected)
    else Ok(Initiated)
  }

  function CommitVote(s: State, who: Account, k: Key, inFavour: bool): Attempt<State> {
    if k !in s.votes && s.now + s.lifetime > U32_MAX then Err(Overflow)
    else
      var b := if k in s.votes then s.votes[k] else Ballot([], [], Initiated, s.now + s.lifetime);
      if b.status != Initiated then Err(ProposalAlreadyComplete)
      else if b.expiry <= s.now then Err(ProposalExpired)
      else if b.Voted(who) then Err(RelayerAlreadyVoted)
      else
        Ok(s.(votes := s.votes[k := if inFavour then b.(votesFor := b.votesFor + [who])
                                    else b.(votesAgainst := b.votesAgainst + [who])]))
  }

  /** `works`: the dispatched call succeeds. */
  function Resolve(s: State, k: Key, works: bool): Attempt<State> {
    if k !in s.votes then Err(ProposalDoesNotExist)
    else
      var b := s.votes[k];
      if b.status != Initiated then Err(ProposalAlreadyComplete)
      else if b.expiry <= s.now then Err(ProposalExpired)
      else
        var status :- Completed(b, s.threshold, s.count);
        var s1 := s.(votes := s.votes[k := b.(status := status)]);
        if status != Approved then Ok(s1)
        else if works then Ok(s1.(succeeded := s.succeeded + [k]))
        else Err(CallFailed)
  }

  /** `acknowledge_proposal` and `reject_proposal`. */
  function Vote(s: State, who: Account, k: Key, id: Resource, inFavour: bool, works: bool): Attempt<State> {
    if who !in s.relayers then Err(MustBeRelayer)
    else if k.src !in s.nonces then Err(ChainNotWhitelisted)
    else if id !in s.resources then Err(ResourceDoesNotExist)
    else
      var s1 :- CommitVote(s, who, k, inFavour);
      Resolve(s1, k, works)
  }

  // --- runs ---

  datatype Op =
    | Thresholding(n: nat)
    | Registering(id: Resource, known: bool)
    | Unregistering(id: Resource)
    | Whitelisting(chain: Chain)
    | Adding(a: Account)
    | Removing(a: Account)
    | Sending(dest: Chain)
    | Voting(who: Account, k: Key, id: Resource, inFavour: bool, works: bool)
    | Evaluating(k: Key, works: bool)
    | Tick

  function Call(s: State, op: Op): Attempt<State> {
    match op
    case Thresholding(n) => SetThreshold(s, n)
    case Registering(id, known) => SetResource(s, id, known)
    case Unregistering(id) => RemoveResource(s, id)
    case Whitelisting(chain) => Whitelist(s, chain)
    case Adding(a) => AddRelayer(s, a)
    case Removing(a) => RemoveRelayer(s, a)
    case Sending(dest) => var (s1, _) :- Send(s, dest); Ok(s1)
    case Voting(who, k, id, inFavour, works) => Vote(s, who, k, id, inFavour, works)
    case Evaluating(k, works) => Resolve(s, k, works)
    case Tick => Ok(s.(now := s.now + 1))
  }

  function Step(s: State, op: Op): State {
    if Call(s, op).Ok? then Call(s, op).value else s
  }

  function Run(s: State, ops: seq<Op>): State {
    if ops == [] then s else Step(Run(s, ops[..|ops| - 1]), ops[|ops| - 1])
  }

  function Genesis(home: Chain, lifetime: nat): State {
    State(home, lifetime, 0, 1, {}, 0, map[], {}, map[], [])
  }

  // --- safety ---

  predicate NoRepeats<T(==)>(xs: seq<T>) {
    forall i, j | 0 <= i < j < |xs| :: xs[i] != xs[j]
  }

  /** Nobody votes twice, on either side. */
  predicate Fair(b: Ballot) {
    NoRepeats(b.votesFor) && NoRepeats(b.votesAgainst) && forall a | a in b.votesFor :: a !in b.votesAgainst
  }

  ghost predicate Safe(s: State) {
    && s.count == |s.relayers|
    && s.threshold > 0
    && (forall k | k in s.votes :: Fair(s.votes[k]))
    && NoRepeats(s.succeeded)
    && (forall k :: k in s.succeeded <==> (k in s.votes && s.votes[k].status == Approved))
  }

  /** What resolving a proposal does to its ballot and to the rest. */
  lemma ResolveEffect(s: State, k: Key, works: bool)
    requires Resolve(s, k, works).Ok?
    ensures k in s.votes && s.votes[k].status == Initiated && s.now < s.votes[k].expiry
    ensures Completed(s.votes[k], s.threshold, s.count).Ok?
    ensures var s', st := Resolve(s, k, works).value, Completed(s.votes[k], s.threshold, s.count).value;
            && s' == s.(votes := s.votes[k := s.votes[k].(status := st)],
                        succeeded := s.succeeded + if st == Approved then [k] else [])
            && (st == Approved ==> works)
  {
  }

  lemma VoteEffect(s: State, who: Account, k: Key, id: Resource, inFavour: bool, works: bool)
    requires Vote(s, who, k, id, inFavour, works).Ok?
    ensures who in s.relayers && k.src in s.nonces && id in s.resources
    ensures CommitVote(s, who, k, inFavour).Ok?
    ensures Vote(s, who, k, id, inFavour, works) == Resolve(CommitVote(s, who, k, inFavour).value, k, works)
  {
    hide CommitVote, Resolve;
  }

  lemma CommitEffect(s: State, who: Account, k: Key, inFavour: bool)
    requires CommitVote(s, who, k, inFavour).Ok?
    ensures var s' := CommitVote(s, who, k, inFavour).value;
            var b := if k in s.votes then s.votes[k] else Ballot([], [], Initiated, s.now + s.lifetime);
            && b.status == Initiated && s.now < b.expiry && !b.Voted(who)
            && s' == s.(votes := s.votes[k := if inFavour then b.(votesFor := b.votesFor + [who])
                                              else b.(votesAgainst := b.votesAgainst + [who])])
  {
  }

  lemma CommitSafe(s: State, who: Account, k: Key, inFavour: bool)
    requires Safe(s) && CommitVote(s, who, k, inFavour).Ok?
    ensures Safe(CommitVote(s, who, k, inFavour).value)
  {
    CommitEffect(s, who, k, inFavour);
  }

  lemma ResolveSafe(s: State, k: Key, works: bool)
    requires Safe(s) && Resolve(s, k, works).Ok?
    ensures Safe(Resolve(s, k, works).value)
  {
    hide Resolve, Completed;
    ResolveEffect(s, k, works);
  }

  lemma AdminSafe(s: State, op: Op)
    requires Safe(s) && !op.Voting? && !op.Evaluating?
    ensures Safe(Step(s, op))
  {
    hide Fair, NoRepeats;
  }

  lemma StepSafe(s: State, op: Op)
    requires Safe(s)
    ensures Safe(Step(s, op))
  {
    hide CommitVote, Resolve, Vote, Safe;
    match op
    case Voting(who, k, id, inFavour, works) =>
      if Call(s, op).Ok? {
        VoteEffect(s, who, k, id, inFavour, works);
        CommitSafe(s, who, k, inFavour);
        ResolveSafe(CommitVote(s, who, k, inFavour).value, k, works);
      }
    case Evaluating(k, works) =>
      if Call(s, op).Ok? {
        ResolveSafe(s, k, works);
      }
    case _ => AdminSafe(s, op);
  }

  /** In every run: honest counters, fair ballots, and calls executed at most once, exactly those approved. */
  lemma {:induction false} RunSafe(home: Chain, lifetime: nat, ops: seq<Op>)
    ensures Safe(Run(Genesis(home, lifetime), ops))
  {
    hide Step;
    if ops == [] {
    } else {
      hide Safe;
      RunSafe(home, lifetime, ops[..|ops| - 1]);
      StepSafe(Run(Genesis(home, lifetime), ops[..|ops| - 1]), ops[|ops| - 1]);
    }
  }

  // --- what a step may do to a ballot ---

  /** The ballot of `k`, or an empty one. */
  function BallotOf(s: State, k: Key): Ballot {
    if k in s.votes then s.votes[k] else Ballot([], [], Initiated, s.now + s.lifetime)
  }

  predicate Touches(op: Op, k: Key) {
    (op.Voting? || op.Evaluating?) && op.k == k
  }

  /** A ballot changes only through a call naming it, while it is open and unexpired. */
  lemma StepBallot(s: State, op: Op, k: Key)
    ensures var s' := Step(s, op);
            && s.now <= s'.now
            && (k in s.votes ==> k in s'.votes && s'.votes[k].expiry == s.votes[k].expiry)
            && (k in s'.votes && (k !in s.votes || s'.votes[k] != s.votes[k]) ==>
                  && Touches(op, k) && Call(s, op).Ok?
                  && BallotOf(s, k).status == Initiated && s.now < BallotOf(s, k).expiry)
  {
    hide Completed;
    match op
    case Voting(who, j, id, inFavour, works) =>
      if Call(s, op).Ok? {
        VoteEffect(s, who, j, id, inFavour, works);
        hide Vote, CommitVote, Resolve;
        CommitEffect(s, who, j, inFavour);
        ResolveEffect(CommitVote(s, who, j, inFavour).value, j, works);
      }
    case Evaluating(j, works) =>
      if Call(s, op).Ok? {
        hide Resolve;
        ResolveEffect(s, j, works);
      }
    case _ =>
  }

  /** Decided and expired ballots never change again. */
  lemma {:induction false} BallotFinal(s: State, ops: seq<Op>, k: Key)
    requires k in s.votes && (s.votes[k].status != Initiated || s.votes[k].expiry <= s.now)
    ensures var s' := Run(s, ops); k in s'.votes && s'.votes[k] == s.votes[k] && s.now <= s'.now
  {
    hide Step;
    if ops == [] {
    } else {
      BallotFinal(s, ops[..|ops| - 1], k);
      StepBallot(Run(s, ops[..|ops| - 1]), ops[|ops| - 1], k);
    }
  }

  /** Who is added to a ballot was a relayer and had asked for it. */
  lemma StepVoter(s: State, op: Op, k: Key, a: Account)
    requires k in Step(s, op).votes && Step(s, op).votes[k].Voted(a)
    requires k !in s.votes || !s.votes[k].Voted(a)
    ensures op.Voting? && op.k == k && op.who == a && a in s.relayers && k.src in s.nonces
  {
    hide Completed;
    match op
    case Voting(who, j, id, inFavour, works) =>
      if Call(s, op).Ok? {
        VoteEffect(s, who, j, id, inFavour, works);
        hide Vote, CommitVote, Resolve;
        CommitEffect(s, who, j, inFavour);
        ResolveEffect(CommitVote(s, who, j, inFavour).value, j, works);
      }
    case Evaluating(j, works) =>
      if Call(s, op).Ok? {
        hide Resolve;
        ResolveEffect(s, j, works);
      }
    case _ =>
  }

  /** Every vote on record was cast by an account that was a relayer at that moment. */
  lemma {:induction false} VotersWereRelayers(home: Chain, lifetime: nat, ops: seq<Op>, k: Key, a: Account)
    requires k in Run(Genesis(home, lifetime), ops).votes && Run(Genesis(home, lifetime), ops).votes[k].Voted(a)
    ensures exists i | 0 <= i < |ops| ::
              && ops[i].Voting? && ops[i].k == k && ops[i].who == a
              && a in Run(Genesis(home, lifetime), ops[..i]).relayers
  {
    hide Step;
    if ops == [] {
    } else {
      var g, before := Genesis(home, lifetime), ops[..|ops| - 1];
      var s := Run(g, before);
      if k in s.votes && s.votes[k].Voted(a) {
        VotersWereRelayers(home, lifetime, before, k, a);
        var i :| 0 <= i < |before| && before[i].Voting? && before[i].k == k && before[i].who == a
                 && a in Run(g, before[..i]).relayers;
        assert before[..i] == ops[..i] && ops[i] == before[i];
      } else {
        StepVoter(s, ops[|ops| - 1], k, a);
      }
    }
  }

  /** A call is executed only while its ballot is unexpired and at least the threshold has voted for it. */
  lemma StepExecutes(s: State, op: Op)
    requires Step(s, op).succeeded != s.succeeded
    ensures op.Voting? || op.Evaluating?
    ensures var s' := Step(s, op);
            && s'.succeeded == s.succeeded + [op.k] && op.works
            && op.k in s'.votes && s'.votes[op.k].status == Approved
            && s'.now < s'.votes[op.k].expiry && s'.threshold <= |s'.votes[op.k].votesFor|
  {
    match op
    case Voting(who, k, id, inFavour, works) =>
      VoteEffect(s, who, k, id, inFavour, works);
      hide Vote, CommitVote, Resolve;
      CommitEffect(s, who, k, inFavour);
      ResolveEffect(CommitVote(s, who, k, inFavour).value, k, works);
    case Evaluating(k, works) =>
      hide Resolve;
      ResolveEffect(s, k, works);
    case _ =>
  }

  /** A call that fails takes back the vote that would have approved it. */
  lemma FailedCallRollsBack(s: State, who: Account, k: Key, id: Resource)
    requires Vote(s, who, k, id, true, true).Ok? && Vote(s, who, k, id, true, true).value.succeeded != s.succeeded
    ensures Step(s, Voting(who, k, id, true, false)) == s
  {
    VoteEffect(s, who, k, id, true, true);
    hide CommitVote;
    CommitEffect(s, who, k, true);
  }

  // --- decisiveness ---

  /** Calls that leave relayers and threshold alone. */
  predicate Settled(op: Op) {
    !op.Adding? && !op.Removing? && !op.Thresholding?
  }

  /** The ballot on `k`, if there is one, is decided exactly when the votes on it decide it, and its voters are
      relayers. */
  ghost predicate Decisive(s: State, k: Key) {
    && 1 <= s.threshold <= s.count == |s.relayers|
    && (k in s.votes ==>
          && Decided(s.votes[k], s.threshold, s.count) && Fair(s.votes[k])
          && forall a | s.votes[k].Voted(a) :: a in s.relayers)
  }

  predicate Decided(b: Ballot, threshold: nat, total: nat) {
    && (b.status == Approved <==> threshold <= |b.votesFor|)
    && (b.status == Rejected <==> total < |b.votesAgainst| + threshold)
  }

  ghost function Elements<T>(xs: seq<T>): set<T> {
    set x | x in xs
  }

  lemma ElementsMore<T>(before: seq<T>, x: T)
    ensures Elements(before + [x]) == Elements(before) + {x}
    ensures NoRepeats(before + [x]) ==> NoRepeats(before) && x !in Elements(before)
  {
    var xs := before + [x];
    assert forall i | 0 <= i < |before| :: xs[i] == before[i];
    assert xs[|before|] == x;
  }

  lemma {:induction false} ElementsCount<T>(xs: seq<T>)
    requires NoRepeats(xs)
    ensures |Elements(xs)| == |xs|
  {
    if xs == [] {
      assert Elements(xs) == {};
    } else {
      hide Elements, NoRepeats;
      var before, x := xs[..|xs| - 1], xs[|xs| - 1];
      assert xs == before + [x];
      ElementsMore(before, x);
      ElementsCount(before);
    }
  }

  lemma SubsetCount<T>(a: set<T>, b: set<T>)
    requires a <= b
    ensures |a| <= |b|
  {
    assert |b - a| + |a| == |b| by {
      assert b == (b - a) + a;
    }
  }

  /** Fair ballots hold at most as many votes as there are relayers; when they hold that many, everyone has voted. */
  lemma VotesBounded(b: Ballot, relayers: set<Account>)
    requires Fair(b) && forall a | b.Voted(a) :: a in relayers
    ensures |b.votesFor| + |b.votesAgainst| <= |relayers|
    ensures (forall a | a in relayers :: b.Voted(a)) ==> |b.votesFor| + |b.votesAgainst| == |relayers|
  {
    ElementsCount(b.votesFor);
    ElementsCount(b.votesAgainst);
    var f, g := Elements(b.votesFor), Elements(b.votesAgainst);
    assert f !! g;
    assert |f + g| == |f| + |g|;
    SubsetCount(f + g, relayers);
    if forall a | a in relayers :: b.Voted(a) {
      assert f + g == relayers;
    }
  }

  /** Completing an open, fair ballot decides it as its votes say. */
  lemma CompletionDecides(b: Ballot, relayers: set<Account>, threshold: nat)
    requires Fair(b) && b.status == Initiated && 1 <= threshold <= |relayers|
    requires forall a | b.Voted(a) :: a in relayers
    requires Completed(b, threshold, |relayers|).Ok?
    ensures Decided(b.(status := Completed(b, threshold, |relayers|).value), threshold, |relayers|)
  {
    VotesBounded(b, relayers);
  }

  /** A vote or evaluation that goes through leaves its ballot decided as its votes say. */
  lemma TouchDecides(s: State, op: Op)
    requires (op.Voting? || op.Evaluating?) && Call(s, op).Ok? && Decisive(s, op.k) && Safe(s)
    ensures op.k in Step(s, op).votes && Decided(Step(s, op).votes[op.k], s.threshold, s.count)
  {
    hide Vote, CommitVote, Resolve, Completed, Decided, Fair;
    var s1 := s;
    if op.Voting? {
      VoteEffect(s, op.who, op.k, op.id, op.inFavour, op.works);
      CommitEffect(s, op.who, op.k, op.inFavour);
      CommitSafe(s, op.who, op.k, op.inFavour);
      s1 := CommitVote(s, op.who, op.k, op.inFavour).value;
    }
    ResolveEffect(s1, op.k, op.works);
    CompletionDecides(s1.votes[op.k], s.relayers, s.threshold);
  }

  lemma SettledKeeps(s: State, op: Op)
    requires Settled(op)
    ensures Step(s, op).relayers == s.relayers && Step(s, op).count == s.count && Step(s, op).threshold == s.threshold
  {
    hide Completed;
  }

  lemma StepDecisive(s: State, op: Op, k: Key)
    requires Decisive(s, k) && Safe(s) && Settled(op)
    ensures Decisive(Step(s, op), k)
  {
    hide Step, Call, Decided, Fair;
    var s' := Step(s, op);
    SettledKeeps(s, op);
    StepSafe(s, op);
    if k in s'.votes {
      StepBallot(s, op, k);
      if k !in s.votes || s'.votes[k] != s.votes[k] {
        TouchDecides(s, op);
      }
      forall a | s'.votes[k].Voted(a)
        ensures a in s.relayers
      {
        if k !in s.votes || !s.votes[k].Voted(a) {
          StepVoter(s, op, k, a);
        }
      }
    }
  }

  /** With relayers and threshold fixed, a proposal is approved, rejected or open exactly as its votes say, and is
      decided once every relayer has voted. */
  lemma {:induction false} RunDecisive(s: State, ops: seq<Op>, k: Key)
    requires Decisive(s, k) && Safe(s) && forall i | 0 <= i < |ops| :: Settled(ops[i])
    ensures Decisive(Run(s, ops), k) && Safe(Run(s, ops))
  {
    hide Step, Decisive, Safe;
    if ops == [] {
    } else {
      RunDecisive(s, ops[..|ops| - 1], k);
      StepDecisive(Run(s, ops[..|ops| - 1]), ops[|ops| - 1], k);
      StepSafe(Run(s, ops[..|ops| - 1]), ops[|ops| - 1]);
    }
  }

  lemma OutcomesMeaning(s: State, k: Key)
    requires Decisive(s, k) && k in s.votes
    ensures Outcome(s, k)
  {
    VotesBounded(s.votes[k], s.relayers);
  }

  /** Open while the threshold can still be reached, rejected when it cannot, never open once all have voted. */
  ghost predicate Outcome(s: State, k: Key)
    requires k in s.votes
  {
    var b := s.votes[k];
    var silent := s.count - |b.votesFor| - |b.votesAgainst|;
    && silent >= 0
    && (b.status == Initiated <==> |b.votesFor| < s.threshold <= |b.votesFor| + silent)
    && (b.status == Rejected <==> |b.votesFor| + silent < s.threshold)
    && ((forall a | a in s.relayers :: b.Voted(a)) ==> b.status != Initiated)
  }

  /** Once relayers and threshold stay fixed, every proposal first voted on since is decided by its votes, and only by
      them, whatever ballots there were before. */
  lemma FixedRelayersDecide(s: State, ops: seq<Op>, k: Key)
    requires Safe(s) && k !in s.votes && s.threshold <= s.count
    requires forall i | 0 <= i < |ops| :: Settled(ops[i])
    requires k in Run(s, ops).votes
    ensures Outcome(Run(s, ops), k)
  {
    hide Run;
    RunDecisive(s, ops, k);
    OutcomesMeaning(Run(s, ops), k);
  }

  // --- lagging ballots ---

  /** Open and unexpired. */
  predicate IsOpen(s: State, k: Key) {
    k in s.votes && s.votes[k].status == Initiated && s.now < s.votes[k].expiry
  }

  /** Open although enough votes are in. */
  predicate Lags(s: State, k: Key) {
    IsOpen(s, k) && s.threshold <= |s.votes[k].votesFor|
  }

  predicate NoLag(s: State) {
    forall k | k in s.votes :: !Lags(s, k)
  }

  /** The call lowers the threshold to what some open ballot has already reached. */
  predicate Overtakes(s: State, op: Op) {
    op.Thresholding? && op.n > 0 && exists k | k in s.votes :: IsOpen(s, k) && op.n <= |s.votes[k].votesFor|
  }

  lemma CompletedOpen(b: Ballot, threshold: nat, total: nat)
    requires Completed(b, threshold, total) == Ok(Initiated)
    ensures |b.votesFor| < threshold
  {
  }

  /** A vote or evaluation leaves no enough-voted ballot open. */
  lemma TouchNoLag(s: State, op: Op)
    requires NoLag(s) && (op.Voting? || op.Evaluating?) && Call(s, op).Ok?
    ensures NoLag(Step(s, op))
  {
    hide Vote, CommitVote, Resolve, Completed;
    var s1 := s;
    if op.Voting? {
      VoteEffect(s, op.who, op.k, op.id, op.inFavour, op.works);
      CommitEffect(s, op.who, op.k, op.inFavour);
      s1 := CommitVote(s, op.who, op.k, op.inFavour).value;
    }
    ResolveEffect(s1, op.k, op.works);
    var s' := Step(s, op);
    forall k | k in s'.votes
      ensures !Lags(s', k)
    {
      if k == op.k {
        if s'.votes[k].status == Initiated {
          CompletedOpen(s1.votes[k], s.threshold, s.count);
        }
      } else {
        assert k in s.votes && !Lags(s, k);
      }
    }
  }

  lemma LoweredNoLag(s: State, n: nat)
    requires NoLag(s)
    ensures NoLag(Step(s, Thresholding(n))) <==> !Overtakes(s, Thresholding(n))
  {
    var s' := Step(s, Thresholding(n));
    if n > 0 {
      forall k | k in s.votes
        ensures Lags(s', k) <==> IsOpen(s, k) && n <= |s.votes[k].votesFor|
      {
        assert IsOpen(s', k) == IsOpen(s, k);
      }
    }
  }

  /** Open ballots keep lacking votes under every call but one: a threshold lowered to what one of them has reached. */
  lemma StepNoLag(s: State, op: Op)
    requires NoLag(s)
    ensures NoLag(Step(s, op)) <==> !Overtakes(s, op)
  {
    hide NoLag;
    match op
    case Voting(_, _, _, _, _) =>
      if Call(s, op).Ok? {
        TouchNoLag(s, op);
      }
    case Evaluating(_, _) =>
      if Call(s, op).Ok? {
        TouchNoLag(s, op);
      }
    case Thresholding(n) => LoweredNoLag(s, n);
    case _ => AdminNoLag(s, op);
  }

  lemma AdminNoLag(s: State, op: Op)
    requires NoLag(s) && !op.Voting? && !op.Evaluating? && !op.Thresholding?
    ensures NoLag(Step(s, op))
  {
    var s' := Step(s, op);
    forall k | k in s'.votes
      ensures !Lags(s', k)
    {
      assert !Lags(s, k);
    }
  }

  ghost predicate NeverLags(s: State, ops: seq<Op>) {
    forall i | 0 <= i <= |ops| :: NoLag(Run(s, ops[..i]))
  }

  ghost predicate NeverOvertaken(s: State, ops: seq<Op>) {
    forall i | 0 <= i < |ops| :: !Overtakes(Run(s, ops[..i]), ops[i])
  }

  lemma SplitLast(s: State, ops: seq<Op>)
    requires ops != []
    ensures var before := ops[..|ops| - 1];
            && (NeverLags(s, ops) <==> NeverLags(s, before) && NoLag(Run(s, ops)))
            && (NeverOvertaken(s, ops) <==> NeverOvertaken(s, before) && !Overtakes(Run(s, before), ops[|ops| - 1]))
            && (NeverLags(s, before) ==> NoLag(Run(s, before)))
  {
    hide Run, NoLag, Overtakes;
    var n := |ops| - 1;
    var before := ops[..n];
    assert forall i | 0 <= i <= n :: before[..i] == ops[..i];
    assert ops[..|ops|] == ops && before[..n] == before;
  }

  /** Along a run from genesis no ballot ever lags if and only if no call overtakes one. */
  lemma {:induction false} RunNoLag(home: Chain, lifetime: nat, ops: seq<Op>)
    ensures NeverLags(Genesis(home, lifetime), ops) <==> NeverOvertaken(Genesis(home, lifetime), ops)
  {
    hide Step, Overtakes, NoLag, NeverLags, NeverOvertaken;
    var g := Genesis(home, lifetime);
    if ops == [] {
      NothingLags(home, lifetime);
    } else {
      var before := ops[..|ops| - 1];
      RunNoLag(home, lifetime, before);
      SplitLast(g, ops);
      if NoLag(Run(g, before)) {
        StepNoLag(Run(g, before), ops[|ops| - 1]);
      }
    }
  }

  lemma NothingLags(home: Chain, lifetime: nat)
    ensures NeverLags(Genesis(home, lifetime), []) && NeverOvertaken(Genesis(home, lifetime), [])
  {
  }

  /** A lagging ballot is approved as soon as it is evaluated. */
  lemma LagEvaluated(s: State, k: Key)
    requires Lags(s, k)
    ensures k in Step(s, Evaluating(k, true)).votes && Step(s, Evaluating(k, true)).votes[k].status == Approved
  {
  }

  /** Three relayers, a threshold of three, two votes in favour, and then a threshold of one. */
  function LaggingRun(): seq<Op> {
    [Adding(1), Adding(2), Adding(3), Thresholding(3), Whitelisting(5), Registering(9, true),
     Voting(1, Key(5, 1, 7), 9, true, true), Voting(2, Key(5, 1, 7), 9, true, true), Thresholding(1)]
  }

  lemma RunStep(s: State, ops: seq<Op>, i: nat)
    requires i < |ops|
    ensures Run(s, ops[..i + 1]) == Step(Run(s, ops[..i]), ops[i])
  {
    assert ops[..i + 1][..i] == ops[..i];
  }

  /** The first half of that run: relayers, threshold, chain and resource are in place. */
  lemma LaggingSetup()
    ensures var g := Genesis(0, 10);
            Run(g, LaggingRun()[..6])
            == g.(threshold := 3, relayers := {1, 2, 3}, count := 3, nonces := map[5 := 0], resources := {9})
  {
    var g, ops := Genesis(0, 10), LaggingRun();
    assert ops[..0] == [];
    RunStep(g, ops, 0);
    RunStep(g, ops, 1);
    RunStep(g, ops, 2);
    RunStep(g, ops, 3);
    RunStep(g, ops, 4);
    RunStep(g, ops, 5);
    assert {1} + {2} + {3} == {1, 2, 3};
  }

  lemma LaggingVotes(s: State)
    requires s == Genesis(0, 10).(threshold := 3, relayers := {1, 2, 3}, count := 3, nonces := map[5 := 0],
                                  resources := {9})
    ensures var k := Key(5, 1, 7);
            var s1 := Step(s, Voting(1, k, 9, true, true));
            Step(s1, Voting(2, k, 9, true, true)) == s.(votes := map[k := Ballot([1, 2], [], Initiated, 10)])
  {
    var k := Key(5, 1, 7);
    var first, second := Ballot([1], [], Initiated, 10), Ballot([1, 2], [], Initiated, 10);
    assert [] + [1] == [1] && [1] + [2] == [1, 2];
    assert CommitVote(s, 1, k, true) == Ok(s.(votes := s.votes[k := first]));
    var s1 := s.(votes := s.votes[k := first]);
    assert Resolve(s1, k, true) == Ok(s1) by {
      assert s1.votes[k := first] == s1.votes;
    }
    assert CommitVote(s1, 2, k, true) == Ok(s1.(votes := s1.votes[k := second]));
    var s2 := s1.(votes := s1.votes[k := second]);
    assert Resolve(s2, k, true) == Ok(s2) by {
      assert s2.votes[k := second] == s2.votes;
    }
    assert s2.votes == map[k := second];
  }

  /** A run in which a ballot lags: the threshold falls to one while two votes are in. */
  lemma LagReached()
    ensures Lags(Run(Genesis(0, 10), LaggingRun()), Key(5, 1, 7))
  {
    hide Step;
    var g, ops := Genesis(0, 10), LaggingRun();
    LaggingSetup();
    RunStep(g, ops, 6);
    RunStep(g, ops, 7);
    RunStep(g, ops, 8);
    LaggingVotes(Run(g, ops[..6]));
    assert ops[..9] == ops;
    Lowering(Run(g, ops[..8]), Key(5, 1, 7));
  }

  lemma Lowering(s: State, k: Key)
    requires IsOpen(s, k) && |s.votes[k].votesFor| >= 1
    ensures Lags(Step(s, Thresholding(1)), k)
  {
  }

  // --- nonces ---

  /** The number of accepted transfers to `dest` along a run. */
  ghost function Sent(s: State, ops: seq<Op>, dest: Chain): nat {
    if ops == [] then 0
    else
      var before, op := ops[..|ops| - 1], ops[|ops| - 1];
      Sent(s, before, dest) + if op == Sending(dest) && Call(Run(s, before), op).Ok? then 1 else 0
  }

  lemma StepNonce(s: State, op: Op, dest: Chain)
    requires dest in s.nonces
    ensures dest in Step(s, op).nonces
    ensures Step(s, op).nonces[dest] == s.nonces[dest] + if op == Sending(dest) && Call(s, op).Ok? then 1 else 0
  {
    match op
    case Voting(who, k, id, inFavour, works) =>
      if Call(s, op).Ok? {
        VoteEffect(s, who, k, id, inFavour, works);
        hide Vote, Resolve;
        ResolveEffect(CommitVote(s, who, k, inFavour).value, k, works);
      }
    case Evaluating(k, works) =>
      if Call(s, op).Ok? {
        hide Resolve;
        ResolveEffect(s, k, works);
      }
    case _ =>
  }

  /** Outgoing transfers of a chain are numbered one after the other, without gaps or repeats. */
  lemma {:induction false} NoncesConsecutive(s: State, ops: seq<Op>, dest: Chain)
    requires dest in s.nonces
    ensures dest in Run(s, ops).nonces && Run(s, ops).nonces[dest] == s.nonces[dest] + Sent(s, ops, dest)
    ensures Send(Run(s, ops), dest).Ok? && Send(Run(s, ops), dest).value.1 == s.nonces[dest] + Sent(s, ops, dest) + 1
  {
    hide Step, Call;
    if ops == [] {
    } else {
      NoncesConsecutive(s, ops[..|ops| - 1], dest);
      StepNonce(Run(s, ops[..|ops| - 1]), ops[|ops| - 1], dest);
    }
  }
}
