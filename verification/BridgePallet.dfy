/** The chainbridge pallet as an object: storage in fields, votes recorded in place. */
module BridgePallet {
  import opened Arith
  import opened Ledgers
  import opened Wrappers
  import B = BridgeVoting

  type Outcome = Result<Done, B.Error>

  class Pallet {
    const home: B.Chain
    const lifetime: nat
    var now: nat
    var threshold: nat
    var relayers: set<Account>
    var count: nat
    var nonces: map<B.Chain, nat>
    var resources: set<B.Resource>
    var votes: map<B.Key, B.Ballot>
    var succeeded: seq<B.Key>

    function Abs(): B.State
      reads this
    {
      B.State(home, lifetime, now, threshold, relayers, count, nonces, resources, votes, succeeded)
    }

    constructor (h: B.Chain, l: nat)
      ensures Abs() == B.Genesis(h, l)
    {
      home, lifetime, now, threshold, relayers, count := h, l, 0, 1, {}, 0;
      nonces, resources, votes, succeeded := map[], {}, map[], [];
    }

    method SetThreshold(n: nat) returns (r: Outcome)
      modifies this`threshold
      ensures Did(old(Abs()), B.SetThreshold(old(Abs()), n), Abs(), r)
    {
      if n == 0 {
        return Err(B.InvalidThreshold);
      }
      threshold := n;
      r := Ok(Done);
    }

    method Whitelist(id: B.Chain) returns (r: Outcome)
      modifies this`nonces
      ensures Did(old(Abs()), B.Whitelist(old(Abs()), id), Abs(), r)
    {
      if id == home {
        return Err(B.InvalidChainId);
      }
      if id in nonces {
        return Err(B.ChainAlreadyWhitelisted);
      }
      nonces := nonces[id := 0];
      r := Ok(Done);
    }

    method AddRelayer(a: Account) returns (r: Outcome)
      modifies this`relayers, this`count
      ensures Did(old(Abs()), B.AddRelayer(old(Abs()), a), Abs(), r)
    {
      if a in relayers {
        return Err(B.RelayerAlreadyExists);
      }
      if count + 1 > U32_MAX {
        return Err(B.Overflow);
      }
      relayers := relayers + {a};
      count := count + 1;
      r := Ok(Done);
    }

    method RemoveRelayer(a: Account) returns (r: Outcome)
      modifies this`relayers, this`count
      ensures Did(old(Abs()), B.RemoveRelayer(old(Abs()), a), Abs(), r)
    {
      if a !in relayers {
        return Err(B.RelayerInvalid);
      }
      if count == 0 {
        return Err(B.Overflow);
      }
      relayers := relayers - {a};
      count := count - 1;
      r := Ok(Done);
    }

    method Send(dest: B.Chain) returns (r: Result<nat, B.Error>)
      modifies this`nonces
      ensures var spec := B.Send(old(Abs()), dest);
              if spec.Ok? then spec.value.0 == Abs() && r == Ok(spec.value.1)
              else r == Err(spec.error) && Abs() == old(Abs())
    {
      if dest !in nonces {
        return Err(B.ChainNotWhitelisted);
      }
      var nonce := nonces[dest] + 1;
      nonces := nonces[dest := nonce];
      r := Ok(nonce);
    }

    method CommitVote(who: Account, k: B.Key, inFavour: bool) returns (r: Outcome)
      modifies this`votes
      ensures Did(old(Abs()), B.CommitVote(old(Abs()), who, k, inFavour), Abs(), r)
    {
      var b: B.Ballot;
      if k in votes {
        b := votes[k];
      } else {
        if now + lifetime > U32_MAX {
          return Err(B.Overflow);
        }
        b := B.Ballot([], [], B.Initiated, now + lifetime);
      }
      if b.status != B.Initiated {
        return Err(B.ProposalAlreadyComplete);
      }
      if b.expiry <= now {
        return Err(B.ProposalExpired);
      }
      if b.Voted(who) {
        return Err(B.RelayerAlreadyVoted);
      }
      if inFavour {
        b := b.(votesFor := b.votesFor + [who]);
      } else {
        b := b.(votesAgainst := b.votesAgainst + [who]);
      }
      votes := votes[k := b];
      r := Ok(Done);
    }

    /** Resolves a proposal; a call that fails takes the whole resolution back. */
    method Resolve(k: B.Key, works: bool) returns (r: Outcome)
      modifies this`votes, this`succeeded
      ensures Did(old(Abs()), B.Resolve(old(Abs()), k, works), Abs(), r)
    {
      if k !in votes {
        return Err(B.ProposalDoesNotExist);
      }
      var before := votes;
      var b := votes[k];
      if b.status != B.Initiated {
        return Err(B.ProposalAlreadyComplete);
      }
      if b.expiry <= now {
        return Err(B.ProposalExpired);
      }
      if threshold <= |b.votesFor| {
        votes := votes[k := b.(status := B.Approved)];
        if !works {
          votes := before;
          return Err(B.CallFailed);
        }
        succeeded := succeeded + [k];
        return Ok(Done);
      }
      if threshold <= count && |b.votesAgainst| + threshold > U32_MAX {
        return Err(B.Overflow);
      }
      if threshold <= count < |b.votesAgainst| + threshold {
        votes := votes[k := b.(status := B.Rejected)];
      } else {
        votes := votes[k := b];
      }
      r := Ok(Done);
    }

    /** A relayer's vote for or against a proposal, with the resolution it may bring about. */
    method Vote(who: Account, k: B.Key, id: B.Resource, inFavour: bool, works: bool) returns (r: Outcome)
      modifies this`votes, this`succeeded
      ensures Did(old(Abs()), B.Vote(old(Abs()), who, k, id, inFavour, works), Abs(), r)
    {
      hide B.CommitVote, B.Resolve;
      if who !in relayers {
        return Err(B.MustBeRelayer);
      }
      if k.src !in nonces {
        return Err(B.ChainNotWhitelisted);
      }
      if id !in resources {
        return Err(B.ResourceDoesNotExist);
      }
      var before := votes;
      r := CommitVote(who, k, inFavour);
      if r.Err? {
        return;
      }
      r := Resolve(k, works);
      if r.Err? {
        votes := before;
      }
    }
  }
}
