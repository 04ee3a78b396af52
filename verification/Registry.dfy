/** The register of dominators: names and accounts in every run. */
module Registry {
  import opened Ledgers
  import opened Wrappers
  import opened VerifierTypes
  import opened ProofChecks
  import opened VerifierState
  import opened VerifierRuns

  /** Valid names, no two dominators with the same one. */
  ghost predicate NamesFit(doms: map<Account, Dominator>) {
    && (forall d | d in doms :: ValidName(doms[d].name))
    && (forall d, e | d in doms && e in doms && doms[d].name == doms[e].name :: d == e)
  }

  /** The same dominators under the same names. */
  ghost predicate SameNames(doms: map<Account, Dominator>, doms': map<Account, Dominator>) {
    doms'.Keys == doms.Keys && forall d | d in doms :: doms'[d].name == doms[d].name
  }

  lemma RegisterNames(s: State, d: Account, name: Name)
    requires Register(s, d, name).Ok? && NamesFit(s.dominators)
    ensures NamesFit(Register(s, d, name).value.dominators)
  {
    hide ValidName;
  }

  lemma StatusNames(s: State, op: Op)
    requires s.cfg.grace > 0 && (op.Evicting? || op.Launching?)
    ensures SameNames(s.dominators, Step(s, op).dominators)
  {
    hide VerifyBatch, StakeOn, UnstakeFrom, ClaimShares, AuthorizeTo, RevokeFrom, NextBlock, Register;
  }

  /** Only registering touches names. */
  lemma StepNames(s: State, op: Op)
    requires s.cfg.grace > 0 && !op.Registering?
    ensures SameNames(s.dominators, Step(s, op).dominators)
  {
    hide VerifyBatch, StakeOn, UnstakeFrom, ClaimShares, AuthorizeTo, RevokeFrom, NextBlock, Register, Evict, Launch;
    match op
    case Verifying(e, ps) => if Call(s, op).Ok? { BatchFrame(s, e, ps); }
    case Staking(x, e, v) => if Call(s, op).Ok? { StakeEffect(s, x, e, v); }
    case Unstaking(x, e, v) => if Call(s, op).Ok? { UnstakeEffect(s, x, e, v); }
    case Claiming(x, e) => if Call(s, op).Ok? { ClaimEffect(s, x, e); }
    case Authorizing(u, e, t, v) => if Call(s, op).Ok? { AuthorizeEffect(s, u, e, t, v); }
    case Revoking(u, e, t, w, c) => if Call(s, op).Ok? { RevokeEffect(s, u, e, t, w, c); }
    case Block(order) => BlockEffect(s, order);
    case Elsewhere(l) =>
    case _ => StatusNames(s, op);
  }

  /** In every run names are valid, and a name belongs to one dominator. */
  lemma {:induction false} RunNames(cfg: Config, l: Ledger, ops: seq<Op>)
    requires cfg.grace > 0
    ensures NamesFit(Run(Genesis(cfg, l), ops).dominators)
  {
    hide Register, ValidName;
    if ops == [] {
    } else {
      var s1, op := Run(Genesis(cfg, l), ops[..|ops| - 1]), ops[|ops| - 1];
      RunNames(cfg, l, ops[..|ops| - 1]);
      if op.Registering? {
        if Register(s1, op.d, op.name).Ok? {
          RegisterNames(s1, op.d, op.name);
        }
      } else {
        hide Step;
        StepNames(s1, op);
      }
    }
  }

  /** Once registered a dominator stays, under the name it has given. */
  lemma {:induction false} NamedForever(s: State, ops: seq<Op>, d: Account)
    requires s.cfg.grace > 0 && d in s.dominators
    ensures d in Run(s, ops).dominators && Run(s, ops).dominators[d].name == s.dominators[d].name
  {
    hide Register;
    if ops == [] {
    } else {
      var s1, op := Run(s, ops[..|ops| - 1]), ops[|ops| - 1];
      NamedForever(s, ops[..|ops| - 1], d);
      if op.Registering? {
        RegisterAdds(s1, op.d, op.name, d);
      } else {
        hide Step;
        StepNames(s1, op);
      }
    }
  }

  lemma RegisterAdds(s: State, e: Account, name: Name, d: Account)
    requires d in s.dominators
    ensures var r := Register(s, e, name);
            r.Ok? ==> d in r.value.dominators && r.value.dominators[d] == s.dominators[d]
  {
  }
}
