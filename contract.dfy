/** The contract as one object: its tables are fields, and each action is a
    method that checks its inputs in the contract's order and then writes the
    tables in place. When a check after a write fails, the transaction aborts
    and the host undoes the write; the methods restore the fields they wrote. */
module Contract {
  import opened Base
  import opened Token
  import Rounds
  import Distribution

  /** The ledger after an action: its new state, or the old one when it aborted. */
  function Committed(r: Result<Ledger>, before: Ledger): (l: Ledger)
    ensures r.Failure? ==> l == before
    ensures r.Success? ==> l == r.value
  {
    if r.Success? then r.value else before
  }

  class EdenCreator {
    /** The account the contract is deployed to (get_self). */
    const self: Name
    /** The stats tables, one row per symbol code. */
    var stats: map<Code, CurrencyStats>
    /** The accounts tables, one row per (owner, symbol code). */
    var balances: Balances
    /** The election singleton, absent until the first startelect. */
    var election: Option<Rounds.ElectionInfo>
    /** The reward configuration singleton, absent until the first rewardamt. */
    var rewardConfig: Option<Rounds.RewardConfig>
    /** The consensus tables of all rounds. */
    var consensus: Rounds.ConsensusTable

    function LedgerState(): Ledger
      reads this
    {
      Ledger(stats, balances)
    }

    function RoundState(): (Option<Rounds.ElectionInfo>, Option<Rounds.RewardConfig>, Rounds.ConsensusTable)
      reads this
    {
      (election, rewardConfig, consensus)
    }

    /** Supply within its ceiling, balances non-negative and adding up to the
        supply, and a consensus table that only holds rows of started rounds. */
    ghost predicate Valid()
      reads this
    {
      Token.Valid(LedgerState()) && Rounds.TallyValid(election, consensus)
    }

    constructor(self: Name)
      ensures this.self == self
      ensures LedgerState() == EmptyLedger
      ensures election == None && rewardConfig == None && consensus == map[]
      ensures Valid()
    {
      this.self := self;
      stats := map[];
      balances := map[];
      election := None;
      rewardConfig := None;
      consensus := map[];
      new;
      EmptyLedgerValid();
    }

    /** sub_balance: debit value from owner's row. */
    method SubBalance(owner: Name, value: Asset) returns (o: Outcome)
      modifies this
      ensures var r := Token.SubBalance(old(balances), owner, value);
        o == OutcomeOf(r) && balances == (if r.Success? then r.value else old(balances))
      ensures stats == old(stats) && RoundState() == old(RoundState())
    {
      var key := (owner, value.symbol.code);
      if key !in balances {
        return Fail(NoBalanceRow);
      }
      if balances[key] < value.amount {
        return Fail(Overdrawn);
      }
      var after := balances[key] - value.amount;
      if !InRange(after) {
        return Fail(AssetOverflow);
      }
      balances := balances[key := after];
      return Pass;
    }

    /** add_balance: credit value to owner, creating the row when it is absent. */
    method AddBalance(owner: Name, value: Asset) returns (o: Outcome)
      modifies this
      ensures var r := Token.AddBalance(old(balances), owner, value);
        o == OutcomeOf(r) && balances == (if r.Success? then r.value else old(balances))
      ensures stats == old(stats) && RoundState() == old(RoundState())
    {
      var key := (owner, value.symbol.code);
      if key !in balances {
        balances := balances[key := value.amount];
        return Pass;
      }
      var after := balances[key] + value.amount;
      if !InRange(after) {
        return Fail(AssetOverflow);
      }
      balances := balances[key := after];
      return Pass;
    }

    method Create(host: Host, issuer: Name, maxSupply: Asset) returns (o: Outcome)
      requires Valid()
      modifies this
      ensures var r := Token.Create(old(LedgerState()), self, host, issuer, maxSupply);
        o == OutcomeOf(r) && LedgerState() == Committed(r, old(LedgerState()))
      ensures RoundState() == old(RoundState())
      ensures Valid()
    {
      ghost var before := LedgerState();
      var sym := maxSupply.symbol;
      if self !in host.auths {
        return Fail(MissingAuthority);
      }
      if !SymbolValid(sym) {
        return Fail(InvalidSymbolName);
      }
      if !AssetValid(maxSupply) {
        return Fail(InvalidSupply);
      }
      if maxSupply.amount <= 0 {
        return Fail(NonPositiveMaxSupply);
      }
      if sym.code in stats {
        return Fail(SymbolExists);
      }
      stats := stats[sym.code := CurrencyStats(Asset(0, sym), maxSupply, issuer)];
      CreatePreservesValid(before, self, host, issuer, maxSupply);
      return Pass;
    }

    method Issue(host: Host, to: Name, quantity: Asset, memo: Memo) returns (o: Outcome)
      requires Valid()
      modifies this
      ensures var r := Token.Issue(old(LedgerState()), self, host, to, quantity, memo);
        o == OutcomeOf(r) && LedgerState() == Committed(r, old(LedgerState()))
      ensures RoundState() == old(RoundState())
      ensures Valid()
    {
      ghost var before := LedgerState();
      if to != self {
        return Fail(NotToSelf);
      }
      if self !in host.auths {
        return Fail(MissingAuthority);
      }
      o := CheckInputs(quantity, memo);
      if o.Fail? {
        return;
      }
      var c := quantity.symbol.code;
      if c !in stats {
        return Fail(UnknownSymbol);
      }
      var st := stats[c];
      if quantity.amount > st.maxSupply.amount - st.supply.amount {
        return Fail(ExceedsSupply);
      }
      var supply := AddAsset(st.supply, quantity);
      if supply.Failure? {
        return Fail(supply.error);
      }
      var saved := stats;
      stats := stats[c := st.(supply := supply.value)];
      o := AddBalance(st.issuer, quantity);
      if o.Fail? {
        stats := saved;
        return;
      }
      IssuePreservesValid(before, self, host, to, quantity, memo);
    }

    method Retire(host: Host, quantity: Asset, memo: Memo) returns (o: Outcome)
      requires Valid()
      modifies this
      ensures var r := Token.Retire(old(LedgerState()), self, host, quantity, memo);
        o == OutcomeOf(r) && LedgerState() == Committed(r, old(LedgerState()))
      ensures RoundState() == old(RoundState())
      ensures Valid()
    {
      ghost var before := LedgerState();
      if self !in host.auths {
        return Fail(MissingAuthority);
      }
      o := CheckInputs(quantity, memo);
      if o.Fail? {
        return;
      }
      var c := quantity.symbol.code;
      if c !in stats {
        return Fail(UnknownSymbol);
      }
      var st := stats[c];
      var supply := SubAsset(st.supply, quantity);
      if supply.Failure? {
        return Fail(supply.error);
      }
      var saved := stats;
      stats := stats[c := st.(supply := supply.value)];
      o := SubBalance(st.issuer, quantity);
      if o.Fail? {
        stats := saved;
        return;
      }
      RetirePreservesValid(before, self, host, quantity, memo);
    }

    method Transfer(host: Host, from: Name, to: Name, quantity: Asset, memo: Memo) returns (o: Outcome)
      requires Valid()
      modifies this
      ensures var r := Token.Transfer(old(LedgerState()), self, host, from, to, quantity, memo);
        o == OutcomeOf(r) && LedgerState() == Committed(r, old(LedgerState()))
      ensures RoundState() == old(RoundState())
      ensures Valid()
    {
      ghost var before := LedgerState();
      o := TransferChecks(self, host, from, to, quantity, memo);
      if o.Fail? {
        return;
      }
      var saved := balances;
      o := SubBalance(from, quantity);
      if o.Fail? {
        return;
      }
      o := AddBalance(to, quantity);
      if o.Fail? {
        balances := saved;
        return;
      }
      TransferPreservesValid(before, self, host, from, to, quantity, memo);
    }

    method Open(host: Host, owner: Name, sym: Symbol, ramPayer: Name) returns (o: Outcome)
      requires Valid()
      modifies this
      ensures var r := Token.Open(old(LedgerState()), host, owner, sym, ramPayer);
        o == OutcomeOf(r) && LedgerState() == Committed(r, old(LedgerState()))
      ensures RoundState() == old(RoundState())
      ensures Valid()
    {
      ghost var before := LedgerState();
      if ramPayer !in host.auths {
        return Fail(MissingAuthority);
      }
      if !Accepted(sym) {
        return Fail(SymbolMismatch);
      }
      if owner !in host.accounts {
        return Fail(UnknownAccount);
      }
      if (owner, sym.code) in balances {
        return Fail(BalanceExists);
      }
      balances := balances[(owner, sym.code) := 0];
      OpenPreservesValid(before, host, owner, sym, ramPayer);
      return Pass;
    }

    method Close(host: Host, owner: Name, sym: Symbol) returns (o: Outcome)
      requires Valid()
      modifies this
      ensures var r := Token.Close(old(LedgerState()), host, owner, sym);
        o == OutcomeOf(r) && LedgerState() == Committed(r, old(LedgerState()))
      ensures RoundState() == old(RoundState())
      ensures Valid()
    {
      ghost var before := LedgerState();
      var key := (owner, sym.code);
      if owner !in host.auths {
        return Fail(MissingAuthority);
      }
      if key !in balances {
        return Fail(NoBalanceRow);
      }
      if balances[key] != 0 {
        return Fail(NonZeroBalance);
      }
      balances := balances - {key};
      ClosePreservesValid(before, host, owner, sym);
      return Pass;
    }

    /** Run one ledger action; the inline actions submitranks queues go through here. */
    method Dispatch(host: Host, a: Action) returns (o: Outcome)
      requires Valid()
      modifies this
      ensures var r := Token.Apply(old(LedgerState()), self, host, a);
        o == OutcomeOf(r) && LedgerState() == Committed(r, old(LedgerState()))
      ensures RoundState() == old(RoundState())
      ensures Valid()
    {
      match a
      case CreateAct(issuer, maxSupply) => o := Create(host, issuer, maxSupply);
      case IssueAct(to, q, memo) => o := Issue(host, to, q, memo);
      case RetireAct(q, memo) => o := Retire(host, q, memo);
      case TransferAct(from, to, q, memo) => o := Transfer(host, from, to, q, memo);
      case OpenAct(owner, sym, payer) => o := Open(host, owner, sym, payer);
      case CloseAct(owner, sym) => o := Close(host, owner, sym);
    }

    method RewardAmt(host: Host, quantity: Asset, offset: Uint8) returns (o: Outcome)
      requires Valid()
      modifies this
      ensures var r := Rounds.RewardAmt(old(rewardConfig), self, host, quantity, offset);
        o == OutcomeOf(r) && rewardConfig == (if r.Success? then Some(r.value) else old(rewardConfig))
      ensures LedgerState() == old(LedgerState()) && election == old(election) && consensus == old(consensus)
      ensures Valid()
    {
      if self !in host.auths {
        return Fail(MissingAuthority);
      }
      var newrew := Rounds.DefaultRewardConfig;
      if rewardConfig.None? {
        rewardConfig := Some(newrew);
      } else {
        newrew := rewardConfig.value;
      }
      newrew := newrew.(eosRewardAmt := quantity.amount, fibOffset := offset);
      rewardConfig := Some(newrew);
      return Pass;
    }

    method StartElect(host: Host) returns (o: Outcome)
      requires Valid()
      modifies this
      ensures var r := Rounds.StartElect(old(election), host);
        o == OutcomeOf(r) && election == (if r.Success? then Some(r.value) else old(election))
      ensures LedgerState() == old(LedgerState()) && rewardConfig == old(rewardConfig) && consensus == old(consensus)
      ensures Valid()
    {
      if !Rounds.AdminAuthorized(host.auths) {
        return Fail(MissingAuthority);
      }
      var saved := election;
      var pede := Rounds.DefaultElection;
      if election.None? {
        election := Some(pede);
      } else {
        pede := election.value;
      }
      if pede.electionnr == MaxUint64 {
        election := saved;
        return Fail(ElectionOverflow);
      }
      pede := pede.(starttime := host.now, electionnr := pede.electionnr + 1);
      election := Some(pede);
      Rounds.StartElectOpensFreshRound(saved, consensus, host, self);
      return Pass;
    }

    method SubmitCons(host: Host, groupnr: Uint64, rankings: seq<Name>, submitter: Name) returns (o: Outcome)
      requires Valid()
      modifies this
      ensures var r := Rounds.SubmitCons(old(election), old(consensus), host, groupnr, rankings, submitter);
        o == OutcomeOf(r) && consensus == (if r.Success? then r.value else old(consensus))
      ensures LedgerState() == old(LedgerState()) && election == old(election) && rewardConfig == old(rewardConfig)
      ensures Valid()
    {
      if submitter !in host.auths {
        return Fail(MissingAuthority);
      }
      if |rankings| < MinGroupSize {
        return Fail(GroupTooSmall);
      }
      if |rankings| > MaxGroupSize {
        return Fail(GroupTooBig);
      }
      for i := 0 to |rankings|
        invariant forall j | 0 <= j < i :: rankings[j] in host.accounts
      {
        if rankings[i] !in host.accounts {
          return Fail(UnknownAccount);
        }
      }
      if election.None? {
        return Fail(NoElection);
      }
      var key := (election.value.electionnr, submitter);
      if key in consensus {
        return Fail(AlreadyVoted);
      }
      Rounds.SubmitConsPreservesTally(election, consensus, host, groupnr, rankings, submitter);
      consensus := consensus[key := Rounds.Consensus(rankings, groupnr, submitter)];
      return Pass;
    }

    /** submitranks: check the batch and queue the inline actions, then run
        them in order; the first one that fails aborts the whole call. */
    method SubmitRanks(host: Host, tiers: Distribution.TierAmounts, ranks: Distribution.AllRankings) returns (o: Outcome)
      requires Valid()
      modifies this
      ensures var r := Distribution.SubmitRanks(old(LedgerState()), self, host, old(rewardConfig), tiers, ranks);
        o == OutcomeOf(r) && LedgerState() == Committed(r, old(LedgerState()))
      ensures RoundState() == old(RoundState())
      ensures Valid()
    {
      ghost var before := LedgerState();
      var plan := Distribution.PlanRewards(self, host, rewardConfig, tiers, ranks);
      if plan.Failure? {
        return Fail(plan.error);
      }
      var queue := plan.value;
      var savedStats, savedBalances := stats, balances;
      var inline := Distribution.InlineHost(self, host);
      for j := 0 to |queue|
        invariant Distribution.ApplyAll(before, self, inline, queue)
               == Distribution.ApplyAll(LedgerState(), self, inline, queue[j..])
        invariant RoundState() == old(RoundState())
        invariant Valid()
      {
        assert queue[j..][0] == queue[j] && queue[j..][1..] == queue[j + 1..];
        o := Dispatch(inline, queue[j]);
        if o.Fail? {
          stats, balances := savedStats, savedBalances;
          return;
        }
      }
      assert queue[|queue|..] == [];
      return Pass;
    }
  }
}
