/** Round and vote bookkeeping: the election singleton (round number and start
    time), the reward configuration singleton, and the consensus table that
    holds one submitted ranking per submitter per round. */
module Rounds {
  import opened Base
  import Token

  /** The fixed administrator set that require_admin_auth accepts. */
  const Admins: set<Name> := {"dan"}

  /** require_admin_auth: some administrator authorized the transaction. */
  predicate AdminAuthorized(auths: set<Name>)
  {
    Admins * auths != {}
  }

  /** The election singleton; electionnr defaults to 0. */
  datatype ElectionInfo = ElectionInfo(electionnr: Uint64, starttime: Uint32)

  const DefaultElection: ElectionInfo := ElectionInfo(0, 0)

  /** The reward configuration singleton. */
  datatype RewardConfig = RewardConfig(eosRewardAmt: Int64, fibOffset: Uint8)

  /** The row rewardamt starts from when no configuration exists; both fields are overwritten. */
  const DefaultRewardConfig: RewardConfig := RewardConfig(0, 0)

  /** One submitted ranking. */
  datatype Consensus = Consensus(rankings: seq<Name>, groupnr: Uint64, submitter: Name)

  /** Consensus rows keyed by (round number the table is scoped by, submitter). */
  type ConsensusTable = map<(Uint64, Name), Consensus>

  function CurrentElection(e: Option<ElectionInfo>): ElectionInfo
  {
    if e.Some? then e.value else DefaultElection
  }

  /** startelect: advance the round number by one and stamp the start time. */
  function StartElect(e: Option<ElectionInfo>, host: Host): (r: Result<ElectionInfo>)
    ensures r.Success? <==> AdminAuthorized(host.auths) && CurrentElection(e).electionnr != MaxUint64
    ensures r.Success? ==>
      && r.value.electionnr == CurrentElection(e).electionnr + 1
      && r.value.electionnr > CurrentElection(e).electionnr
      && r.value.starttime == host.now
  {
    var pede := CurrentElection(e);
    if !AdminAuthorized(host.auths) then Failure(MissingAuthority)
    else if pede.electionnr == MaxUint64 then Failure(ElectionOverflow)
    else Success(pede.(starttime := host.now, electionnr := pede.electionnr + 1))
  }

  /** rewardamt: set both configuration fields, creating the row if it is absent. */
  function RewardAmt(cfg: Option<RewardConfig>, self: Name, host: Host, quantity: Token.Asset, offset: Uint8): (r: Result<RewardConfig>)
    ensures r.Success? <==> self in host.auths
  {
    var newrew := if cfg.Some? then cfg.value else DefaultRewardConfig;
    if self !in host.auths then Failure(MissingAuthority)
    else Success(newrew.(eosRewardAmt := quantity.amount, fibOffset := offset))
  }

  /** rewardamt is an upsert: the result does not depend on what was configured before. */
  lemma RewardAmtIsUpsert(cfg: Option<RewardConfig>, self: Name, host: Host, quantity: Token.Asset, offset: Uint8)
    requires self in host.auths
    ensures RewardAmt(cfg, self, host, quantity, offset) == Success(RewardConfig(quantity.amount, offset))
    ensures RewardAmt(cfg, self, host, quantity, offset) == RewardAmt(None, self, host, quantity, offset)
  {
  }

  /** submitcons: store one ranking for the submitter under the current round. */
  function SubmitCons(e: Option<ElectionInfo>, t: ConsensusTable, host: Host, groupnr: Uint64, rankings: seq<Name>, submitter: Name)
    : (r: Result<ConsensusTable>)
    ensures r.Success? <==>
      && submitter in host.auths
      && MinGroupSize <= |rankings| <= MaxGroupSize
      && (forall i | 0 <= i < |rankings| :: rankings[i] in host.accounts)
      && e.Some? && (e.value.electionnr, submitter) !in t
    ensures r.Success? ==>
      var key := (e.value.electionnr, submitter);
      && r.value.Keys == t.Keys + {key}
      && r.value - {key} == t - {key}
      && r.value[key] == Consensus(rankings, groupnr, submitter)
  {
    if submitter !in host.auths then Failure(MissingAuthority)
    else if |rankings| < MinGroupSize then Failure(GroupTooSmall)
    else if |rankings| > MaxGroupSize then Failure(GroupTooBig)
    else if exists i | 0 <= i < |rankings| :: rankings[i] !in host.accounts then Failure(UnknownAccount)
    else if e.None? then Failure(NoElection)
    else if (e.value.electionnr, submitter) in t then Failure(AlreadyVoted)
    else Success(t[(e.value.electionnr, submitter) := Consensus(rankings, groupnr, submitter)])
  }

  /** Every row lies in a round that has been started, is keyed by its own
      submitter and holds a group of 4 to 6 accounts. */
  ghost predicate TallyValid(e: Option<ElectionInfo>, t: ConsensusTable)
  {
    forall k | k in t ::
      && e.Some? && k.0 <= e.value.electionnr
      && t[k].submitter == k.1
      && MinGroupSize <= |t[k].rankings| <= MaxGroupSize
  }

  lemma SubmitConsPreservesTally(e: Option<ElectionInfo>, t: ConsensusTable, host: Host, groupnr: Uint64, rankings: seq<Name>, submitter: Name)
    requires TallyValid(e, t) && SubmitCons(e, t, host, groupnr, rankings, submitter).Success?
    ensures TallyValid(e, SubmitCons(e, t, host, groupnr, rankings, submitter).value)
  {
    var t' := SubmitCons(e, t, host, groupnr, rankings, submitter).value;
    var key := (e.value.electionnr, submitter);
    forall k | k in t'
      ensures e.Some? && k.0 <= e.value.electionnr && t'[k].submitter == k.1
      ensures MinGroupSize <= |t'[k].rankings| <= MaxGroupSize
    {
      if k != key {
        assert k in t' - {key};
      }
    }
  }

  /** A started round is fresh: nobody has submitted for it yet, and the table stays valid. */
  lemma StartElectOpensFreshRound(e: Option<ElectionInfo>, t: ConsensusTable, host: Host, submitter: Name)
    requires TallyValid(e, t) && StartElect(e, host).Success?
    ensures TallyValid(Some(StartElect(e, host).value), t)
    ensures (StartElect(e, host).value.electionnr, submitter) !in t
  {
  }

  /** One ranking per submitter per round: a second submission in the same round is rejected. */
  lemma SecondSubmissionRejected(e: Option<ElectionInfo>, t: ConsensusTable, host: Host, groupnr: Uint64, rankings: seq<Name>,
                                 submitter: Name, host': Host, groupnr': Uint64, rankings': seq<Name>)
    requires SubmitCons(e, t, host, groupnr, rankings, submitter).Success?
    ensures SubmitCons(e, SubmitCons(e, t, host, groupnr, rankings, submitter).value, host', groupnr', rankings', submitter).Failure?
  {
    var t' := SubmitCons(e, t, host, groupnr, rankings, submitter).value;
    assert (e.value.electionnr, submitter) in t';
  }
}
