/** Reward distribution (submitranks). The action first walks the batch of
    ranked groups, checking it and queueing three inline actions per ranked
    account: issue the CREATOR amount to the contract, transfer it to the
    account, and transfer the account's EOS tier amount from the contract.
    The queued actions then run in order on the same ledger; if any check or
    any queued action fails, the whole call aborts and nothing changes. */
module Distribution {
  import opened Base
  import opened Token
  import Rounds

  datatype GroupRanking = GroupRanking(ranking: seq<Name>)
  datatype AllRankings = AllRankings(allRankings: seq<GroupRanking>)

  /** The six EOS tier amounts, indexed by tier. The contract derives them in
      floating point from the configured pool, growing with the tier; here
      they are an input. */
  type TierAmounts = s: seq<Int64> | |s| == MaxGroupSize witness [1, 1, 1, 1, 1, 1]

  /** A tier: an index into the tier table. Tier 0 is paid least; both the
      CREATOR and the EOS amount grow with the tier, so the last position of
      every group, at tier 5, is paid most. */
  type Tier = x: nat | x < MaxGroupSize

  /** One ranked account and the tier it is paid at. */
  datatype Reward = Reward(account: Name, tier: Tier)

  // ---------------------------------------------------------------------------
  // Fibonacci numbers.

  /** fib as the contract computes it: on uint8_t, so the sum wraps modulo 256. */
  function Fib8(index: Uint8): Uint8
    decreases index
  {
    if index <= 1 then index else (Fib8(index - 1) + Fib8(index - 2)) % 0x100
  }

  /** The Fibonacci numbers. */
  function Fib(n: nat): nat
  {
    if n <= 1 then n else Fib(n - 1) + Fib(n - 2)
  }

  /** The uint8 computation yields the Fibonacci number modulo 256. */
  lemma {:induction false} Fib8IsFibMod256(n: Uint8)
    ensures Fib8(n) == Fib(n) % 0x100
  {
    if n >= 2 {
      Fib8IsFibMod256(n - 1);
      Fib8IsFibMod256(n - 2);
      ModAdd(Fib(n - 1), Fib(n - 2));
    }
  }

  lemma ModAdd(a: nat, b: nat)
    ensures (a % 0x100 + b % 0x100) % 0x100 == (a + b) % 0x100
  {
    var qa, qb := a / 0x100, b / 0x100;
    var ra, rb := a % 0x100, b % 0x100;
    assert a + b == 0x100 * (qa + qb) + (ra + rb);
    if ra + rb >= 0x100 {
      assert a + b == 0x100 * (qa + qb + 1) + (ra + rb - 0x100);
    }
  }

  lemma Fib8SmallValues()
    ensures Fib8(0) == 0 && Fib8(1) == 1 && Fib8(7) == 13 && Fib8(13) == 233 && Fib8(14) == 121
  {
    assert Fib8(2) == 1;
    assert Fib8(3) == 2;
    assert Fib8(4) == 3;
    assert Fib8(5) == 5;
    assert Fib8(6) == 8;
    assert Fib8(8) == 21;
    assert Fib8(9) == 34;
    assert Fib8(10) == 55;
    assert Fib8(11) == 89;
    assert Fib8(12) == 144;
  }

  function Pow10(n: nat): nat
  {
    if n == 0 then 1 else 10 * Pow10(n - 1)
  }

  /** One whole CREATOR: 10 to the symbol's precision. */
  const CreatorUnit: nat := Pow10(CreatorSymbol.precision)

  lemma CreatorUnitValue()
    ensures CreatorUnit == 10000
  {
    assert Pow10(2) == 100;
  }

  /** The fib index for a tier: rankIndex + fib_offset, truncated to uint8_t. */
  function FibIndex(rankIndex: nat, offset: Uint8): Uint8
  {
    (rankIndex + offset) % 0x100
  }

  /** The raw CREATOR amount for a tier. */
  function CreatorAmount(rankIndex: nat, offset: Uint8): Int64
  {
    CreatorUnitValue();
    Fib8(FibIndex(rankIndex, offset)) * CreatorUnit
  }

  /** The CREATOR amount for a tier is fib(rankIndex + offset) whole tokens,
      with both the index and the Fibonacci number reduced modulo 256. */
  lemma CreatorAmountIsFib(rankIndex: nat, offset: Uint8)
    ensures CreatorAmount(rankIndex, offset) == (Fib((rankIndex + offset) % 0x100) % 0x100) * 10000
    ensures 0 <= CreatorAmount(rankIndex, offset) <= 255 * 10000
  {
    CreatorUnitValue();
    Fib8IsFibMod256(FibIndex(rankIndex, offset));
  }

  // The memos of the queued actions, as the bytes of their ASCII text
  // (MemosAreAscii states which text each one spells).
  const MintMemo: Memo := [77, 105, 110, 116, 32, 110, 101, 119, 32, 67, 82, 69, 65, 84, 79, 82, 32, 116, 111, 107, 101, 110, 115]
  const CreatorMemo: Memo := [68, 105, 115, 116, 114, 105, 98, 117, 116, 105, 111, 110, 32, 111, 102, 32, 67, 82, 69, 65, 84, 79, 82, 32, 116, 111, 107, 101, 110, 115]
  const EosMemo: Memo := [69, 100, 101, 110, 32, 67, 114, 101, 97, 116, 111, 114, 115, 32, 36, 69, 79, 83, 32, 114, 101, 119, 97, 114, 100, 115]

  lemma MemosAreAscii()
    ensures Spells(MintMemo, "Mint new CREATOR tokens")
    ensures Spells(CreatorMemo, "Distribution of CREATOR tokens")
    ensures Spells(EosMemo, "Eden Creators $EOS rewards")
    ensures |MintMemo| <= MaxMemoBytes && |CreatorMemo| <= MaxMemoBytes && |EosMemo| <= MaxMemoBytes
  {
  }

  /** The three inline actions queued for one reward: issue its CREATOR
      amount to the contract, send that amount to the account, and send the
      account its EOS tier amount. */
  function AccountActions(self: Name, offset: Uint8, tiers: TierAmounts, r: Reward): seq<Action>
  {
    var creator := Asset(CreatorAmount(r.tier, offset), CreatorSymbol);
    [ IssueAct(self, creator, MintMemo),
      TransferAct(self, r.account, creator, CreatorMemo),
      TransferAct(self, r.account, Asset(tiers[r.tier], EosSymbol), EosMemo) ]
  }

  /** The inline actions for a list of rewards, in order. */
  function Queue(self: Name, offset: Uint8, tiers: TierAmounts, rewards: seq<Reward>): (q: seq<Action>)
    ensures |q| == 3 * |rewards|
  {
    if rewards == [] then []
    else AccountActions(self, offset, tiers, rewards[0]) + Queue(self, offset, tiers, rewards[1..])
  }

  lemma SliceOfConcat<T>(a: seq<T>, b: seq<T>, k: nat, n: nat)
    ensures k + n <= |a| ==> (a + b)[k .. k + n] == a[k .. k + n]
    ensures k + n <= |b| ==> (a + b)[|a| + k .. |a| + k + n] == b[k .. k + n]
  {
  }

  /** Reward j of the list is paid by actions 3j, 3j + 1 and 3j + 2 of the queue. */
  lemma {:induction false} QueueAt(self: Name, offset: Uint8, tiers: TierAmounts, rewards: seq<Reward>, j: nat)
    requires j < |rewards|
    ensures Queue(self, offset, tiers, rewards)[3 * j .. 3 * j + 3] == AccountActions(self, offset, tiers, rewards[j])
    decreases j
  {
    var head := AccountActions(self, offset, tiers, rewards[0]);
    var tail := Queue(self, offset, tiers, rewards[1..]);
    if j == 0 {
      SliceOfConcat(head, tail, 0, 3);
    } else {
      QueueAt(self, offset, tiers, rewards[1..], j - 1);
      SliceOfConcat(head, tail, 3 * (j - 1), 3);
    }
  }

  /** The first action for a reward issues its CREATOR amount to the contract. */
  lemma AccountActionsIssue(self: Name, offset: Uint8, tiers: TierAmounts, r: Reward)
    ensures AccountActions(self, offset, tiers, r)[0] == IssueAct(self, Asset(CreatorAmount(r.tier, offset), CreatorSymbol), MintMemo)
  {
  }

  // ---------------------------------------------------------------------------
  // The walk over the batch, as the contract performs it: seen holds the
  // accounts already listed, done the rewards found so far.

  function PlanPositions(host: Host, accs: seq<Name>, rankIndex: nat, seen: set<Name>, done: seq<Reward>)
    : Result<(set<Name>, seq<Reward>)>
    decreases |accs|
  {
    if accs == [] then Success((seen, done))
    else
      var acc := accs[0];
      if acc !in host.accounts then Failure(UnknownAccount)
      else if acc in seen then Failure(DuplicateAccount)
      else if rankIndex >= MaxGroupSize then Failure(TierOutOfRange)
      else PlanPositions(host, accs[1..], rankIndex + 1, seen + {acc}, done + [Reward(acc, rankIndex)])
  }

  function PlanGroups(host: Host, groups: seq<GroupRanking>, seen: set<Name>, done: seq<Reward>)
    : Result<seq<Reward>>
    decreases |groups|
  {
    if groups == [] then Success(done)
    else
      var n := |groups[0].ranking|;
      if n < MinGroupSize then Failure(GroupTooSmall)
      else if n > MaxGroupSize then Failure(GroupTooBig)
      else
        match PlanPositions(host, groups[0].ranking, MaxGroupSize - n, seen, done)
        case Failure(e) => Failure(e)
        case Success(next) => PlanGroups(host, groups[1..], next.0, next.1)
  }

  /** The checks of submitranks, in the contract's order, and the rewards
      they find; the configured fib_offset is read from cfg afterwards. */
  function Plan(self: Name, host: Host, cfg: Option<Rounds.RewardConfig>, tiers: TierAmounts, ranks: AllRankings)
    : Result<seq<Reward>>
  {
    if self !in host.auths then Failure(MissingAuthority)
    else if cfg.None? then Failure(NoRewardConfig)
    else if |ranks.allRankings| < MinGroups then Failure(TooFewGroups)
    else if exists i | 0 <= i < |tiers| :: tiers[i] <= 0 then Failure(PoolTooSmall)
    else PlanGroups(host, ranks.allRankings, {}, [])
  }

  // ---------------------------------------------------------------------------
  // The same rewards, stated directly.

  /** All ranked accounts of the batch, in order. */
  function Flatten(groups: seq<GroupRanking>): seq<Name>
  {
    if groups == [] then [] else groups[0].ranking + Flatten(groups[1..])
  }

  /** The accounts listed in s. */
  function Members(s: seq<Name>): (m: set<Name>)
    ensures forall x :: x in m <==> x in s
  {
    if s == [] then {} else {s[0]} + Members(s[1..])
  }

  ghost predicate Distinct(s: seq<Name>)
  {
    forall i, j | 0 <= i < j < |s| :: s[i] != s[j]
  }

  /** Every group has 4 to 6 accounts. */
  predicate SizesOk(groups: seq<GroupRanking>)
  {
    forall g | 0 <= g < |groups| :: MinGroupSize <= |groups[g].ranking| <= MaxGroupSize
  }

  lemma SizesOkCons(groups: seq<GroupRanking>)
    requires groups != []
    ensures SizesOk(groups) <==> MinGroupSize <= |groups[0].ranking| <= MaxGroupSize && SizesOk(groups[1..])
  {
    var rest := groups[1..];
    if MinGroupSize <= |groups[0].ranking| <= MaxGroupSize && SizesOk(rest) {
      forall g | 0 <= g < |groups| ensures MinGroupSize <= |groups[g].ranking| <= MaxGroupSize {
        if g > 0 { assert groups[g] == rest[g - 1]; }
      }
    }
    if SizesOk(groups) {
      forall g | 0 <= g < |rest| ensures MinGroupSize <= |rest[g].ranking| <= MaxGroupSize {
        assert rest[g] == groups[g + 1];
      }
    }
  }

  /** A batch the walk accepts: every group has 4 to 6 accounts, every account
      exists, and no account appears twice anywhere in the batch. */
  ghost predicate BatchValid(host: Host, groups: seq<GroupRanking>)
  {
    && SizesOk(groups)
    && (forall a | a in Flatten(groups) :: a in host.accounts)
    && Distinct(Flatten(groups))
  }

  /** The accounts of one group, paid from tier rankIndex on, one tier each. */
  function PositionsTiering(accs: seq<Name>, rankIndex: nat): (p: seq<Reward>)
    requires rankIndex + |accs| <= MaxGroupSize
    ensures |p| == |accs|
    decreases |accs|
  {
    if accs == [] then []
    else [Reward(accs[0], rankIndex)] + PositionsTiering(accs[1..], rankIndex + 1)
  }

  /** Position i of the group is paid at tier rankIndex + i. */
  lemma {:induction false} PositionsTieringAt(accs: seq<Name>, rankIndex: nat, i: nat)
    requires rankIndex + |accs| <= MaxGroupSize && i < |accs|
    ensures PositionsTiering(accs, rankIndex)[i] == Reward(accs[i], rankIndex + i)
    decreases i
  {
    if i > 0 {
      PositionsTieringAt(accs[1..], rankIndex + 1, i - 1);
    }
  }

  /** The rewards of a whole batch: each group's accounts are paid from
      tier 6 - size on, so the last account of every group sits at tier 5. */
  function GroupsTiering(groups: seq<GroupRanking>): seq<Reward>
    requires SizesOk(groups)
    decreases |groups|
  {
    if groups == [] then []
    else
      var first := groups[0].ranking;
      SizesOkCons(groups);
      PositionsTiering(first, MaxGroupSize - |first|) + GroupsTiering(groups[1..])
  }

  lemma DistinctConcat(a: seq<Name>, b: seq<Name>)
    ensures Distinct(a + b) <==> Distinct(a) && Distinct(b) && (forall x | x in a :: x !in b)
  {
    var s := a + b;
    if Distinct(a) && Distinct(b) && (forall x | x in a :: x !in b) {
      forall i, j | 0 <= i < j < |s| ensures s[i] != s[j] {
        if j < |a| {
        } else if i >= |a| {
          assert s[i] == b[i - |a|] && s[j] == b[j - |a|];
        } else {
          assert s[i] in a && s[j] == b[j - |a|];
        }
      }
    }
    if Distinct(s) {
      forall i, j | 0 <= i < j < |a| ensures a[i] != a[j] {
        assert a[i] == s[i] && a[j] == s[j];
      }
      forall i, j | 0 <= i < j < |b| ensures b[i] != b[j] {
        assert b[i] == s[i + |a|] && b[j] == s[j + |a|];
      }
      forall i, j | 0 <= i < |a| && 0 <= j < |b| ensures a[i] != b[j] {
        assert a[i] == s[i] && b[j] == s[j + |a|];
      }
    }
  }

  /** The conditions on a group, split into its first account and the rest. */
  lemma AcceptedCons(host: Host, acc: Name, rest: seq<Name>, seen: set<Name>)
    ensures Distinct([acc] + rest) <==> acc !in rest && Distinct(rest)
    ensures (forall a | a in [acc] + rest :: a in host.accounts && a !in seen)
        <==> acc in host.accounts && acc !in seen && (forall a | a in rest :: a in host.accounts && a !in seen)
    ensures (forall a | a in rest :: a in host.accounts && a !in seen + {acc})
        <==> acc !in rest && (forall a | a in rest :: a in host.accounts && a !in seen)
  {
    DistinctConcat([acc], rest);
  }

  lemma {:induction false} PlanPositionsSucceedsIff(host: Host, accs: seq<Name>, rankIndex: nat, seen: set<Name>, done: seq<Reward>)
    requires rankIndex <= MaxGroupSize
    ensures PlanPositions(host, accs, rankIndex, seen, done).Success? <==>
      && (forall a | a in accs :: a in host.accounts && a !in seen)
      && Distinct(accs)
      && rankIndex + |accs| <= MaxGroupSize
    decreases |accs|
  {
    if accs != [] {
      var acc, rest := accs[0], accs[1..];
      assert accs == [acc] + rest;
      AcceptedCons(host, acc, rest, seen);
      if acc in host.accounts && acc !in seen && rankIndex < MaxGroupSize {
        PlanPositionsSucceedsIff(host, rest, rankIndex + 1, seen + {acc}, done + [Reward(acc, rankIndex)]);
      }
    }
  }

  lemma {:induction false} PlanPositionsValue(host: Host, accs: seq<Name>, rankIndex: nat, seen: set<Name>, done: seq<Reward>)
    requires rankIndex <= MaxGroupSize && PlanPositions(host, accs, rankIndex, seen, done).Success?
    ensures rankIndex + |accs| <= MaxGroupSize
    ensures var r := PlanPositions(host, accs, rankIndex, seen, done).value;
      && r.0 == seen + Members(accs)
      && r.1 == done + PositionsTiering(accs, rankIndex)
    decreases |accs|
  {
    if accs != [] {
      var acc, rest := accs[0], accs[1..];
      var reward := Reward(acc, rankIndex);
      assert PlanPositions(host, accs, rankIndex, seen, done)
          == PlanPositions(host, rest, rankIndex + 1, seen + {acc}, done + [reward]);
      PlanPositionsValue(host, rest, rankIndex + 1, seen + {acc}, done + [reward]);
      assert PositionsTiering(accs, rankIndex) == [reward] + PositionsTiering(rest, rankIndex + 1);
      assert done + [reward] + PositionsTiering(rest, rankIndex + 1) == done + PositionsTiering(accs, rankIndex);
    }
  }

  /** One group is accepted exactly when its accounts exist, are new and
      distinct, and fit the tier table; it adds its accounts to seen and
      their rewards to done. */
  lemma PlanPositionsCorrect(host: Host, accs: seq<Name>, rankIndex: nat, seen: set<Name>, done: seq<Reward>)
    requires rankIndex <= MaxGroupSize
    ensures var r := PlanPositions(host, accs, rankIndex, seen, done);
      r.Success? <==>
        && (forall a | a in accs :: a in host.accounts && a !in seen)
        && Distinct(accs)
        && rankIndex + |accs| <= MaxGroupSize
    ensures var r := PlanPositions(host, accs, rankIndex, seen, done);
      r.Success? ==>
        && rankIndex + |accs| <= MaxGroupSize
        && r.value.0 == seen + Members(accs)
        && r.value.1 == done + PositionsTiering(accs, rankIndex)
  {
    PlanPositionsSucceedsIff(host, accs, rankIndex, seen, done);
    if PlanPositions(host, accs, rankIndex, seen, done).Success? {
      PlanPositionsValue(host, accs, rankIndex, seen, done);
    }
  }

  lemma {:induction false} PlanGroupsSucceedsIff(host: Host, groups: seq<GroupRanking>, seen: set<Name>, done: seq<Reward>)
    ensures PlanGroups(host, groups, seen, done).Success? <==>
      && SizesOk(groups)
      && (forall a | a in Flatten(groups) :: a in host.accounts && a !in seen)
      && Distinct(Flatten(groups))
    decreases |groups|
  {
    if groups != [] {
      var ranking := groups[0].ranking;
      var n := |ranking|;
      var rest := groups[1..];
      SizesOkCons(groups);
      assert Flatten(groups) == ranking + Flatten(rest);
      DistinctConcat(ranking, Flatten(rest));
      if MinGroupSize <= n <= MaxGroupSize {
        PlanPositionsCorrect(host, ranking, MaxGroupSize - n, seen, done);
        var p := PlanPositions(host, ranking, MaxGroupSize - n, seen, done);
        if p.Success? {
          PlanGroupsSucceedsIff(host, rest, p.value.0, p.value.1);
        }
      }
    }
  }

  lemma {:induction false} PlanGroupsValue(host: Host, groups: seq<GroupRanking>, seen: set<Name>, done: seq<Reward>)
    requires PlanGroups(host, groups, seen, done).Success?
    ensures SizesOk(groups) && PlanGroups(host, groups, seen, done).value == done + GroupsTiering(groups)
    decreases |groups|
  {
    if groups != [] {
      var ranking := groups[0].ranking;
      var n := |ranking|;
      var rest := groups[1..];
      PlanPositionsCorrect(host, ranking, MaxGroupSize - n, seen, done);
      var p := PlanPositions(host, ranking, MaxGroupSize - n, seen, done).value;
      PlanGroupsValue(host, rest, p.0, p.1);
      SizesOkCons(groups);
      GroupsTieringCons(groups);
      var head := PositionsTiering(ranking, MaxGroupSize - n);
      assert done + head + GroupsTiering(rest) == done + (head + GroupsTiering(rest));
    }
  }

  /** The walk accepts a batch exactly when every group has 4 to 6 accounts
      and every account exists, is not in seen and is listed once; it then
      adds the direct tiering of the batch to done. */
  lemma PlanGroupsCorrect(host: Host, groups: seq<GroupRanking>, seen: set<Name>, done: seq<Reward>)
    ensures var r := PlanGroups(host, groups, seen, done);
      r.Success? <==>
        && SizesOk(groups)
        && (forall a | a in Flatten(groups) :: a in host.accounts && a !in seen)
        && Distinct(Flatten(groups))
    ensures var r := PlanGroups(host, groups, seen, done);
      r.Success? ==> SizesOk(groups) && r.value == done + GroupsTiering(groups)
  {
    PlanGroupsSucceedsIff(host, groups, seen, done);
    if PlanGroups(host, groups, seen, done).Success? {
      PlanGroupsValue(host, groups, seen, done);
    }
  }

  /** submitranks accepts exactly the batches with at least two groups, positive
      tier amounts, group sizes in [4, 6], existing accounts and no account
      listed twice, given the reward config exists and the contract authorized
      the call; the rewards it finds are the direct tiering. */
  lemma PlanCorrect(self: Name, host: Host, cfg: Option<Rounds.RewardConfig>, tiers: TierAmounts, ranks: AllRankings)
    ensures var r := Plan(self, host, cfg, tiers, ranks);
      r.Success? <==>
        && self in host.auths && cfg.Some?
        && |ranks.allRankings| >= MinGroups
        && (forall i | 0 <= i < |tiers| :: tiers[i] > 0)
        && BatchValid(host, ranks.allRankings)
    ensures var r := Plan(self, host, cfg, tiers, ranks);
      r.Success? ==>
        && SizesOk(ranks.allRankings)
        && r.value == GroupsTiering(ranks.allRankings)
  {
    PlanGroupsCorrect(host, ranks.allRankings, {}, []);
  }

  lemma {:induction false} PositionsNeverOutOfRange(host: Host, accs: seq<Name>, rankIndex: nat, seen: set<Name>, done: seq<Reward>)
    requires rankIndex + |accs| <= MaxGroupSize
    ensures PlanPositions(host, accs, rankIndex, seen, done) != Failure(TierOutOfRange)
    decreases |accs|
  {
    if accs != [] {
      var acc := accs[0];
      if acc in host.accounts && acc !in seen {
        PositionsNeverOutOfRange(host, accs[1..], rankIndex + 1, seen + {acc}, done + [Reward(acc, rankIndex)]);
      }
    }
  }

  lemma {:induction false} GroupsNeverOutOfRange(host: Host, groups: seq<GroupRanking>, seen: set<Name>, done: seq<Reward>)
    ensures PlanGroups(host, groups, seen, done) != Failure(TierOutOfRange)
    decreases |groups|
  {
    if groups != [] {
      var n := |groups[0].ranking|;
      if MinGroupSize <= n <= MaxGroupSize {
        PositionsNeverOutOfRange(host, groups[0].ranking, MaxGroupSize - n, seen, done);
        var p := PlanPositions(host, groups[0].ranking, MaxGroupSize - n, seen, done);
        if p.Success? {
          GroupsNeverOutOfRange(host, groups[1..], p.value.0, p.value.1);
        }
      }
    }
  }

  /** The tier index 6 - size + position always lies within the six-entry tier table. */
  lemma PlanNeverOutOfRange(self: Name, host: Host, cfg: Option<Rounds.RewardConfig>, tiers: TierAmounts, ranks: AllRankings)
    ensures Plan(self, host, cfg, tiers, ranks) != Failure(TierOutOfRange)
  {
    GroupsNeverOutOfRange(host, ranks.allRankings, {}, []);
  }

  /** The number of accounts listed in the groups before group g. */
  function Before(groups: seq<GroupRanking>, g: nat): nat
    requires g <= |groups|
  {
    if g == 0 then 0 else |groups[0].ranking| + Before(groups[1..], g - 1)
  }

  lemma GroupsTieringCons(groups: seq<GroupRanking>)
    requires SizesOk(groups) && groups != []
    ensures SizesOk(groups[1..]) && MinGroupSize <= |groups[0].ranking| <= MaxGroupSize
    ensures GroupsTiering(groups)
         == PositionsTiering(groups[0].ranking, MaxGroupSize - |groups[0].ranking|) + GroupsTiering(groups[1..])
  {
    SizesOkCons(groups);
  }

  /** The account at position i of group g is reward number
      Before(groups, g) + i, paid at tier 6 - size + i. */
  lemma {:induction false} GroupsTieringAt(groups: seq<GroupRanking>, g: nat, i: nat)
    requires SizesOk(groups) && g < |groups| && i < |groups[g].ranking|
    ensures Before(groups, g) + i < |GroupsTiering(groups)|
    ensures GroupsTiering(groups)[Before(groups, g) + i]
            == Reward(groups[g].ranking[i], MaxGroupSize - |groups[g].ranking| + i)
    decreases g
  {
    GroupsTieringCons(groups);
    var rest := groups[1..];
    var first := groups[0].ranking;
    var head := PositionsTiering(first, MaxGroupSize - |first|);
    var tail := GroupsTiering(rest);
    if g == 0 {
      PositionsTieringAt(first, MaxGroupSize - |first|, i);
      assert GroupsTiering(groups)[i] == head[i];
    } else {
      assert rest[g - 1] == groups[g];
      GroupsTieringAt(rest, g - 1, i);
      var k := Before(rest, g - 1) + i;
      assert GroupsTiering(groups)[|head| + k] == tail[k];
    }
  }

  // ---------------------------------------------------------------------------
  // The walk as the contract runs it: loops over the tier table, the groups
  // and their accounts, counting how often each account is listed and
  // queueing its three inline actions as it goes.

  /** Queueing one more reward appends its three actions. */
  lemma {:induction false} QueueAppend(self: Name, offset: Uint8, tiers: TierAmounts, rewards: seq<Reward>, r: Reward)
    ensures Queue(self, offset, tiers, rewards + [r])
         == Queue(self, offset, tiers, rewards) + AccountActions(self, offset, tiers, r)
    decreases |rewards|
  {
    var rs := rewards + [r];
    if rewards == [] {
      assert rs[1..] == [];
    } else {
      assert rs[0] == rewards[0] && rs[1..] == rewards[1..] + [r];
      QueueAppend(self, offset, tiers, rewards[1..], r);
    }
  }

  /** One step of the walk over a group, at position k. */
  lemma PlanPositionsStep(host: Host, accs: seq<Name>, k: nat, rankIndex: nat, seen: set<Name>, done: seq<Reward>)
    requires k < |accs| && rankIndex < MaxGroupSize
    ensures var acc := accs[k];
      PlanPositions(host, accs[k..], rankIndex, seen, done)
      == if acc !in host.accounts then Failure(UnknownAccount)
         else if acc in seen then Failure(DuplicateAccount)
         else PlanPositions(host, accs[k + 1..], rankIndex + 1, seen + {acc}, done + [Reward(acc, rankIndex)])
  {
    assert accs[k..][0] == accs[k] && accs[k..][1..] == accs[k + 1..];
  }

  /** Every account counted so far was listed exactly once. */
  predicate ListedOnce(counts: map<Name, Uint8>)
  {
    forall a | a in counts :: counts[a] == 1
  }

  /** With every count at 1, an account's count is non-zero exactly when it
      was listed, and listing a new one keeps every count at 1. */
  lemma CountsStep(counts: map<Name, Uint8>, acc: Name)
    requires ListedOnce(counts)
    ensures acc in counts <==> (if acc in counts then counts[acc] else 0) != 0
    ensures acc !in counts ==> counts[acc := 1].Keys == counts.Keys + {acc} && ListedOnce(counts[acc := 1])
  {
  }

  /** The checks and the walk of submitranks; on success, the inline actions
      it queues, which are exactly those of the rewards Plan finds. */
  method PlanRewards(self: Name, host: Host, cfg: Option<Rounds.RewardConfig>, tiers: TierAmounts, ranks: AllRankings)
    returns (r: Result<seq<Action>>)
    ensures r.Success? ==>
      && Plan(self, host, cfg, tiers, ranks).Success?
      && r.value == Queue(self, cfg.value.fibOffset, tiers, Plan(self, host, cfg, tiers, ranks).value)
    ensures r.Failure? ==> Plan(self, host, cfg, tiers, ranks) == Failure(r.error)
  {
    if self !in host.auths { return Failure(MissingAuthority); }
    if cfg.None? { return Failure(NoRewardConfig); }
    var groups := ranks.allRankings;
    if |groups| < MinGroups { return Failure(TooFewGroups); }
    for i := 0 to |tiers|
      invariant forall k | 0 <= k < i :: tiers[k] > 0
    {
      if tiers[i] <= 0 { return Failure(PoolTooSmall); }
    }
    var offset := cfg.value.fibOffset;
    ghost var whole := PlanGroups(host, groups, {}, []);
    assert Plan(self, host, cfg, tiers, ranks) == whole;
    var counts: map<Name, Uint8> := map[];
    ghost var done: seq<Reward> := [];
    var queue: seq<Action> := [];
    assert groups[0..] == groups && counts.Keys == {};
    for g := 0 to |groups|
      invariant whole == PlanGroups(host, groups[g..], counts.Keys, done)
      invariant ListedOnce(counts)
      invariant queue == Queue(self, offset, tiers, done)
    {
      var ranking := groups[g].ranking;
      var n := |ranking|;
      if n < MinGroupSize { return Failure(GroupTooSmall); }
      if n > MaxGroupSize { return Failure(GroupTooBig); }
      assert groups[g..][0] == groups[g] && groups[g..][1..] == groups[g + 1..];
      ghost var start := PlanPositions(host, ranking, MaxGroupSize - n, counts.Keys, done);
      assert whole == match start
        case Failure(e) => Failure(e)
        case Success(next) => PlanGroups(host, groups[g + 1..], next.0, next.1);
      var rankIndex := MaxGroupSize - n;
      for k := 0 to n
        invariant rankIndex == MaxGroupSize - n + k
        invariant start == PlanPositions(host, ranking[k..], rankIndex, counts.Keys, done)
        invariant ListedOnce(counts)
        invariant queue == Queue(self, offset, tiers, done)
      {
        var acc := ranking[k];
        PlanPositionsStep(host, ranking, k, rankIndex, counts.Keys, done);
        CountsStep(counts, acc);
        if acc !in host.accounts { return Failure(UnknownAccount); }
        var listed := if acc in counts then counts[acc] else 0;
        counts := counts[acc := (listed + 1) % 0x100];
        if listed != 0 { return Failure(DuplicateAccount); }
        var reward := Reward(acc, rankIndex);
        QueueAppend(self, offset, tiers, done, reward);
        queue := queue + AccountActions(self, offset, tiers, reward);
        done := done + [reward];
        rankIndex := rankIndex + 1;
      }
      assert ranking[n..] == [];
    }
    assert groups[|groups|..] == [];
    return Success(queue);
  }

  // ---------------------------------------------------------------------------
  // Running the queued actions.

  /** The queued inline actions carry the contract's own authority. */
  function InlineHost(self: Name, host: Host): Host
  {
    host.(auths := {self})
  }

  /** Run the queue in order; the first failure aborts all of it. */
  function ApplyAll(l: Ledger, self: Name, host: Host, acts: seq<Action>): Result<Ledger>
    decreases |acts|
  {
    if acts == [] then Success(l)
    else
      match Apply(l, self, host, acts[0])
      case Failure(e) => Failure(e)
      case Success(l') => ApplyAll(l', self, host, acts[1..])
  }

  /** submitranks on the ledger: the new ledger, or the reason the whole call aborts. */
  function SubmitRanks(l: Ledger, self: Name, host: Host, cfg: Option<Rounds.RewardConfig>, tiers: TierAmounts, ranks: AllRankings)
    : Result<Ledger>
  {
    match Plan(self, host, cfg, tiers, ranks)
    case Failure(e) => Failure(e)
    case Success(rewards) => ApplyAll(l, self, InlineHost(self, host), Queue(self, cfg.value.fibOffset, tiers, rewards))
  }

  lemma {:induction false} ApplyAllPreservesValid(l: Ledger, self: Name, host: Host, acts: seq<Action>)
    requires Valid(l) && ApplyAll(l, self, host, acts).Success?
    ensures Valid(ApplyAll(l, self, host, acts).value)
    decreases |acts|
  {
    if acts != [] {
      ApplyPreservesValid(l, self, host, acts[0]);
      ApplyAllPreservesValid(Apply(l, self, host, acts[0]).value, self, host, acts[1..]);
    }
  }

  /** submitranks keeps supply within its ceiling, balances non-negative and
      the balances of each symbol equal to its supply. */
  lemma SubmitRanksPreservesValid(l: Ledger, self: Name, host: Host, cfg: Option<Rounds.RewardConfig>, tiers: TierAmounts, ranks: AllRankings)
    requires Valid(l) && SubmitRanks(l, self, host, cfg, tiers, ranks).Success?
    ensures Valid(SubmitRanks(l, self, host, cfg, tiers, ranks).value)
  {
    var rewards := Plan(self, host, cfg, tiers, ranks).value;
    ApplyAllPreservesValid(l, self, InlineHost(self, host), Queue(self, cfg.value.fibOffset, tiers, rewards));
  }

  /** A queued issue of a non-positive amount aborts the whole queue. */
  lemma {:induction false} NonPositiveIssueAborts(l: Ledger, self: Name, host: Host, acts: seq<Action>, j: nat)
    requires j < |acts| && acts[j].IssueAct? && acts[j].quantity.amount <= 0
    ensures ApplyAll(l, self, host, acts).Failure?
    decreases j
  {
    if j > 0 {
      match Apply(l, self, host, acts[0])
      case Failure(_) =>
      case Success(l') => NonPositiveIssueAborts(l', self, host, acts[1..], j - 1);
    }
  }

  /** fib(0) = 0, so a tier-0 reward at fib_offset 0 has no CREATOR amount. */
  lemma CreatorAmountTierZero()
    ensures CreatorAmount(0, 0) == 0
  {
    assert FibIndex(0, 0) == 0;
  }

  /** At fib_offset 0 the queue issues nothing for a reward at tier 0, since fib(0) = 0. */
  lemma TierZeroIssuesNothing(self: Name, tiers: TierAmounts, rewards: seq<Reward>, j: nat)
    requires j < |rewards| && rewards[j].tier == 0
    ensures var q := Queue(self, 0, tiers, rewards);
      3 * j < |q| && q[3 * j].IssueAct? && q[3 * j].quantity.amount == 0
  {
    var q := Queue(self, 0, tiers, rewards);
    QueueAt(self, 0, tiers, rewards, j);
    var acts := q[3 * j .. 3 * j + 3];
    assert q[3 * j] == acts[0];
    AccountActionsIssue(self, 0, tiers, rewards[j]);
    CreatorAmountTierZero();
  }

  /** With fib_offset 0, a batch holding a group of six always aborts: its
      first account sits at tier 0, fib(0) = 0, and issuing 0 CREATOR fails. */
  lemma FullGroupWithZeroOffsetAborts(l: Ledger, self: Name, host: Host, cfg: Option<Rounds.RewardConfig>, tiers: TierAmounts,
                                      ranks: AllRankings, g: nat)
    requires cfg.Some? && cfg.value.fibOffset == 0
    requires g < |ranks.allRankings| && |ranks.allRankings[g].ranking| == MaxGroupSize
    ensures SubmitRanks(l, self, host, cfg, tiers, ranks).Failure?
  {
    PlanCorrect(self, host, cfg, tiers, ranks);
    var r := Plan(self, host, cfg, tiers, ranks);
    if r.Success? {
      var groups := ranks.allRankings;
      GroupsTieringAt(groups, g, 0);
      var j := Before(groups, g);
      TierZeroIssuesNothing(self, tiers, r.value, j);
      NonPositiveIssueAborts(l, self, InlineHost(self, host), Queue(self, 0, tiers, r.value), 3 * j);
    }
  }
  /** An accepted batch is paid by its direct tiering. */
  lemma PlanValue(self: Name, host: Host, cfg: Option<Rounds.RewardConfig>, tiers: TierAmounts, ranks: AllRankings)
    requires Plan(self, host, cfg, tiers, ranks).Success?
    ensures SizesOk(ranks.allRankings) && Plan(self, host, cfg, tiers, ranks).value == GroupsTiering(ranks.allRankings)
  {
    PlanGroupsValue(host, ranks.allRankings, {}, []);
  }

  /** Reward k of the list is paid by queued actions 3k, 3k + 1 and 3k + 2. */
  lemma RewardPaid(self: Name, offset: Uint8, tiers: TierAmounts, rewards: seq<Reward>, k: nat)
    requires k < |rewards|
    ensures var q := Queue(self, offset, tiers, rewards);
      var r := rewards[k];
      var creator := Asset(CreatorAmount(r.tier, offset), CreatorSymbol);
      && 3 * k + 3 <= |q|
      && q[3 * k .. 3 * k + 3] == [ IssueAct(self, creator, MintMemo),
                                    TransferAct(self, r.account, creator, CreatorMemo),
                                    TransferAct(self, r.account, Asset(tiers[r.tier], EosSymbol), EosMemo) ]
  {
    QueueAt(self, offset, tiers, rewards, k);
  }

  /** The account at position i of group g of an accepted batch is paid by
      the three queued actions 3k, 3k + 1 and 3k + 2, k = Before(groups, g) + i:
      fib(tier + fib_offset) CREATOR minted to the contract and sent to the
      account, then the tier's EOS amount, at tier 6 - size + i. */
  lemma PositionPaid(self: Name, host: Host, cfg: Option<Rounds.RewardConfig>, tiers: TierAmounts, ranks: AllRankings, g: nat, i: nat)
    requires Plan(self, host, cfg, tiers, ranks).Success?
    requires g < |ranks.allRankings| && i < |ranks.allRankings[g].ranking|
    ensures MinGroupSize <= |ranks.allRankings[g].ranking| <= MaxGroupSize
    ensures var groups := ranks.allRankings;
      var acc := groups[g].ranking[i];
      var tier := MaxGroupSize - |groups[g].ranking| + i;
      var k := Before(groups, g) + i;
      var q := Queue(self, cfg.value.fibOffset, tiers, Plan(self, host, cfg, tiers, ranks).value);
      var creator := Asset(CreatorAmount(tier, cfg.value.fibOffset), CreatorSymbol);
      && 3 * k + 3 <= |q|
      && q[3 * k .. 3 * k + 3] == [ IssueAct(self, creator, MintMemo),
                                    TransferAct(self, acc, creator, CreatorMemo),
                                    TransferAct(self, acc, Asset(tiers[tier], EosSymbol), EosMemo) ]
  {
    var groups := ranks.allRankings;
    PlanValue(self, host, cfg, tiers, ranks);
    var rewards := Plan(self, host, cfg, tiers, ranks).value;
    assert MinGroupSize <= |groups[g].ranking| <= MaxGroupSize;
    GroupsTieringAt(groups, g, i);
    RewardPaid(self, cfg.value.fibOffset, tiers, rewards, Before(groups, g) + i);
  }

  /** submitranks changes the ledger only for a batch the walk accepts: the
      contract authorized it, the reward config exists, there are at least two
      groups, every tier amount is positive, and the batch is valid. */
  lemma SubmitRanksNeedsValidBatch(l: Ledger, self: Name, host: Host, cfg: Option<Rounds.RewardConfig>, tiers: TierAmounts, ranks: AllRankings)
    requires SubmitRanks(l, self, host, cfg, tiers, ranks).Success?
    ensures self in host.auths && cfg.Some? && |ranks.allRankings| >= MinGroups
    ensures forall i | 0 <= i < |tiers| :: tiers[i] > 0
    ensures BatchValid(host, ranks.allRankings)
  {
    PlanCorrect(self, host, cfg, tiers, ranks);
  }

  // ---------------------------------------------------------------------------
  // The ledger after an accepted submitranks: what each action of the queue
  // adds to or takes from each balance and each supply.

  /** amount for the owner who, nothing for anyone else. */
  function Gain(o: Name, who: Name, amount: int): int
  {
    if o == who then amount else 0
  }

  /** The accounts the rewards pay, in order. */
  function Payees(rewards: seq<Reward>): (p: seq<Name>)
    ensures |p| == |rewards|
  {
    if rewards == [] then [] else [rewards[0].account] + Payees(rewards[1..])
  }

  /** The CREATOR the rewards mint, in raw units. */
  function Minted(offset: Uint8, rewards: seq<Reward>): int
  {
    if rewards == [] then 0 else CreatorAmount(rewards[0].tier, offset) + Minted(offset, rewards[1..])
  }

  /** The EOS the rewards pay out, in raw units. */
  function PaidEos(tiers: TierAmounts, rewards: seq<Reward>): int
  {
    if rewards == [] then 0 else tiers[rewards[0].tier] + PaidEos(tiers, rewards[1..])
  }

  /** The CREATOR the rewards send to o. */
  function Received(offset: Uint8, rewards: seq<Reward>, o: Name): int
  {
    if rewards == [] then 0
    else Gain(o, rewards[0].account, CreatorAmount(rewards[0].tier, offset)) + Received(offset, rewards[1..], o)
  }

  /** The EOS the rewards send to o. */
  function ReceivedEos(tiers: TierAmounts, rewards: seq<Reward>, o: Name): int
  {
    if rewards == [] then 0
    else Gain(o, rewards[0].account, tiers[rewards[0].tier]) + ReceivedEos(tiers, rewards[1..], o)
  }

  /** Row k is the same in both tables: absent from both, or present in both
      with the same amount. */
  predicate SameRow(b: Balances, b': Balances, k: (Name, Code))
  {
    (k in b <==> k in b') && (k in b ==> b[k] == b'[k])
  }

  lemma RowOutside(b: Balances, b': Balances, keys: set<(Name, Code)>, k: (Name, Code))
    requires b' - keys == b - keys && k !in keys
    ensures SameRow(b, b', k) && Balance(b', k.0, k.1) == Balance(b, k.0, k.1)
  {
    assert k in b' <==> k in b' - keys;
    assert k in b <==> k in b - keys;
    if k in b {
      assert b[k] == (b - keys)[k];
    }
  }

  /** A successful issue adds the quantity to its code's supply and to the
      issuer's balance, and changes no other row and no other supply. */
  lemma IssueEffect(l: Ledger, self: Name, host: Host, to: Name, q: Asset, memo: Memo)
    requires Issue(l, self, host, to, q, memo).Success?
    ensures q.symbol.code in l.stats
    ensures var m := Issue(l, self, host, to, q, memo).value;
      var c := q.symbol.code;
      var issuer := l.stats[c].issuer;
      && c in m.stats && m.stats[c].issuer == issuer
      && SupplyOf(m, c) == SupplyOf(l, c) + q.amount
      && (forall d | d != c :: SupplyOf(m, d) == SupplyOf(l, d))
      && (forall o, d :: Balance(m.balances, o, d) == Balance(l.balances, o, d) + (if d == c then Gain(o, issuer, q.amount) else 0))
      && (forall k: (Name, Code) | k.0 != issuer :: SameRow(l.balances, m.balances, k))
  {
    var m := Issue(l, self, host, to, q, memo).value;
    var c := q.symbol.code;
    var key := (l.stats[c].issuer, c);
    forall d | d != c
      ensures SupplyOf(m, d) == SupplyOf(l, d)
    {
      assert d in m.stats <==> d in m.stats - {c};
      assert d in l.stats <==> d in l.stats - {c};
      if d in l.stats {
        assert m.stats[d] == (m.stats - {c})[d];
      }
    }
    forall o, d
      ensures Balance(m.balances, o, d) == Balance(l.balances, o, d) + (if d == c then Gain(o, key.0, q.amount) else 0)
    {
      if (o, d) != key {
        RowOutside(l.balances, m.balances, {key}, (o, d));
      }
    }
    forall k: (Name, Code) | k.0 != key.0
      ensures SameRow(l.balances, m.balances, k)
    {
      RowOutside(l.balances, m.balances, {key}, k);
    }
  }

  /** A successful transfer moves the quantity from one owner to another
      owner, and changes no other row and no supply. */
  lemma TransferEffect(l: Ledger, self: Name, host: Host, from: Name, to: Name, q: Asset, memo: Memo)
    requires Transfer(l, self, host, from, to, q, memo).Success?
    ensures from != to
    ensures var m := Transfer(l, self, host, from, to, q, memo).value;
      var c := q.symbol.code;
      && m.stats == l.stats
      && (forall o, d :: Balance(m.balances, o, d)
                         == Balance(l.balances, o, d) + (if d == c then Gain(o, to, q.amount) - Gain(o, from, q.amount) else 0))
      && (forall k: (Name, Code) | k.0 != from && k.0 != to :: SameRow(l.balances, m.balances, k))
  {
    var m := Transfer(l, self, host, from, to, q, memo).value;
    var c := q.symbol.code;
    var keys := {(from, c), (to, c)};
    forall o, d
      ensures Balance(m.balances, o, d)
              == Balance(l.balances, o, d) + (if d == c then Gain(o, to, q.amount) - Gain(o, from, q.amount) else 0)
    {
      if (o, d) !in keys {
        RowOutside(l.balances, m.balances, keys, (o, d));
      }
    }
    forall k: (Name, Code) | k.0 != from && k.0 != to
      ensures SameRow(l.balances, m.balances, k)
    {
      RowOutside(l.balances, m.balances, keys, k);
    }
  }

  /** The three actions of one reward, when they all succeed: the issuer is
      credited the CREATOR amount, which then goes from the contract to the
      account, and the tier's EOS amount goes from the contract to the account. */
  lemma PayOne(l: Ledger, self: Name, host: Host, offset: Uint8, tiers: TierAmounts, r: Reward)
    requires ApplyAll(l, self, host, AccountActions(self, offset, tiers, r)).Success?
    ensures r.account != self && CreatorCode in l.stats
    ensures var m := ApplyAll(l, self, host, AccountActions(self, offset, tiers, r)).value;
      var issuer := l.stats[CreatorCode].issuer;
      var amount := CreatorAmount(r.tier, offset);
      var eos := tiers[r.tier];
      && CreatorCode in m.stats && m.stats[CreatorCode].issuer == issuer
      && SupplyOf(m, CreatorCode) == SupplyOf(l, CreatorCode) + amount
      && (forall d | d != CreatorCode :: SupplyOf(m, d) == SupplyOf(l, d))
      && (forall o :: Balance(m.balances, o, CreatorCode)
                      == Balance(l.balances, o, CreatorCode) + Gain(o, issuer, amount) + Gain(o, r.account, amount) - Gain(o, self, amount))
      && (forall o :: Balance(m.balances, o, EosCode) == Balance(l.balances, o, EosCode) + Gain(o, r.account, eos) - Gain(o, self, eos))
      && (forall o, d | d != CreatorCode && d != EosCode :: Balance(m.balances, o, d) == Balance(l.balances, o, d))
      && (forall k: (Name, Code) | k.0 != issuer && k.0 != r.account && k.0 != self :: SameRow(l.balances, m.balances, k))
  {
    var creator := Asset(CreatorAmount(r.tier, offset), CreatorSymbol);
    var eos := Asset(tiers[r.tier], EosSymbol);
    AccountActionsRun(l, self, host, offset, tiers, r);
    var m1 := Issue(l, self, host, self, creator, MintMemo).value;
    var m2 := Transfer(m1, self, host, self, r.account, creator, CreatorMemo).value;
    IssueEffect(l, self, host, self, creator, MintMemo);
    TransferEffect(m1, self, host, self, r.account, creator, CreatorMemo);
    TransferEffect(m2, self, host, self, r.account, eos, EosMemo);
  }

  /** The three actions of one reward run one after the other. */
  lemma AccountActionsRun(l: Ledger, self: Name, host: Host, offset: Uint8, tiers: TierAmounts, r: Reward)
    requires ApplyAll(l, self, host, AccountActions(self, offset, tiers, r)).Success?
    ensures var creator := Asset(CreatorAmount(r.tier, offset), CreatorSymbol);
      var r1 := Issue(l, self, host, self, creator, MintMemo);
      && r1.Success?
      && var r2 := Transfer(r1.value, self, host, self, r.account, creator, CreatorMemo);
      && r2.Success?
      && Transfer(r2.value, self, host, self, r.account, Asset(tiers[r.tier], EosSymbol), EosMemo)
         == ApplyAll(l, self, host, AccountActions(self, offset, tiers, r))
  {
    var acts := AccountActions(self, offset, tiers, r);
    var creator := Asset(CreatorAmount(r.tier, offset), CreatorSymbol);
    var eos := Asset(tiers[r.tier], EosSymbol);
    var r1 := Issue(l, self, host, self, creator, MintMemo);
    assert r1.Success?;
    var m1 := r1.value;
    assert ApplyAll(l, self, host, acts) == ApplyAll(m1, self, host, acts[1..]);
    assert acts[1..][0] == TransferAct(self, r.account, creator, CreatorMemo);
    var r2 := Transfer(m1, self, host, self, r.account, creator, CreatorMemo);
    assert r2.Success?;
    assert ApplyAll(m1, self, host, acts[1..]) == ApplyAll(r2.value, self, host, acts[2..]);
    assert acts[2..] == [TransferAct(self, r.account, eos, EosMemo)];
    ApplyAllOne(r2.value, self, host, TransferAct(self, r.account, eos, EosMemo));
  }

  lemma ApplyAllOne(l: Ledger, self: Name, host: Host, a: Action)
    ensures ApplyAll(l, self, host, [a]) == Apply(l, self, host, a)
  {
    assert [a][1..] == [];
  }

  /** Running a + b runs a, then b on its result. */
  lemma {:induction false} ApplyAllConcat(l: Ledger, self: Name, host: Host, a: seq<Action>, b: seq<Action>)
    ensures ApplyAll(l, self, host, a + b)
            == match ApplyAll(l, self, host, a)
               case Failure(e) => Failure(e)
               case Success(m) => ApplyAll(m, self, host, b)
    decreases |a|
  {
    if a == [] {
      assert a + b == b;
    } else {
      assert (a + b)[0] == a[0] && (a + b)[1..] == a[1..] + b;
      match Apply(l, self, host, a[0])
      case Failure(_) =>
      case Success(l') => ApplyAllConcat(l', self, host, a[1..], b);
    }
  }

  /** The whole queue, when it runs to the end: the CREATOR supply grows by
      everything minted, its issuer stays, no other supply changes, and the
      contract pays none of the rewards to itself. */
  lemma {:induction false} QueueSupplies(l: Ledger, self: Name, host: Host, offset: Uint8, tiers: TierAmounts,
                                         rewards: seq<Reward>, issuer: Name)
    requires ApplyAll(l, self, host, Queue(self, offset, tiers, rewards)).Success?
    requires CreatorCode in l.stats ==> l.stats[CreatorCode].issuer == issuer
    ensures rewards != [] ==> CreatorCode in l.stats
    ensures self !in Payees(rewards)
    ensures var m := ApplyAll(l, self, host, Queue(self, offset, tiers, rewards)).value;
      && (CreatorCode in l.stats ==> CreatorCode in m.stats && m.stats[CreatorCode].issuer == issuer)
      && SupplyOf(m, CreatorCode) == SupplyOf(l, CreatorCode) + Minted(offset, rewards)
      && (forall d | d != CreatorCode :: SupplyOf(m, d) == SupplyOf(l, d))
    decreases |rewards|
  {
    if rewards != [] {
      var head := AccountActions(self, offset, tiers, rewards[0]);
      var tail := Queue(self, offset, tiers, rewards[1..]);
      ApplyAllConcat(l, self, host, head, tail);
      PayOne(l, self, host, offset, tiers, rewards[0]);
      var m1 := ApplyAll(l, self, host, head).value;
      QueueSupplies(m1, self, host, offset, tiers, rewards[1..], issuer);
    }
  }

  /** The whole queue, when it runs to the end: the issuer is credited
      everything minted, the contract pays out all of it and all the EOS, each
      payee receives its rewards, and no other row changes. */
  lemma {:induction false} QueueBalances(l: Ledger, self: Name, host: Host, offset: Uint8, tiers: TierAmounts,
                                         rewards: seq<Reward>, issuer: Name)
    requires ApplyAll(l, self, host, Queue(self, offset, tiers, rewards)).Success?
    requires CreatorCode in l.stats ==> l.stats[CreatorCode].issuer == issuer
    ensures var m := ApplyAll(l, self, host, Queue(self, offset, tiers, rewards)).value;
      var minted := Minted(offset, rewards);
      && (forall o :: Balance(m.balances, o, CreatorCode)
                      == Balance(l.balances, o, CreatorCode) + Gain(o, issuer, minted) + Received(offset, rewards, o) - Gain(o, self, minted))
      && (forall o :: Balance(m.balances, o, EosCode)
                      == Balance(l.balances, o, EosCode) + ReceivedEos(tiers, rewards, o) - Gain(o, self, PaidEos(tiers, rewards)))
      && (forall o, d | d != CreatorCode && d != EosCode :: Balance(m.balances, o, d) == Balance(l.balances, o, d))
      && (forall k: (Name, Code) | k.0 != issuer && k.0 !in Payees(rewards) && k.0 != self :: SameRow(l.balances, m.balances, k))
    decreases |rewards|
  {
    if rewards != [] {
      var head := AccountActions(self, offset, tiers, rewards[0]);
      var tail := Queue(self, offset, tiers, rewards[1..]);
      ApplyAllConcat(l, self, host, head, tail);
      PayOne(l, self, host, offset, tiers, rewards[0]);
      var m1 := ApplyAll(l, self, host, head).value;
      QueueBalances(m1, self, host, offset, tiers, rewards[1..], issuer);
    }
  }

  lemma {:induction false} PayeesConcat(a: seq<Reward>, b: seq<Reward>)
    ensures Payees(a + b) == Payees(a) + Payees(b)
    decreases |a|
  {
    if a == [] {
      assert a + b == b;
    } else {
      assert (a + b)[0] == a[0] && (a + b)[1..] == a[1..] + b;
      PayeesConcat(a[1..], b);
    }
  }

  lemma {:induction false} PayeesOfPositions(accs: seq<Name>, rankIndex: nat)
    requires rankIndex + |accs| <= MaxGroupSize
    ensures Payees(PositionsTiering(accs, rankIndex)) == accs
    decreases |accs|
  {
    if accs != [] {
      PayeesOfPositions(accs[1..], rankIndex + 1);
      var p := PositionsTiering(accs, rankIndex);
      assert p[0] == Reward(accs[0], rankIndex) && p[1..] == PositionsTiering(accs[1..], rankIndex + 1);
    }
  }

  /** The direct tiering pays the batch's accounts, in order. */
  lemma {:induction false} PayeesOfTiering(groups: seq<GroupRanking>)
    requires SizesOk(groups)
    ensures Payees(GroupsTiering(groups)) == Flatten(groups)
    decreases |groups|
  {
    if groups != [] {
      GroupsTieringCons(groups);
      var first := groups[0].ranking;
      PayeesConcat(PositionsTiering(first, MaxGroupSize - |first|), GroupsTiering(groups[1..]));
      PayeesOfPositions(first, MaxGroupSize - |first|);
      PayeesOfTiering(groups[1..]);
    }
  }

  lemma {:induction false} PayeesAt(rewards: seq<Reward>, k: nat)
    requires k < |rewards|
    ensures Payees(rewards)[k] == rewards[k].account
    decreases k
  {
    if k > 0 {
      PayeesAt(rewards[1..], k - 1);
    }
  }

  /** An owner no reward pays receives nothing. */
  lemma {:induction false} ReceivedAbsent(offset: Uint8, tiers: TierAmounts, rewards: seq<Reward>, o: Name)
    requires o !in Payees(rewards)
    ensures Received(offset, rewards, o) == 0 && ReceivedEos(tiers, rewards, o) == 0
    decreases |rewards|
  {
    if rewards != [] {
      ReceivedAbsent(offset, tiers, rewards[1..], o);
    }
  }

  /** When no account is paid twice, the account of reward k receives exactly
      that reward's CREATOR and EOS amounts. */
  lemma {:induction false} ReceivedOnce(offset: Uint8, tiers: TierAmounts, rewards: seq<Reward>, k: nat)
    requires k < |rewards| && Distinct(Payees(rewards))
    ensures Received(offset, rewards, rewards[k].account) == CreatorAmount(rewards[k].tier, offset)
    ensures ReceivedEos(tiers, rewards, rewards[k].account) == tiers[rewards[k].tier]
    decreases k
  {
    var rest := rewards[1..];
    DistinctConcat([rewards[0].account], Payees(rest));
    if k == 0 {
      ReceivedAbsent(offset, tiers, rest, rewards[0].account);
    } else {
      assert rest[k - 1] == rewards[k];
      PayeesAt(rest, k - 1);
      ReceivedOnce(offset, tiers, rest, k - 1);
    }
  }

  /** An accepted submitranks mints the batch's CREATOR amounts: the CREATOR
      supply and the issuer's balance grow by their sum, which the contract
      then pays out; the contract pays out every EOS tier amount; each ranked
      account receives its own amounts; every other supply and every row of
      an owner outside the batch, other than the contract and the issuer, is
      unchanged. The contract itself is never in the batch. */
  lemma SubmitRanksEffect(l: Ledger, self: Name, host: Host, cfg: Option<Rounds.RewardConfig>, tiers: TierAmounts, ranks: AllRankings)
    requires SubmitRanks(l, self, host, cfg, tiers, ranks).Success?
    ensures cfg.Some? && CreatorCode in l.stats && SizesOk(ranks.allRankings)
    ensures var l' := SubmitRanks(l, self, host, cfg, tiers, ranks).value;
      var offset := cfg.value.fibOffset;
      var rewards := GroupsTiering(ranks.allRankings);
      var issuer := l.stats[CreatorCode].issuer;
      var minted := Minted(offset, rewards);
      && self !in Flatten(ranks.allRankings)
      && SupplyOf(l', CreatorCode) == SupplyOf(l, CreatorCode) + minted
      && (forall d | d != CreatorCode :: SupplyOf(l', d) == SupplyOf(l, d))
      && (forall o :: Balance(l'.balances, o, CreatorCode)
                      == Balance(l.balances, o, CreatorCode) + Gain(o, issuer, minted) + Received(offset, rewards, o) - Gain(o, self, minted))
      && (forall o :: Balance(l'.balances, o, EosCode)
                      == Balance(l.balances, o, EosCode) + ReceivedEos(tiers, rewards, o) - Gain(o, self, PaidEos(tiers, rewards)))
      && (forall o, d | d != CreatorCode && d != EosCode :: Balance(l'.balances, o, d) == Balance(l.balances, o, d))
      && (forall k: (Name, Code) | k.0 != issuer && k.0 !in Flatten(ranks.allRankings) && k.0 != self :: SameRow(l.balances, l'.balances, k))
  {
    var groups := ranks.allRankings;
    PlanCorrect(self, host, cfg, tiers, ranks);
    PlanValue(self, host, cfg, tiers, ranks);
    var rewards := GroupsTiering(groups);
    PayeesOfTiering(groups);
    GroupsTieringAt(groups, 0, 0);
    var issuer := if CreatorCode in l.stats then l.stats[CreatorCode].issuer else self;
    QueueSupplies(l, self, InlineHost(self, host), cfg.value.fibOffset, tiers, rewards, issuer);
    QueueBalances(l, self, InlineHost(self, host), cfg.value.fibOffset, tiers, rewards, issuer);
  }

  /** The account at position i of group g of an accepted batch, paid at tier
      6 - size + i, ends with fib(tier + fib_offset) more CREATOR (and, were it
      also the CREATOR issuer, the whole mint besides) and exactly that tier's
      EOS amount more. */
  lemma SubmitRanksPaysPosition(l: Ledger, self: Name, host: Host, cfg: Option<Rounds.RewardConfig>, tiers: TierAmounts,
                                ranks: AllRankings, g: nat, i: nat)
    requires SubmitRanks(l, self, host, cfg, tiers, ranks).Success?
    requires g < |ranks.allRankings| && i < |ranks.allRankings[g].ranking|
    ensures cfg.Some? && CreatorCode in l.stats && SizesOk(ranks.allRankings)
    ensures MinGroupSize <= |ranks.allRankings[g].ranking| <= MaxGroupSize
    ensures var l' := SubmitRanks(l, self, host, cfg, tiers, ranks).value;
      var acc := ranks.allRankings[g].ranking[i];
      var tier := MaxGroupSize - |ranks.allRankings[g].ranking| + i;
      var offset := cfg.value.fibOffset;
      var minted := Minted(offset, GroupsTiering(ranks.allRankings));
      && acc != self
      && Balance(l'.balances, acc, CreatorCode)
         == Balance(l.balances, acc, CreatorCode) + CreatorAmount(tier, offset) + Gain(acc, l.stats[CreatorCode].issuer, minted)
      && Balance(l'.balances, acc, EosCode) == Balance(l.balances, acc, EosCode) + tiers[tier]
  {
    var groups := ranks.allRankings;
    SubmitRanksEffect(l, self, host, cfg, tiers, ranks);
    PlanCorrect(self, host, cfg, tiers, ranks);
    var rewards := GroupsTiering(groups);
    PayeesOfTiering(groups);
    GroupsTieringAt(groups, g, i);
    var k := Before(groups, g) + i;
    PayeesAt(rewards, k);
    ReceivedOnce(cfg.value.fibOffset, tiers, rewards, k);
  }
}
