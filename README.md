# edencreator in Dafny

A model of the `edencreator` EOSIO contract and proofs about it. The contract
has three parts:

- **A two-symbol token ledger.** Its actions are `create`, `issue`, `retire`,
  `transfer`, `open` and `close`, in the style of eosio.token. The symbols are
  CREATOR, the distributed token, and EOS, the reward token; both have
  precision 4.
- **Round bookkeeping.** `startelect` advances a round counter. `rewardamt`
  sets the reward configuration. `submitcons` stores one ranking per
  submitter per round.
- **Reward distribution.** `submitranks` walks a batch of ranked groups.
  Every ranked account is paid a Fibonacci number of CREATOR, which is minted
  to the contract and then sent on, plus an EOS amount chosen by its tier.

The files:

- `base.dfy`: machine integer widths, names and memos, and what the host
  provides (the authorities a transaction carries, the accounts that exist,
  the time). Also the abort reasons and the result types.
- `sums.dfy`: the sum of the values of a finite map.
- `token.dfy`: the ledger as a value, and each ledger action as a function
  from the old ledger to the new ledger or an abort reason. It also holds the
  ledger invariant and the proofs that every action keeps it. The invariant
  is that supply stays within its ceiling, no balance is negative, and for
  every symbol the balances add up to the supply.
- `rounds.dfy`: the election singleton, the reward configuration and the
  consensus table, with their actions and lemmas.
- `distribution.dfy`: `fib` on `uint8_t` and the walk over the batch, in two
  forms:
  - the `PlanRewards` method, with the contract's nested loops and its map
    that counts how often each account is listed;
  - the functions `Plan` and `GroupsTiering` that specify it.

  The file also holds the queue of inline issue/transfer actions and
  `SubmitRanks` on the ledger.
- `contract.dfy`: the contract as a class whose fields are its tables. Each
  action is a method that checks its inputs in the contract's order, writes
  the fields in place, and restores them when a later check aborts the
  transaction. Every action method (`Create`, `Issue`, `Retire`, `Transfer`,
  `Open`, `Close`, `RewardAmt`, `StartElect`, `SubmitCons`, `SubmitRanks`
  and `Dispatch`) is proved equal to the matching function and to keep the
  invariant. The two row helpers `SubBalance` and `AddBalance` are proved
  equal to their functions only: they leave supply and balances apart, and
  the invariant holds again once the action that calls them completes.
  `SubmitRanks` runs the queued actions one by one through `Dispatch`.

An action either succeeds with a new state or aborts, and an aborted action
changes nothing. For the class methods this is stated through `Committed`.

## Model

| member | source | states |
|---|---|---|
| Token.CheckInputs | edencreator.cpp:254-267 | validate_symbol, validate_quantity and validate_memo pass exactly when the symbol is CREATOR,4 or EOS,4, the asset is valid, the amount is positive and the memo has at most 256 bytes |
| Token.AddAsset | edencreator.cpp:289 | asset `+=` succeeds exactly when both symbols agree and the sum stays within ±(2^62 − 1); the sum is then the exact sum |
| Token.SubAsset | edencreator.cpp:75 | asset `-=`: the same two conditions, and the exact difference |
| Token.SubBalance | edencreator.cpp:178-186 | sub_balance succeeds exactly when the owner has a row of that code with at least the amount; only that row changes, and it drops by the amount |
| Token.AddBalance | edencreator.cpp:188-197 | add_balance creates the row if absent or else raises it; the owner's balance grows by exactly the amount and no other row changes |
| Token.Create | edencreator.cpp:45-62 | create succeeds exactly when the contract authorized it, the symbol and maximum supply are valid, the maximum is positive and no stats row exists for the code; it adds exactly that row, with supply 0 and the given maximum and issuer |
| Token.Issue | edencreator.cpp:269-292 | issue succeeds only if `to` is the contract, the contract authorized it, the inputs pass, a stats row exists and the amount fits under max_supply − supply; supply grows by the amount, stays at most max_supply, and the issuer (not `to`) is credited |
| Token.Retire | edencreator.cpp:64-78 | retire succeeds only if the contract authorized it, the inputs pass and the issuer's row holds at least the amount; supply and the issuer's balance both drop by the amount and nothing else changes |
| Token.TransferChecks | edencreator.cpp:80-98 | transfer's checks: CREATOR only moves out of the contract, `from` authorized it, the inputs pass, `from` ≠ `to`, and `to` exists |
| Token.Transfer | edencreator.cpp:80-107 | transfer succeeds only if its checks pass and `from` holds at least the amount; `from` loses exactly the amount, `to` gains exactly the amount (its row created if absent), and the stats and all other rows stay the same |
| Token.Open | edencreator.cpp:109-121 | open succeeds exactly when the payer authorized it, the symbol is accepted, the owner exists and holds no row of the code; it then adds exactly one zero row |
| Token.Close | edencreator.cpp:123-133 | close succeeds exactly when the owner authorized it and holds a row of the code with amount 0; it then deletes exactly that row |
| Token.CirculatingUpdate | edencreator.cpp:178-197 | writing one balance row changes the total held in that code by the new value minus the old one, and leaves every other code alone |
| Token.CirculatingRemove | edencreator.cpp:132 | deleting a row takes its balance out of the total of its code and leaves other codes alone |
| Token.BalancedAfterWrite | edencreator.cpp:75-77 | a row write that moves the supply by the same amount keeps every code's balances equal to its supply |
| Token.BalanceAtMostSupply | edencreator.hpp:59-75 | under the invariant, every balance is between 0 and its code's supply |
| Token.PairAtMostSupply | edencreator.hpp:59-75 | under the invariant, two distinct owners together hold at most the supply |
| Token.EmptyLedgerValid | edencreator.hpp:59-75 | the empty ledger satisfies the invariant |
| Token.CreatePreservesValid | edencreator.cpp:45-62 | create keeps the invariant |
| Token.IssuePreservesValid | edencreator.cpp:269-292 | issue keeps supply ≤ max_supply and balances equal to supply |
| Token.RetirePreservesValid | edencreator.cpp:64-78 | retire keeps the invariant |
| Token.TransferPreservesValid | edencreator.cpp:80-107 | transfer keeps the invariant |
| Token.OpenPreservesValid | edencreator.cpp:109-121 | open keeps the invariant |
| Token.ClosePreservesValid | edencreator.cpp:123-133 | close keeps the invariant |
| Token.IssueSucceedsIff | edencreator.cpp:269-292 | under the invariant, issue succeeds exactly when the contract's own checks pass and the stats symbol matches, so the asset range check never fires |
| Token.RetireSucceedsIff | edencreator.cpp:64-78 | under the invariant, retire succeeds exactly when its checks pass, the stats symbol matches and the issuer holds the amount |
| Token.TransferSucceedsIff | edencreator.cpp:80-107 | under the invariant, transfer succeeds exactly when its checks pass and `from` holds the amount |
| Token.ApplyPreservesValid | edencreator.cpp:45-133 | every ledger action keeps the invariant |
| Token.RunPreservesValid | edencreator.cpp:45-133 | after any sequence of ledger transactions from a valid ledger, the invariant still holds |
| Token.Apply | edencreator.cpp:45-133 | one ledger action dispatched to its handler; `ApplyPreservesValid` states that every one keeps the invariant |
| Token.Run | edencreator.cpp:45-133 | a sequence of single-action transactions, an aborted one leaving the ledger as it was; `RunPreservesValid` states that the invariant survives any such sequence |
| Rounds.StartElect | edencreator.cpp:153-176 | startelect succeeds exactly when an administrator authorized it and electionnr is below UINT64_MAX; electionnr then goes up by exactly one (from 0 if no record existed) and starttime is the current time |
| Rounds.RewardAmt | edencreator.cpp:135-151 | rewardamt succeeds exactly when the contract authorized it |
| Rounds.AdminAuthorized | edencreator.cpp:199-203 | require_admin_auth: some administrator authorized the call; `Rounds.StartElect` states that startelect succeeds only then |
| Rounds.RewardAmtIsUpsert | edencreator.cpp:135-151 | afterwards the config holds exactly (quantity.amount, offset), whatever was configured before |
| Rounds.SubmitCons | edencreator.cpp:205-238 | submitcons succeeds exactly when the submitter authorized it, the group has 4 to 6 accounts that all exist, an election record exists and the submitter has no row this round; it adds exactly one row (rankings, groupnr, submitter) under (electionnr, submitter) |
| Rounds.SubmitConsPreservesTally | edencreator.cpp:205-238 | the consensus table only holds rows of started rounds, each keyed by its own submitter, with group sizes in [4, 6] |
| Rounds.StartElectOpensFreshRound | edencreator.cpp:153-176 | a newly started round has no rows yet, and the table stays valid |
| Rounds.SecondSubmissionRejected | edencreator.cpp:227-237 | a second submission by the same submitter in the same round is rejected |
| Distribution.Fib8IsFibMod256 | edencreator.cpp:36-38 | fib computed on uint8_t equals the Fibonacci number modulo 256 |
| Distribution.Fib8SmallValues | edencreator.cpp:36-38 | fib(0) = 0, fib(1) = 1, fib(7) = 13, fib(13) = 233, and fib(14) wraps to 121 |
| Distribution.Fib8 | edencreator.cpp:36-38 | fib, doubly recursive on uint8_t; `Fib8IsFibMod256` states its value |
| Distribution.CreatorUnitValue | edencreator.hpp:17-19 | one CREATOR is 10^4 raw units |
| Distribution.CreatorAmountIsFib | edencreator.cpp:337-340 | the CREATOR amount for a tier is fib((tier + fib_offset) mod 256) mod 256 whole tokens, between 0 and 255 tokens |
| Distribution.MemosAreAscii | edencreator.cpp:353-366 | the three queued memos are the contract's texts, each within 256 bytes |
| Distribution.AccountActions | edencreator.cpp:353-366 | the three inline actions for one ranked account; `PayOne` states what they do to the ledger when they all succeed |
| Distribution.Queue | edencreator.cpp:326-370 | the inline actions of the whole batch, three per reward and in the batch's order |
| Distribution.QueueAt | edencreator.cpp:353-366 | reward j is paid by queued actions 3j, 3j + 1 and 3j + 2: the issue, the CREATOR transfer and the EOS transfer |
| Distribution.QueueAppend | edencreator.cpp:353-366 | queueing one more reward appends its three actions |
| Distribution.PlanPositions | edencreator.cpp:331-369 | the walk over one group, with the contract's checks in order; `PlanPositionsCorrect` states when it succeeds and what it returns |
| Distribution.PlanGroups | edencreator.cpp:326-370 | the walk over all groups; `PlanGroupsCorrect` states when it succeeds and what it returns |
| Distribution.Plan | edencreator.cpp:297-370 | the checks of submitranks in the contract's order, then the walk; `PlanCorrect` states when it succeeds and what it returns |
| Distribution.PlanPositionsCorrect | edencreator.cpp:331-369 | one group is accepted exactly when its accounts exist, are not yet listed, are distinct and fit in the tier table; it adds them to the listed set and pays position i at tier rankIndex + i |
| Distribution.PlanGroupsCorrect | edencreator.cpp:326-370 | the walk accepts the groups exactly when every group has 4 to 6 accounts and every account exists and is listed once in the whole batch; the rewards are the direct tiering |
| Distribution.PlanCorrect | edencreator.cpp:294-335 | the checks of submitranks pass exactly when the contract authorized it, the reward config exists, there are at least two groups, all six tier amounts are positive and the batch is valid; the rewards are then GroupsTiering of the batch |
| Distribution.PlanNeverOutOfRange | edencreator.cpp:360-362 | the "Shouldn't happen" tier check never fires |
| Distribution.GroupsTieringAt | edencreator.cpp:331-368 | the account at position i of group g is reward number Before(g) + i, at tier 6 − size + i |
| Distribution.PlanRewards | edencreator.cpp:297-370 | the loops over the tier table, the groups and their accounts, with the listing counts, abort with the same reason as Plan; otherwise they queue exactly the actions of Plan's rewards |
| Distribution.PositionPaid | edencreator.cpp:331-368 | in an accepted batch, position i of group g gets fib(6 − size + i + fib_offset) CREATOR minted to the contract and sent to it, then the EOS amount of tier 6 − size + i |
| Distribution.SubmitRanksNeedsValidBatch | edencreator.cpp:294-335 | submitranks changes the ledger only for a batch that passes every check |
| Distribution.SubmitRanksPreservesValid | edencreator.cpp:294-371 | submitranks keeps the ledger invariant |
| Distribution.ApplyAll | edencreator.cpp:240-252 | the queued inline actions run in order, the first failure aborting all of them; `ApplyAllConcat` and `QueueSupplies`/`QueueBalances` state its effect |
| Distribution.ApplyAllConcat | edencreator.cpp:240-252 | running two queues one after the other is running their concatenation |
| Distribution.SubmitRanks | edencreator.cpp:294-371 | submitranks on the ledger; `SubmitRanksEffect` and `SubmitRanksPaysPosition` state its effect on balances and supplies |
| Distribution.IssueEffect | edencreator.cpp:269-292 | a successful issue raises its code's supply and the issuer's balance by the amount, keeps the issuer, and changes no other supply and no row of any other owner |
| Distribution.TransferEffect | edencreator.cpp:80-107 | a successful transfer moves the amount from `from` to `to` (which differ), changes no stats and no row of any other owner |
| Distribution.AccountActionsRun | edencreator.cpp:353-366 | the three actions for one account succeed only if the issue, the CREATOR transfer and the EOS transfer each succeed in turn |
| Distribution.PayOne | edencreator.cpp:353-366 | after one account's three actions: the account is not the contract; the issuer gains and the contract first gains then pays the CREATOR amount to the account; the contract pays the account its EOS tier amount; the CREATOR supply grows by the amount; nothing else changes |
| Distribution.QueueSupplies | edencreator.cpp:326-370 | after the whole queue, the CREATOR supply has grown by the sum of all CREATOR amounts, its issuer is unchanged, every other supply is unchanged, and no reward is paid to the contract |
| Distribution.QueueBalances | edencreator.cpp:326-370 | after the whole queue, each owner's CREATOR balance has gained the mint if it is the issuer and what the rewards send it, less the mint if it is the contract; its EOS balance likewise, less all EOS paid if it is the contract; other codes and the rows of every other owner are unchanged |
| Distribution.PayeesOfTiering | edencreator.cpp:326-370 | the rewards pay exactly the batch's accounts, in order |
| Distribution.ReceivedOnce | edencreator.cpp:331-369 | when no account is listed twice, each payee receives exactly its own reward's CREATOR and EOS amounts |
| Distribution.SubmitRanksEffect | edencreator.cpp:294-371 | an accepted submitranks: the contract is not in the batch; the CREATOR supply grows by the sum of the CREATOR amounts and every other supply (EOS among them) is unchanged; each owner's balances change as QueueBalances says; rows of owners outside the batch, other than the contract and the CREATOR issuer, are unchanged |
| Distribution.SubmitRanksPaysPosition | edencreator.cpp:331-368 | in an accepted batch, the account at position i of group g ends with exactly fib(6 − size + i + fib_offset) more CREATOR (plus the whole mint, were it also the CREATOR issuer) and exactly the EOS amount of tier 6 − size + i more |
| Distribution.NonPositiveIssueAborts | edencreator.cpp:353 | a queued issue of a non-positive amount aborts the whole call |
| Distribution.TierZeroIssuesNothing | edencreator.cpp:337-353 | at fib_offset 0, a reward at tier 0 queues an issue of 0 CREATOR |
| Distribution.FullGroupWithZeroOffsetAborts | edencreator.cpp:331-353 | at fib_offset 0, any batch holding a group of six aborts, because its first account's issue is of fib(0) = 0 |
| Contract.EdenCreator.constructor | edencreator.cpp:42-43 | the contract starts with empty tables and no singletons, and satisfies the invariant |
| Contract.EdenCreator.SubBalance | edencreator.cpp:178-186 | sub_balance in place: the outcome and the new rows are those of Token.SubBalance; an abort leaves the rows as they were |
| Contract.EdenCreator.AddBalance | edencreator.cpp:188-197 | add_balance in place, equal to Token.AddBalance |
| Contract.EdenCreator.Create | edencreator.cpp:45-62 | create in place, equal to Token.Create, keeping the invariant |
| Contract.EdenCreator.Issue | edencreator.cpp:269-292 | issue in place: it writes the supply and then credits the issuer, undoing the supply write if the credit aborts; equal to Token.Issue, and it keeps the invariant |
| Contract.EdenCreator.Retire | edencreator.cpp:64-78 | retire in place, with the same undo; equal to Token.Retire, keeping the invariant |
| Contract.EdenCreator.Transfer | edencreator.cpp:80-107 | transfer in place: debit then credit, undoing the debit if the credit aborts; equal to Token.Transfer, keeping the invariant |
| Contract.EdenCreator.Open | edencreator.cpp:109-121 | open in place, equal to Token.Open, keeping the invariant |
| Contract.EdenCreator.Close | edencreator.cpp:123-133 | close in place, equal to Token.Close, keeping the invariant |
| Contract.EdenCreator.Dispatch | edencreator.cpp:240-252 | an inline action runs as the matching ledger action |
| Contract.EdenCreator.RewardAmt | edencreator.cpp:135-151 | rewardamt in place: the config becomes the one Rounds.RewardAmt returns; nothing else changes |
| Contract.EdenCreator.StartElect | edencreator.cpp:153-176 | startelect in place: the election record becomes the one Rounds.StartElect returns, or stays as it was on abort |
| Contract.EdenCreator.SubmitCons | edencreator.cpp:205-238 | submitcons in place, with the contract's loop over the ranked accounts; equal to Rounds.SubmitCons, keeping the invariant |
| Contract.EdenCreator.SubmitRanks | edencreator.cpp:294-371 | submitranks in place: it runs PlanRewards, then the queued actions in order, and restores the tables if any of them aborts; equal to Distribution.SubmitRanks, keeping the invariant |

## Left out

- Floating-point tier amounts (edencreator.cpp:308-322): the six EOS tier amounts are an input (`TierAmounts`). The check that all six are positive, and the indexing by tier, are modelled.
- Inline action scheduling (edencreator.cpp:240-252): the queued issue and transfer actions run in order on the same ledger, with the contract's own authority, after the walk. The walk itself writes nothing, so this matches EOSIO running inline actions after the action body.
- `require_recipient` notifications (edencreator.cpp:100-101): host concerns with no effect on the tables.
- RAM payers (edencreator.cpp:103, 120, 185, 193): they decide only who pays for storage. `open` keeps `ram_payer` because it is the account whose authority is required.
- Host capabilities are parameters (`Host`): `require_auth`/`has_auth` are membership in an authority set, `is_account` is membership in an account set, and `current_time_point` is a seconds value. The administrators of `require_admin_auth` are the fixed set {"dan"}.
- `symbol::is_valid` and `asset::is_valid`: simplified to a code of one to seven upper-case letters and an amount within ±(2^62 − 1).
- Names are strings; the base-32 encoding of `eosio::name` is not modelled.
- Memos are byte sequences; only their length matters to the contract.
- Balance rows hold only the amount. Every row is created with one of the two accepted symbols, and the code determines which, so the asset symbol check on a balance row cannot fail and is not modelled. It is modelled on stats rows, whose precision `create` does not restrict.
- Distribution.PlanRewards: it has no "Shouldn't happen" branch (edencreator.cpp:360-362). The branch is kept in `PlanPositions`, and `PlanNeverOutOfRange` proves it unreachable.
- The secondary index `by_secondary` of the consensus table: a lookup key only.
- The unused constants `max_supply`, `eleclimit`, `resTransferMemo`, `pollTransferMemo` and the constructor's datastream.
- Distribution.Fib8: the contract's fib is doubly recursive, so its cost grows exponentially with the index. The host's per-transaction CPU deadline is not modelled: the model computes every index, whereas on the chain submitranks cannot finish once `rankIndex + fib_offset` reaches the mid-30s.
- EOS tier amounts above 2^62 − 1 are admitted as input (`TierAmounts`). The contract aborts on such an amount while building the asset (edencreator.cpp:364); the model aborts later, at the queued transfer's quantity check. submitranks aborts in both, and only the reported reason can differ.

## Behaviour worth noting

The model follows the code in each of these cases:

- `issue` credits the stats row's issuer, not `to`. The two coincide only when the issuer is the contract (edencreator.cpp:291).
- `retire` and `rewardamt` require the contract's own authority, not the issuer's or an administrator's (edencreator.cpp:65, 137).
- `fib` works in `uint8_t`: both the index `rankIndex + fib_offset` and the result wrap modulo 256. For example, fib(14) comes out as 121 (edencreator.cpp:36-38, 337).
- The CREATOR amount at tier 0 with `fib_offset` 0 is fib(0) = 0. `issue` rejects that amount, so any batch with a group of six then aborts (`FullGroupWithZeroOffsetAborts`).
- When the CREATOR issuer is not the contract, each queued issue credits the issuer, and the transfer that follows pays the account out of the contract's own CREATOR balance (`SubmitRanksEffect`). The whole call aborts if that balance runs short.
