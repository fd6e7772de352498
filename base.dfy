/** Shared vocabulary of the contract model: the machine integer widths the
    contract uses, account names, memos, what the host provides to an action,
    and the ways an action can abort. */
module Base {

  // Machine integer widths, written out because Dafny's int is unbounded.
  type Int64 = x: int | -0x8000_0000_0000_0000 <= x < 0x8000_0000_0000_0000
  type Uint64 = x: int | 0 <= x < 0x1_0000_0000_0000_0000
  type Uint32 = x: int | 0 <= x < 0x1_0000_0000
  type Uint8 = x: int | 0 <= x < 0x100

  const MaxUint64: Uint64 := 0xFFFF_FFFF_FFFF_FFFF

  /** Group-size bounds and the minimum batch size shared by submitcons and submitranks. */
  const MinGroups: nat := 2
  const MinGroupSize: nat := 4
  const MaxGroupSize: nat := 6

  /** An account name; only equality between names matters to the contract. */
  type Name = string

  /** A memo is the byte string the action receives. */
  type Memo = seq<Uint8>

  /** The bytes b are the text s, one byte per character. */
  predicate Spells(b: Memo, s: string)
  {
    |b| == |s| && forall i | 0 <= i < |s| :: b[i] == s[i] as int
  }

  /** What the host tells an action: whose authority the transaction carries
      (require_auth, has_auth), which accounts exist (is_account) and the
      current time in seconds (current_time_point). */
  datatype Host = Host(auths: set<Name>, accounts: set<Name>, now: Uint32)

  /** The reasons an action aborts; each stands for one failing check. */
  datatype Error =
    | MissingAuthority        // require_auth or the admin check failed
    | InvalidSymbolName       // create: the symbol's code is not valid
    | InvalidSupply           // create: the maximum supply is not a valid asset
    | NonPositiveMaxSupply    // create: maximum supply <= 0
    | SymbolExists            // create: a stats row already exists for the code
    | NotToSelf               // issue: tokens can only be issued to the contract
    | SymbolMismatch          // validate_symbol: neither CREATOR nor EOS
    | InvalidQuantity         // validate_quantity: the asset is not valid
    | NonPositiveQuantity     // validate_quantity: amount <= 0
    | MemoTooLong             // validate_memo: more than 256 bytes
    | UnknownSymbol           // no stats row for the symbol's code
    | ExceedsSupply           // issue: amount above max_supply - supply
    | AssetSymbolMismatch     // asset arithmetic on two different symbols
    | AssetOverflow           // asset arithmetic left the valid amount range
    | NoBalanceRow            // sub_balance / close: no row for the owner
    | Overdrawn               // sub_balance: balance below the amount
    | CreatorNotTransferable  // transfer: CREATOR only moves out of the contract
    | TransferToSelf          // transfer: from == to
    | UnknownAccount          // is_account failed
    | BalanceExists           // open: the owner already holds a row
    | NonZeroBalance          // close: the balance is not zero
    | ElectionOverflow        // startelect: electionnr is at its maximum
    | GroupTooSmall           // fewer than 4 ranked accounts
    | GroupTooBig             // more than 6 ranked accounts
    | NoElection              // submitcons: the election record does not exist
    | AlreadyVoted            // submitcons: the submitter already has a row this round
    | NoRewardConfig          // submitranks: the reward config does not exist
    | TooFewGroups            // submitranks: fewer than 2 groups
    | PoolTooSmall            // submitranks: some tier amount <= 0
    | DuplicateAccount        // submitranks: an account listed more than once
    | TierOutOfRange          // submitranks: rank index beyond the tier table

  datatype Option<T> = None | Some(value: T)

  /** The result of an action on the state: the new state, or the reason it aborted. */
  datatype Result<T> = Success(value: T) | Failure(error: Error)

  /** The outcome of an action as its caller sees it. */
  datatype Outcome = Pass | Fail(error: Error)

  function OutcomeOf<T>(r: Result<T>): (o: Outcome)
    ensures o.Pass? <==> r.Success?
    ensures r.Failure? ==> o == Fail(r.error)
  {
    match r
    case Success(_) => Pass
    case Failure(e) => Fail(e)
  }
}
