/** The two-symbol token ledger of the contract: one stats row per symbol code
    (supply, maximum supply, issuer) and one balance row per (owner, symbol
    code). Each action is a function from the ledger before to the ledger
    after, or to the reason it aborts; an aborted action leaves the ledger as
    it was. */
module Token {
  import opened Base
  import Sums

  type Code = string

  /** A symbol: its ticker code and its decimal precision. */
  datatype Symbol = Symbol(code: Code, precision: Uint8)

  /** A signed fixed-point amount of a symbol. */
  datatype Asset = Asset(amount: Int64, symbol: Symbol)

  const CreatorCode: Code := "CREATOR"
  const EosCode: Code := "EOS"
  /** The distributed token (eden_symbol) and the reward token (poll_symbol), both with precision 4. */
  const CreatorSymbol: Symbol := Symbol(CreatorCode, 4)
  const EosSymbol: Symbol := Symbol(EosCode, 4)

  /** The largest amount a valid asset holds: 2^62 - 1. */
  const MaxAmount: int := 0x3FFF_FFFF_FFFF_FFFF
  const MaxMemoBytes: nat := 256

  /** A symbol code is one to seven upper-case letters. */
  predicate SymbolValid(s: Symbol)
  {
    1 <= |s.code| <= 7 && forall i | 0 <= i < |s.code| :: 'A' <= s.code[i] <= 'Z'
  }

  predicate InRange(x: int)
  {
    -MaxAmount <= x <= MaxAmount
  }

  predicate AssetValid(a: Asset)
  {
    InRange(a.amount) && SymbolValid(a.symbol)
  }

  /** The symbols the ledger actions accept (validate_symbol). */
  predicate Accepted(s: Symbol)
  {
    s == CreatorSymbol || s == EosSymbol
  }

  /** validate_symbol, validate_quantity and validate_memo, in the order the actions run them. */
  function CheckInputs(q: Asset, memo: Memo): (o: Outcome)
    ensures o.Pass? <==> Accepted(q.symbol) && AssetValid(q) && q.amount > 0 && |memo| <= MaxMemoBytes
  {
    if !Accepted(q.symbol) then Fail(SymbolMismatch)
    else if !AssetValid(q) then Fail(InvalidQuantity)
    else if q.amount <= 0 then Fail(NonPositiveQuantity)
    else if |memo| > MaxMemoBytes then Fail(MemoTooLong)
    else Pass
  }

  /** Asset addition: both operands carry the same symbol and the sum stays in range. */
  function AddAsset(a: Asset, b: Asset): (r: Result<Asset>)
    ensures r.Success? <==> a.symbol == b.symbol && InRange(a.amount + b.amount)
    ensures r.Success? ==> r.value.symbol == a.symbol && r.value.amount == a.amount + b.amount
  {
    if a.symbol != b.symbol then Failure(AssetSymbolMismatch)
    else if !InRange(a.amount + b.amount) then Failure(AssetOverflow)
    else Success(Asset(a.amount + b.amount, a.symbol))
  }

  /** Asset subtraction, with the same two checks. */
  function SubAsset(a: Asset, b: Asset): (r: Result<Asset>)
    ensures r.Success? <==> a.symbol == b.symbol && InRange(a.amount - b.amount)
    ensures r.Success? ==> r.value.symbol == a.symbol && r.value.amount == a.amount - b.amount
  {
    if a.symbol != b.symbol then Failure(AssetSymbolMismatch)
    else if !InRange(a.amount - b.amount) then Failure(AssetOverflow)
    else Success(Asset(a.amount - b.amount, a.symbol))
  }

  /** Supply record of one symbol. */
  datatype CurrencyStats = CurrencyStats(supply: Asset, maxSupply: Asset, issuer: Name)

  /** Balance rows, keyed by (owner, symbol code). A row holds only the amount:
      every row is created with one of the two accepted symbols, and the code
      determines which. */
  type Balances = map<(Name, Code), Int64>

  /** The ledger: stats rows keyed by symbol code, and the balance rows. */
  datatype Ledger = Ledger(stats: map<Code, CurrencyStats>, balances: Balances)

  const EmptyLedger: Ledger := Ledger(map[], map[])

  /** The balance of owner in code, 0 when the row is absent. */
  function Balance(b: Balances, owner: Name, c: Code): int
  {
    if (owner, c) in b then b[(owner, c)] else 0
  }

  /** The supply of code, 0 when no stats row exists. */
  function SupplyOf(l: Ledger, c: Code): int
  {
    if c in l.stats then l.stats[c].supply.amount else 0
  }

  /** sub_balance: debit value from the owner's existing row. */
  function SubBalance(b: Balances, owner: Name, value: Asset): (r: Result<Balances>)
    ensures var key := (owner, value.symbol.code);
      r.Success? <==> key in b && b[key] >= value.amount && InRange(b[key] - value.amount)
    ensures var key := (owner, value.symbol.code);
      r.Success? ==>
        && r.value.Keys == b.Keys
        && r.value[key] == b[key] - value.amount
        && r.value - {key} == b - {key}
  {
    var key := (owner, value.symbol.code);
    if key !in b then Failure(NoBalanceRow)
    else if b[key] < value.amount then Failure(Overdrawn)
    else if !InRange(b[key] - value.amount) then Failure(AssetOverflow)
    else Success(b[key := b[key] - value.amount])
  }

  /** add_balance: credit value to the owner, creating the row when it is absent. */
  function AddBalance(b: Balances, owner: Name, value: Asset): (r: Result<Balances>)
    ensures var key := (owner, value.symbol.code);
      r.Success? <==> (key in b ==> InRange(b[key] + value.amount))
    ensures var key := (owner, value.symbol.code);
      r.Success? ==>
        && r.value.Keys == b.Keys + {key}
        && Balance(r.value, owner, value.symbol.code) == Balance(b, owner, value.symbol.code) + value.amount
        && r.value - {key} == b - {key}
  {
    var key := (owner, value.symbol.code);
    if key !in b then Success(b[key := value.amount])
    else if !InRange(b[key] + value.amount) then Failure(AssetOverflow)
    else Success(b[key := b[key] + value.amount])
  }

  /** create: record a new symbol with supply 0. */
  function Create(l: Ledger, self: Name, host: Host, issuer: Name, maxSupply: Asset): (r: Result<Ledger>)
    ensures var sym := maxSupply.symbol;
      r.Success? <==>
        self in host.auths && SymbolValid(sym) && AssetValid(maxSupply) && maxSupply.amount > 0 && sym.code !in l.stats
    ensures var c := maxSupply.symbol.code;
      r.Success? ==>
        && r.value.balances == l.balances
        && r.value.stats.Keys == l.stats.Keys + {c}
        && r.value.stats - {c} == l.stats - {c}
        && r.value.stats[c] == CurrencyStats(Asset(0, maxSupply.symbol), maxSupply, issuer)
  {
    var sym := maxSupply.symbol;
    if self !in host.auths then Failure(MissingAuthority)
    else if !SymbolValid(sym) then Failure(InvalidSymbolName)
    else if !AssetValid(maxSupply) then Failure(InvalidSupply)
    else if maxSupply.amount <= 0 then Failure(NonPositiveMaxSupply)
    else if sym.code in l.stats then Failure(SymbolExists)
    else Success(l.(stats := l.stats[sym.code := CurrencyStats(Asset(0, sym), maxSupply, issuer)]))
  }

  /** issue: mint quantity, crediting the symbol's issuer (not `to`). */
  function Issue(l: Ledger, self: Name, host: Host, to: Name, quantity: Asset, memo: Memo): (r: Result<Ledger>)
    ensures var c := quantity.symbol.code;
      r.Success? ==>
        && to == self && self in host.auths && CheckInputs(quantity, memo).Pass?
        && c in l.stats
        && quantity.amount <= l.stats[c].maxSupply.amount - l.stats[c].supply.amount
    ensures var c := quantity.symbol.code;
      r.Success? ==>
        var st := l.stats[c];
        && r.value.stats.Keys == l.stats.Keys
        && r.value.stats - {c} == l.stats - {c}
        && r.value.stats[c].supply.amount == st.supply.amount + quantity.amount
        && r.value.stats[c].supply.symbol == st.supply.symbol
        && r.value.stats[c] == st.(supply := r.value.stats[c].supply)
        && st.supply.symbol == quantity.symbol
        && SupplyOf(r.value, c) <= st.maxSupply.amount
        && Balance(r.value.balances, st.issuer, c) == Balance(l.balances, st.issuer, c) + quantity.amount
        && r.value.balances.Keys == l.balances.Keys + {(st.issuer, c)}
        && r.value.balances - {(st.issuer, c)} == l.balances - {(st.issuer, c)}
  {
    var c := quantity.symbol.code;
    var v := CheckInputs(quantity, memo);
    if to != self then Failure(NotToSelf)
    else if self !in host.auths then Failure(MissingAuthority)
    else if v.Fail? then Failure(v.error)
    else if c !in l.stats then Failure(UnknownSymbol)
    else
      var st := l.stats[c];
      if quantity.amount > st.maxSupply.amount - st.supply.amount then Failure(ExceedsSupply)
      else match AddAsset(st.supply, quantity)
        case Failure(e) => Failure(e)
        case Success(supply) =>
          match AddBalance(l.balances, st.issuer, quantity)
          case Failure(e) => Failure(e)
          case Success(b) => Success(Ledger(l.stats[c := st.(supply := supply)], b))
  }

  /** retire: burn quantity from the supply and from the issuer's balance. */
  function Retire(l: Ledger, self: Name, host: Host, quantity: Asset, memo: Memo): (r: Result<Ledger>)
    ensures var c := quantity.symbol.code;
      r.Success? ==>
        && self in host.auths && CheckInputs(quantity, memo).Pass? && c in l.stats
        && (l.stats[c].issuer, c) in l.balances
        && l.balances[(l.stats[c].issuer, c)] >= quantity.amount
    ensures var c := quantity.symbol.code;
      r.Success? ==>
        var st := l.stats[c];
        && r.value.stats.Keys == l.stats.Keys
        && r.value.stats - {c} == l.stats - {c}
        && r.value.stats[c].supply.amount == st.supply.amount - quantity.amount
        && r.value.stats[c].supply.symbol == st.supply.symbol
        && r.value.stats[c] == st.(supply := r.value.stats[c].supply)
        && st.supply.symbol == quantity.symbol
        && Balance(r.value.balances, st.issuer, c) == Balance(l.balances, st.issuer, c) - quantity.amount
        && r.value.balances.Keys == l.balances.Keys
        && r.value.balances - {(st.issuer, c)} == l.balances - {(st.issuer, c)}
  {
    var c := quantity.symbol.code;
    var v := CheckInputs(quantity, memo);
    if self !in host.auths then Failure(MissingAuthority)
    else if v.Fail? then Failure(v.error)
    else if c !in l.stats then Failure(UnknownSymbol)
    else
      var st := l.stats[c];
      match SubAsset(st.supply, quantity)
      case Failure(e) => Failure(e)
      case Success(supply) =>
        match SubBalance(l.balances, st.issuer, quantity)
        case Failure(e) => Failure(e)
        case Success(b) => Success(Ledger(l.stats[c := st.(supply := supply)], b))
  }

  /** The checks transfer makes before it touches a balance. */
  function TransferChecks(self: Name, host: Host, from: Name, to: Name, quantity: Asset, memo: Memo): (o: Outcome)
    ensures o.Pass? <==>
      && (quantity.symbol == CreatorSymbol ==> from == self)
      && from in host.auths && CheckInputs(quantity, memo).Pass?
      && from != to && to in host.accounts
  {
    var v := CheckInputs(quantity, memo);
    if quantity.symbol == CreatorSymbol && from != self then Fail(CreatorNotTransferable)
    else if from !in host.auths then Fail(MissingAuthority)
    else if v.Fail? then v
    else if from == to then Fail(TransferToSelf)
    else if to !in host.accounts then Fail(UnknownAccount)
    else Pass
  }

  /** transfer: move quantity from `from` to `to`. */
  function Transfer(l: Ledger, self: Name, host: Host, from: Name, to: Name, quantity: Asset, memo: Memo): (r: Result<Ledger>)
    ensures var c := quantity.symbol.code;
      r.Success? ==>
        && TransferChecks(self, host, from, to, quantity, memo).Pass?
        && (from, c) in l.balances && l.balances[(from, c)] >= quantity.amount
    ensures var c := quantity.symbol.code;
      r.Success? ==>
        && r.value.stats == l.stats
        && Balance(r.value.balances, from, c) == Balance(l.balances, from, c) - quantity.amount
        && Balance(r.value.balances, to, c) == Balance(l.balances, to, c) + quantity.amount
        && r.value.balances.Keys == l.balances.Keys + {(to, c)}
        && r.value.balances - {(from, c), (to, c)} == l.balances - {(from, c), (to, c)}
  {
    var checks := TransferChecks(self, host, from, to, quantity, memo);
    if checks.Fail? then Failure(checks.error)
    else match SubBalance(l.balances, from, quantity)
      case Failure(e) => Failure(e)
      case Success(b1) =>
        match AddBalance(b1, to, quantity)
        case Failure(e) => Failure(e)
        case Success(b2) => Success(l.(balances := b2))
  }

  /** open: add a zero-balance row for owner. */
  function Open(l: Ledger, host: Host, owner: Name, sym: Symbol, ramPayer: Name): (r: Result<Ledger>)
    ensures r.Success? <==>
      ramPayer in host.auths && Accepted(sym) && owner in host.accounts && (owner, sym.code) !in l.balances
    ensures r.Success? ==> r.value == l.(balances := l.balances[(owner, sym.code) := 0])
  {
    if ramPayer !in host.auths then Failure(MissingAuthority)
    else if !Accepted(sym) then Failure(SymbolMismatch)
    else if owner !in host.accounts then Failure(UnknownAccount)
    else if (owner, sym.code) in l.balances then Failure(BalanceExists)
    else Success(l.(balances := l.balances[(owner, sym.code) := 0]))
  }

  /** close: delete owner's row, which must hold zero. */
  function Close(l: Ledger, host: Host, owner: Name, sym: Symbol): (r: Result<Ledger>)
    ensures r.Success? <==>
      owner in host.auths && (owner, sym.code) in l.balances && l.balances[(owner, sym.code)] == 0
    ensures r.Success? ==> r.value == l.(balances := l.balances - {(owner, sym.code)})
  {
    var key := (owner, sym.code);
    if owner !in host.auths then Failure(MissingAuthority)
    else if key !in l.balances then Failure(NoBalanceRow)
    else if l.balances[key] != 0 then Failure(NonZeroBalance)
    else Success(l.(balances := l.balances - {key}))
  }

  // ---------------------------------------------------------------------------
  // The ledger invariant: supply within its ceiling, no negative balance, and
  // for every code the balances add up to the supply.

  /** The owners holding a row of any code. */
  ghost function Owners(b: Balances): set<Name>
  {
    set k | k in b :: k.0
  }

  /** The balances held in code c, by owner. */
  ghost function Holdings(b: Balances, c: Code): map<Name, int>
  {
    map o | o in Owners(b) && (o, c) in b :: b[(o, c)] as int
  }

  ghost function Circulating(l: Ledger, c: Code): int
  {
    Sums.Sum(Holdings(l.balances, c))
  }

  ghost predicate StatsWellFormed(c: Code, st: CurrencyStats)
  {
    && st.maxSupply.symbol.code == c
    && st.supply.symbol == st.maxSupply.symbol
    && 0 <= st.supply.amount <= st.maxSupply.amount <= MaxAmount
  }

  ghost predicate StatsOk(stats: map<Code, CurrencyStats>)
  {
    forall c | c in stats :: StatsWellFormed(c, stats[c])
  }

  /** Every row is non-negative and of one of the two accepted codes. */
  ghost predicate RowsOk(b: Balances)
  {
    forall k | k in b :: b[k] >= 0 && (k.1 == CreatorCode || k.1 == EosCode)
  }

  /** For every code, the balances add up to the supply. */
  ghost predicate Balanced(l: Ledger)
  {
    forall c :: Circulating(l, c) == SupplyOf(l, c)
  }

  ghost predicate Valid(l: Ledger)
  {
    StatsOk(l.stats) && RowsOk(l.balances) && Balanced(l)
  }

  lemma HoldingsUpdateSame(b: Balances, owner: Name, c: Code, v: Int64)
    ensures Holdings(b[(owner, c) := v], c) == Holdings(b, c)[owner := v]
  {
    var b' := b[(owner, c) := v];
    var h, h' := Holdings(b', c), Holdings(b, c)[owner := v];
    forall o ensures o in h <==> o in h' {
      if (o, c) in b' { assert (o, c).0 == o; }
      if (o, c) in b { assert (o, c).0 == o; }
    }
    assert h.Keys == h'.Keys;
  }

  lemma HoldingsUpdateOther(b: Balances, owner: Name, c: Code, v: Int64, d: Code)
    requires d != c
    ensures Holdings(b[(owner, c) := v], d) == Holdings(b, d)
  {
    var b' := b[(owner, c) := v];
    var h, h' := Holdings(b', d), Holdings(b, d);
    forall o ensures o in h <==> o in h' {
      if (o, d) in b' { assert (o, d).0 == o; }
      if (o, d) in b { assert (o, d).0 == o; }
    }
    assert h.Keys == h'.Keys;
  }

  lemma HoldingsRemove(b: Balances, owner: Name, c: Code, d: Code)
    ensures Holdings(b - {(owner, c)}, d) == if d == c then Holdings(b, d) - {owner} else Holdings(b, d)
  {
    var b' := b - {(owner, c)};
    var h := Holdings(b', d);
    var h' := if d == c then Holdings(b, d) - {owner} else Holdings(b, d);
    forall o ensures o in h <==> o in h' {
      if (o, d) in b' { assert (o, d).0 == o; }
      if (o, d) in b { assert (o, d).0 == o; }
    }
    assert h.Keys == h'.Keys;
  }

  /** Writing v into owner's row of code c changes what circulates in c by
      v minus the old balance, and nothing in any other code. */
  lemma CirculatingUpdate(l: Ledger, l': Ledger, owner: Name, c: Code, v: Int64, d: Code)
    requires l'.balances == l.balances[(owner, c) := v]
    ensures Circulating(l', d) == if d == c then Circulating(l, c) - Balance(l.balances, owner, c) + v else Circulating(l, d)
  {
    if d == c {
      var h := Holdings(l.balances, c);
      HoldingsUpdateSame(l.balances, owner, c, v);
      Sums.SumUpdate(h, owner, v);
      if (owner, c) in l.balances { assert (owner, c).0 == owner; }
    } else {
      HoldingsUpdateOther(l.balances, owner, c, v, d);
    }
  }

  /** Deleting owner's row of code c removes its balance from what circulates in c. */
  lemma CirculatingRemove(l: Ledger, l': Ledger, owner: Name, c: Code, d: Code)
    requires l'.balances == l.balances - {(owner, c)}
    ensures Circulating(l', d) == if d == c then Circulating(l, c) - Balance(l.balances, owner, c) else Circulating(l, d)
  {
    HoldingsRemove(l.balances, owner, c, d);
    if d == c {
      Sums.SumRemoveKey(Holdings(l.balances, c), owner);
      if (owner, c) in l.balances { assert (owner, c).0 == owner; }
    }
  }

  /** A write of one row that moves the supply by the same amount keeps the ledger balanced. */
  lemma BalancedAfterWrite(l: Ledger, l': Ledger, owner: Name, c: Code, v: Int64)
    requires Balanced(l) && l'.balances == l.balances[(owner, c) := v]
    requires SupplyOf(l', c) == SupplyOf(l, c) - Balance(l.balances, owner, c) + v
    requires forall d | d != c :: SupplyOf(l', d) == SupplyOf(l, d)
    ensures Balanced(l')
  {
    forall d ensures Circulating(l', d) == SupplyOf(l', d) {
      CirculatingUpdate(l, l', owner, c, v, d);
      assert Circulating(l, d) == SupplyOf(l, d);
    }
  }

  lemma RowsAfterWrite(b: Balances, k: (Name, Code), v: Int64)
    requires RowsOk(b) && v >= 0 && (k.1 == CreatorCode || k.1 == EosCode)
    ensures RowsOk(b[k := v])
  {
  }

  lemma StatsAfterWrite(stats: map<Code, CurrencyStats>, c: Code, st: CurrencyStats)
    requires StatsOk(stats) && StatsWellFormed(c, st)
    ensures StatsOk(stats[c := st])
  {
  }

  /** Writing the stats row of c leaves the supply of every other code alone. */
  lemma SupplyAfterWrite(l: Ledger, l': Ledger, c: Code, st: CurrencyStats)
    requires l'.stats == l.stats[c := st]
    ensures SupplyOf(l', c) == st.supply.amount
    ensures forall d | d != c :: SupplyOf(l', d) == SupplyOf(l, d)
  {
  }

  lemma HoldingsNonNegative(l: Ledger, c: Code)
    requires RowsOk(l.balances)
    ensures Sums.NonNegative(Holdings(l.balances, c))
  {
  }

  /** Under the invariant, no balance of code exceeds its supply. */
  lemma BalanceAtMostSupply(l: Ledger, owner: Name, c: Code)
    requires Valid(l)
    ensures 0 <= Balance(l.balances, owner, c) <= SupplyOf(l, c)
  {
    var h := Holdings(l.balances, c);
    HoldingsNonNegative(l, c);
    Sums.SumNonNegative(h);
    assert Circulating(l, c) == SupplyOf(l, c);
    if (owner, c) in l.balances {
      assert (owner, c).0 == owner;
      Sums.EntryAtMostSum(h, owner);
    }
  }

  /** Under the invariant, two different owners together hold at most the supply. */
  lemma PairAtMostSupply(l: Ledger, a: Name, b: Name, c: Code)
    requires Valid(l) && a != b
    ensures Balance(l.balances, a, c) + Balance(l.balances, b, c) <= SupplyOf(l, c)
  {
    var h := Holdings(l.balances, c);
    HoldingsNonNegative(l, c);
    assert Circulating(l, c) == SupplyOf(l, c);
    if (a, c) in l.balances && (b, c) in l.balances {
      assert (a, c).0 == a && (b, c).0 == b;
      Sums.PairAtMostSum(h, a, b);
    } else {
      BalanceAtMostSupply(l, a, c);
      BalanceAtMostSupply(l, b, c);
    }
  }

  /** The empty ledger satisfies the invariant. */
  lemma EmptyLedgerValid()
    ensures Valid(EmptyLedger)
  {
    forall c ensures Circulating(EmptyLedger, c) == SupplyOf(EmptyLedger, c) {
      assert Holdings(EmptyLedger.balances, c) == map[];
    }
  }

  lemma CreatePreservesValid(l: Ledger, self: Name, host: Host, issuer: Name, maxSupply: Asset)
    requires Valid(l) && Create(l, self, host, issuer, maxSupply).Success?
    ensures Valid(Create(l, self, host, issuer, maxSupply).value)
  {
    var l' := Create(l, self, host, issuer, maxSupply).value;
    var c := maxSupply.symbol.code;
    var st := CurrencyStats(Asset(0, maxSupply.symbol), maxSupply, issuer);
    assert l'.stats == l.stats[c := st];
    StatsAfterWrite(l.stats, c, st);
    SupplyAfterWrite(l, l', c, st);
    forall d ensures Circulating(l', d) == SupplyOf(l', d) {
      assert Circulating(l, d) == SupplyOf(l, d);
    }
  }

  lemma IssuePreservesValid(l: Ledger, self: Name, host: Host, to: Name, quantity: Asset, memo: Memo)
    requires Valid(l) && Issue(l, self, host, to, quantity, memo).Success?
    ensures Valid(Issue(l, self, host, to, quantity, memo).value)
  {
    var l' := Issue(l, self, host, to, quantity, memo).value;
    var c := quantity.symbol.code;
    var st := l.stats[c];
    var key := (st.issuer, c);
    var v: Int64 := Balance(l.balances, st.issuer, c) + quantity.amount;
    var st' := l'.stats[c];
    assert l'.stats == l.stats[c := st'];
    assert l'.balances == l.balances[key := v];
    BalanceAtMostSupply(l, st.issuer, c);
    StatsAfterWrite(l.stats, c, st');
    RowsAfterWrite(l.balances, key, v);
    SupplyAfterWrite(l, l', c, st');
    BalancedAfterWrite(l, l', st.issuer, c, v);
  }

  lemma RetirePreservesValid(l: Ledger, self: Name, host: Host, quantity: Asset, memo: Memo)
    requires Valid(l) && Retire(l, self, host, quantity, memo).Success?
    ensures Valid(Retire(l, self, host, quantity, memo).value)
  {
    var l' := Retire(l, self, host, quantity, memo).value;
    var c := quantity.symbol.code;
    var st := l.stats[c];
    var key := (st.issuer, c);
    var v: Int64 := l.balances[key] - quantity.amount;
    var st' := l'.stats[c];
    assert l'.stats == l.stats[c := st'];
    assert l'.balances == l.balances[key := v];
    BalanceAtMostSupply(l, st.issuer, c);
    StatsAfterWrite(l.stats, c, st');
    RowsAfterWrite(l.balances, key, v);
    SupplyAfterWrite(l, l', c, st');
    BalancedAfterWrite(l, l', st.issuer, c, v);
  }

  lemma TransferPreservesValid(l: Ledger, self: Name, host: Host, from: Name, to: Name, quantity: Asset, memo: Memo)
    requires Valid(l) && Transfer(l, self, host, from, to, quantity, memo).Success?
    ensures Valid(Transfer(l, self, host, from, to, quantity, memo).value)
  {
    var l' := Transfer(l, self, host, from, to, quantity, memo).value;
    var c := quantity.symbol.code;
    var fk, tk := (from, c), (to, c);
    var vf: Int64 := l.balances[fk] - quantity.amount;
    var vt: Int64 := Balance(l.balances, to, c) + quantity.amount;
    var mid := l.(balances := l.balances[fk := vf]);
    assert l'.balances == mid.balances[tk := vt];
    BalanceAtMostSupply(l, to, c);
    RowsAfterWrite(l.balances, fk, vf);
    RowsAfterWrite(mid.balances, tk, vt);
    assert Balance(mid.balances, to, c) == Balance(l.balances, to, c);
    forall d ensures Circulating(l', d) == SupplyOf(l', d) {
      CirculatingUpdate(l, mid, from, c, vf, d);
      CirculatingUpdate(mid, l', to, c, vt, d);
      assert Circulating(l, d) == SupplyOf(l, d);
    }
  }

  lemma OpenPreservesValid(l: Ledger, host: Host, owner: Name, sym: Symbol, ramPayer: Name)
    requires Valid(l) && Open(l, host, owner, sym, ramPayer).Success?
    ensures Valid(Open(l, host, owner, sym, ramPayer).value)
  {
    var l' := Open(l, host, owner, sym, ramPayer).value;
    RowsAfterWrite(l.balances, (owner, sym.code), 0);
    BalancedAfterWrite(l, l', owner, sym.code, 0);
  }

  lemma ClosePreservesValid(l: Ledger, host: Host, owner: Name, sym: Symbol)
    requires Valid(l) && Close(l, host, owner, sym).Success?
    ensures Valid(Close(l, host, owner, sym).value)
  {
    var l' := Close(l, host, owner, sym).value;
    forall d ensures Circulating(l', d) == SupplyOf(l', d) {
      CirculatingRemove(l, l', owner, sym.code, d);
      assert Circulating(l, d) == SupplyOf(l, d);
    }
  }

  // ---------------------------------------------------------------------------
  // Under the invariant the asset range checks never fire, so each action
  // succeeds exactly when the contract's own checks pass.

  lemma IssueSucceedsIff(l: Ledger, self: Name, host: Host, to: Name, quantity: Asset, memo: Memo)
    requires Valid(l)
    ensures var c := quantity.symbol.code;
      Issue(l, self, host, to, quantity, memo).Success? <==>
        && to == self && self in host.auths && CheckInputs(quantity, memo).Pass?
        && c in l.stats
        && quantity.amount <= l.stats[c].maxSupply.amount - l.stats[c].supply.amount
        && l.stats[c].supply.symbol == quantity.symbol
  {
    var c := quantity.symbol.code;
    if to == self && self in host.auths && CheckInputs(quantity, memo).Pass? && c in l.stats {
      var st := l.stats[c];
      BalanceAtMostSupply(l, st.issuer, c);
    }
  }

  lemma RetireSucceedsIff(l: Ledger, self: Name, host: Host, quantity: Asset, memo: Memo)
    requires Valid(l)
    ensures var c := quantity.symbol.code;
      Retire(l, self, host, quantity, memo).Success? <==>
        && self in host.auths && CheckInputs(quantity, memo).Pass?
        && c in l.stats
        && l.stats[c].supply.symbol == quantity.symbol
        && (l.stats[c].issuer, c) in l.balances
        && l.balances[(l.stats[c].issuer, c)] >= quantity.amount
  {
    var c := quantity.symbol.code;
    if self in host.auths && CheckInputs(quantity, memo).Pass? && c in l.stats {
      var st := l.stats[c];
      BalanceAtMostSupply(l, st.issuer, c);
    }
  }

  lemma TransferSucceedsIff(l: Ledger, self: Name, host: Host, from: Name, to: Name, quantity: Asset, memo: Memo)
    requires Valid(l)
    ensures var c := quantity.symbol.code;
      Transfer(l, self, host, from, to, quantity, memo).Success? <==>
        && TransferChecks(self, host, from, to, quantity, memo).Pass?
        && (from, c) in l.balances && l.balances[(from, c)] >= quantity.amount
  {
    var c := quantity.symbol.code;
    if TransferChecks(self, host, from, to, quantity, memo).Pass? && (from, c) in l.balances {
      PairAtMostSupply(l, from, to, c);
      BalanceAtMostSupply(l, from, c);
      if c in l.stats {
        assert StatsWellFormed(c, l.stats[c]);
      }
    }
  }

  // ---------------------------------------------------------------------------
  // Sequences of actions.

  /** One ledger action, as a transaction submits it. */
  datatype Action =
    | CreateAct(issuer: Name, maxSupply: Asset)
    | IssueAct(to: Name, quantity: Asset, memo: Memo)
    | RetireAct(quantity: Asset, memo: Memo)
    | TransferAct(from: Name, to: Name, quantity: Asset, memo: Memo)
    | OpenAct(owner: Name, sym: Symbol, ramPayer: Name)
    | CloseAct(owner: Name, sym: Symbol)

  function Apply(l: Ledger, self: Name, host: Host, a: Action): Result<Ledger>
  {
    match a
    case CreateAct(issuer, maxSupply) => Create(l, self, host, issuer, maxSupply)
    case IssueAct(to, q, memo) => Issue(l, self, host, to, q, memo)
    case RetireAct(q, memo) => Retire(l, self, host, q, memo)
    case TransferAct(from, to, q, memo) => Transfer(l, self, host, from, to, q, memo)
    case OpenAct(owner, sym, payer) => Open(l, host, owner, sym, payer)
    case CloseAct(owner, sym) => Close(l, host, owner, sym)
  }

  lemma ApplyPreservesValid(l: Ledger, self: Name, host: Host, a: Action)
    requires Valid(l) && Apply(l, self, host, a).Success?
    ensures Valid(Apply(l, self, host, a).value)
  {
    match a
    case CreateAct(issuer, maxSupply) => CreatePreservesValid(l, self, host, issuer, maxSupply);
    case IssueAct(to, q, memo) => IssuePreservesValid(l, self, host, to, q, memo);
    case RetireAct(q, memo) => RetirePreservesValid(l, self, host, q, memo);
    case TransferAct(from, to, q, memo) => TransferPreservesValid(l, self, host, from, to, q, memo);
    case OpenAct(owner, sym, payer) => OpenPreservesValid(l, host, owner, sym, payer);
    case CloseAct(owner, sym) => ClosePreservesValid(l, host, owner, sym);
  }

  /** A sequence of transactions, each one action: an aborted one changes nothing. */
  function Run(l: Ledger, self: Name, txs: seq<(Host, Action)>): Ledger
    decreases |txs|
  {
    if txs == [] then l
    else
      var r := Apply(l, self, txs[0].0, txs[0].1);
      Run(if r.Success? then r.value else l, self, txs[1..])
  }

  /** Supply within its ceiling, no negative balance and balances adding up to
      supply hold after any sequence of transactions from a valid ledger. */
  lemma {:induction false} RunPreservesValid(l: Ledger, self: Name, txs: seq<(Host, Action)>)
    requires Valid(l)
    ensures Valid(Run(l, self, txs))
    decreases |txs|
  {
    if txs != [] {
      var r := Apply(l, self, txs[0].0, txs[0].1);
      if r.Success? {
        ApplyPreservesValid(l, self, txs[0].0, txs[0].1);
      }
      RunPreservesValid(if r.Success? then r.value else l, self, txs[1..]);
    }
  }
}
