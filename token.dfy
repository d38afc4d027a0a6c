/**
 * The token contract: a supply table and a balance table, updated in place
 * by the actions create, issue, retire, transfer, open and close.
 *
 * The host's authorization and account lookups are parameters: `auth` is
 * the set of accounts that signed the action (require_auth, has_auth) and
 * `known` the set of existing accounts (is_account). A failed check aborts
 * the action and the host discards what it had written; every action here
 * therefore reports a failure with both tables as they were.
 */
module Token {
  import opened Assets
  import opened Tables

  /** The reason an action aborts, one per check of the contract. */
  datatype Error =
    | MissingAuthority(account: Name)   // the named account did not sign
    | InvalidSymbol                     // symbol code is not 1..7 upper-case letters
    | InvalidMaxSupply                  // maximum supply out of range
    | MaxSupplyNotPositive
    | TokenExists                       // a supply row for the code already exists
    | TokenNotFound                     // no supply row for the code
    | NotIssuer                         // issue to an account other than the issuer
    | InvalidQuantity                   // quantity out of range
    | QuantityNotPositive
    | PrecisionMismatch                 // same code, different symbol
    | ExceedsAvailableSupply
    | MemoTooLong
    | SelfTransfer
    | UnknownAccount
    | NoBalance                         // sub_balance: no row to debit
    | InsufficientBalance
    | BalanceNotFound                   // close: no row to erase
    | BalanceRemaining                  // close: row still holds tokens

  datatype Outcome = Success | Failure(error: Error)

  /** The supply row `st` with `delta` added to its supply amount. */
  function WithSupply(st: CurrencyStats, delta: int): (r: CurrencyStats)
  {
    st.(supply := Asset(st.supply.amount + delta, st.supply.sym))
  }

  /** create keeps the invariant: the new token starts with zero supply and
      no balance row can carry its code yet. */
  lemma CreatePreservesConsistency(stats: StatsTable, accounts: AccountsTable, issuer: Name, maximumSupply: Asset)
    requires Consistent(stats, accounts)
    requires IsValidAsset(maximumSupply) && maximumSupply.amount > 0
    requires maximumSupply.sym.code !in stats
    ensures Consistent(stats[maximumSupply.sym.code :=
                               CurrencyStats(Asset(0, maximumSupply.sym), maximumSupply, issuer)], accounts)
  {
    TotalAbsent(accounts, maximumSupply.sym.code);
  }

  /** issue keeps the invariant: supply and the issuer's balance grow by the
      same amount, and the cap check keeps supply within its maximum. */
  lemma IssuePreservesConsistency(stats: StatsTable, accounts: AccountsTable, quantity: Asset)
    requires Consistent(stats, accounts)
    requires quantity.sym.code in stats
    requires quantity.sym == stats[quantity.sym.code].supply.sym
    requires 0 < quantity.amount
    requires quantity.amount <= stats[quantity.sym.code].maxSupply.amount - stats[quantity.sym.code].supply.amount
    ensures Consistent(stats[quantity.sym.code := WithSupply(stats[quantity.sym.code], quantity.amount)],
                       Credited(accounts, stats[quantity.sym.code].issuer, quantity, stats[quantity.sym.code].issuer))
  {
  }

  /** retire keeps the invariant: supply and the issuer's balance shrink by
      the same amount, and the balance check keeps both non-negative. */
  lemma RetirePreservesConsistency(stats: StatsTable, accounts: AccountsTable, quantity: Asset)
    requires Consistent(stats, accounts)
    requires quantity.sym.code in stats
    requires quantity.sym == stats[quantity.sym.code].supply.sym
    requires BalanceKey(stats[quantity.sym.code].issuer, quantity.sym.code) in accounts
    requires accounts[BalanceKey(stats[quantity.sym.code].issuer, quantity.sym.code)].balance.amount
             >= quantity.amount
    requires 0 < quantity.amount
    ensures Consistent(stats[quantity.sym.code := WithSupply(stats[quantity.sym.code], -quantity.amount)],
                       Debited(accounts, stats[quantity.sym.code].issuer, quantity))
    ensures 0 <= stats[quantity.sym.code].supply.amount - quantity.amount
  {
    var c := quantity.sym.code;
    var issuer := stats[c].issuer;
    var stats' := stats[c := WithSupply(stats[c], -quantity.amount)];
    var accounts' := Debited(accounts, issuer, quantity);
    forall k | k in accounts'
      ensures k.code in stats' && accounts'[k].balance.sym == stats'[k.code].supply.sym
              && accounts'[k].balance.amount >= 0
    {
      if k != BalanceKey(issuer, c) {
        assert accounts'[k] == accounts[k];
      }
    }
    TotalNonNegative(accounts', c);
  }

  /** transfer keeps the invariant: the debit and the credit cancel out in
      every sum, and the credited row carries the token's own symbol. */
  lemma TransferPreservesConsistency(stats: StatsTable, accounts: AccountsTable,
                                     from: Name, to: Name, quantity: Asset, payer: Name)
    requires Consistent(stats, accounts)
    requires quantity.sym.code in stats
    requires quantity.sym == stats[quantity.sym.code].supply.sym
    requires BalanceKey(from, quantity.sym.code) in accounts
    requires accounts[BalanceKey(from, quantity.sym.code)].balance.amount >= quantity.amount
    requires 0 < quantity.amount
    ensures Consistent(stats, Credited(Debited(accounts, from, quantity), to, quantity, payer))
    ensures forall c :: Total(Credited(Debited(accounts, from, quantity), to, quantity, payer), c)
                        == Total(accounts, c)
  {
  }

  /** open keeps the invariant: an empty row with the token's own symbol
      adds nothing to any sum, and an existing row is left alone. */
  lemma OpenPreservesConsistency(stats: StatsTable, accounts: AccountsTable,
                                 owner: Name, symbol: Symbol, ramPayer: Name)
    requires Consistent(stats, accounts)
    requires symbol.code in stats
    requires stats[symbol.code].supply.sym == symbol
    ensures var withRow := if BalanceKey(owner, symbol.code) in accounts then accounts
                           else accounts[BalanceKey(owner, symbol.code) := Account(Asset(0, symbol), ramPayer)];
            && Consistent(stats, withRow)
            && forall c :: Total(withRow, c) == Total(accounts, c)
  {
    var key := BalanceKey(owner, symbol.code);
    if key !in accounts {
      TotalSet(accounts, key, Account(Asset(0, symbol), ramPayer));
    }
  }

  /** close keeps the invariant: erasing a row that holds 0 changes no sum. */
  lemma ClosePreservesConsistency(stats: StatsTable, accounts: AccountsTable, key: BalanceKey)
    requires Consistent(stats, accounts)
    requires key in accounts
    requires accounts[key].balance.amount == 0
    ensures Consistent(stats, accounts - {key})
    ensures forall c :: Total(accounts - {key}, c) == Total(accounts, c)
  {
    TotalErase(accounts, key);
  }

  /** The checks of create, in the contract's order: the first that fails
      decides the error. */
  function CreateVerdict(self: Name, maximumSupply: Asset, auth: set<Name>, stats: StatsTable): (r: Outcome)
    ensures r.Success? <==>
              && self in auth
              && IsValidAsset(maximumSupply)
              && maximumSupply.amount > 0
              && maximumSupply.sym.code !in stats
  {
    if self !in auth then Failure(MissingAuthority(self))
    else if !IsValidSymbol(maximumSupply.sym) then Failure(InvalidSymbol)
    else if !IsValidAsset(maximumSupply) then Failure(InvalidMaxSupply)
    else if maximumSupply.amount <= 0 then Failure(MaxSupplyNotPositive)
    else if maximumSupply.sym.code in stats then Failure(TokenExists)
    else Success
  }

  /** The checks of issue, in the contract's order. */
  function IssueVerdict(to: Name, quantity: Asset, memo: string, auth: set<Name>, stats: StatsTable): (r: Outcome)
    ensures r.Success? <==>
              && IsValidAsset(quantity)
              && |memo| <= MAX_MEMO
              && quantity.sym.code in stats
              && to == stats[quantity.sym.code].issuer
              && to in auth
              && quantity.amount > 0
              && quantity.sym == stats[quantity.sym.code].supply.sym
              && quantity.amount <= stats[quantity.sym.code].maxSupply.amount - stats[quantity.sym.code].supply.amount
  {
    var c := quantity.sym.code;
    if !IsValidSymbol(quantity.sym) then Failure(InvalidSymbol)
    else if |memo| > MAX_MEMO then Failure(MemoTooLong)
    else if c !in stats then Failure(TokenNotFound)
    else if to != stats[c].issuer then Failure(NotIssuer)
    else if stats[c].issuer !in auth then Failure(MissingAuthority(stats[c].issuer))
    else if !IsValidAsset(quantity) then Failure(InvalidQuantity)
    else if quantity.amount <= 0 then Failure(QuantityNotPositive)
    else if quantity.sym != stats[c].supply.sym then Failure(PrecisionMismatch)
    else if quantity.amount > stats[c].maxSupply.amount - stats[c].supply.amount then Failure(ExceedsAvailableSupply)
    else Success
  }

  /** The checks of sub_balance: the row must exist and cover `value`. */
  function DebitVerdict(accounts: AccountsTable, owner: Name, value: Asset): (r: Outcome)
    ensures r.Success? <==>
              && BalanceKey(owner, value.sym.code) in accounts
              && accounts[BalanceKey(owner, value.sym.code)].balance.amount >= value.amount
    ensures r.Failure? ==> r.error == NoBalance || r.error == InsufficientBalance
  {
    var key := BalanceKey(owner, value.sym.code);
    if key !in accounts then Failure(NoBalance)
    else if accounts[key].balance.amount < value.amount then Failure(InsufficientBalance)
    else Success
  }

  /** The checks of retire, in the contract's order, ending with those of
      the debit of the issuer. */
  function RetireVerdict(quantity: Asset, memo: string, auth: set<Name>,
                         stats: StatsTable, accounts: AccountsTable): (r: Outcome)
    ensures r.Success? <==>
              && IsValidAsset(quantity)
              && |memo| <= MAX_MEMO
              && quantity.sym.code in stats
              && stats[quantity.sym.code].issuer in auth
              && quantity.amount > 0
              && quantity.sym == stats[quantity.sym.code].supply.sym
              && BalanceKey(stats[quantity.sym.code].issuer, quantity.sym.code) in accounts
              && accounts[BalanceKey(stats[quantity.sym.code].issuer, quantity.sym.code)].balance.amount
                 >= quantity.amount
  {
    var c := quantity.sym.code;
    if !IsValidSymbol(quantity.sym) then Failure(InvalidSymbol)
    else if |memo| > MAX_MEMO then Failure(MemoTooLong)
    else if c !in stats then Failure(TokenNotFound)
    else if stats[c].issuer !in auth then Failure(MissingAuthority(stats[c].issuer))
    else if !IsValidAsset(quantity) then Failure(InvalidQuantity)
    else if quantity.amount <= 0 then Failure(QuantityNotPositive)
    else if quantity.sym != stats[c].supply.sym then Failure(PrecisionMismatch)
    else DebitVerdict(accounts, stats[c].issuer, quantity)
  }

  /** The checks of transfer, in the contract's order, ending with those of
      the debit of `from`. */
  function TransferVerdict(from: Name, to: Name, quantity: Asset, memo: string, auth: set<Name>,
                           known: set<Name>, stats: StatsTable, accounts: AccountsTable): (r: Outcome)
    ensures r.Success? <==>
              && from != to
              && from in auth
              && to in known
              && quantity.sym.code in stats
              && IsValidAsset(quantity)
              && quantity.amount > 0
              && quantity.sym == stats[quantity.sym.code].supply.sym
              && |memo| <= MAX_MEMO
              && BalanceKey(from, quantity.sym.code) in accounts
              && accounts[BalanceKey(from, quantity.sym.code)].balance.amount >= quantity.amount
  {
    var c := quantity.sym.code;
    if from == to then Failure(SelfTransfer)
    else if from !in auth then Failure(MissingAuthority(from))
    else if to !in known then Failure(UnknownAccount)
    else if c !in stats then Failure(TokenNotFound)
    else if !IsValidAsset(quantity) then Failure(InvalidQuantity)
    else if quantity.amount <= 0 then Failure(QuantityNotPositive)
    else if quantity.sym != stats[c].supply.sym then Failure(PrecisionMismatch)
    else if |memo| > MAX_MEMO then Failure(MemoTooLong)
    else DebitVerdict(accounts, from, quantity)
  }

  /** The checks of open, in the contract's order. */
  function OpenVerdict(owner: Name, symbol: Symbol, ramPayer: Name, auth: set<Name>,
                       known: set<Name>, stats: StatsTable): (r: Outcome)
    ensures r.Success? <==>
              && ramPayer in auth
              && owner in known
              && symbol.code in stats
              && stats[symbol.code].supply.sym == symbol
  {
    if ramPayer !in auth then Failure(MissingAuthority(ramPayer))
    else if owner !in known then Failure(UnknownAccount)
    else if symbol.code !in stats then Failure(TokenNotFound)
    else if stats[symbol.code].supply.sym != symbol then Failure(PrecisionMismatch)
    else Success
  }

  /** The checks of close, in the contract's order; the row is found by
      symbol code alone. */
  function CloseVerdict(owner: Name, symbol: Symbol, auth: set<Name>, accounts: AccountsTable): (r: Outcome)
    ensures r.Success? <==>
              && owner in auth
              && BalanceKey(owner, symbol.code) in accounts
              && accounts[BalanceKey(owner, symbol.code)].balance.amount == 0
  {
    var key := BalanceKey(owner, symbol.code);
    if owner !in auth then Failure(MissingAuthority(owner))
    else if key !in accounts then Failure(BalanceNotFound)
    else if accounts[key].balance.amount != 0 then Failure(BalanceRemaining)
    else Success
  }

  class Ledger {
    /** The contract's own account (get_self). */
    const self: Name
    /** The supply table, keyed by symbol code. */
    var stats: StatsTable
    /** The balance tables of all owners, keyed by (owner, symbol code). */
    var accounts: AccountsTable

    ghost predicate Valid()
      reads this
    {
      Consistent(stats, accounts)
    }

    constructor (self: Name)
      ensures this.self == self
      ensures stats == map[] && accounts == map[]
      ensures Valid()
    {
      this.self := self;
      stats := map[];
      accounts := map[];
    }

    /** add_balance: credit `value` to `owner`, creating the row charged to
        `ramPayer` when there is none. */
    method AddBalance(owner: Name, value: Asset, ramPayer: Name)
      modifies this
      ensures stats == old(stats)
      ensures accounts == Credited(old(accounts), owner, value, ramPayer)
    {
      var key := BalanceKey(owner, value.sym.code);
      if key !in accounts {
        accounts := accounts[key := Account(value, ramPayer)];
      } else {
        var a := accounts[key];
        accounts := accounts[key := a.(balance := Asset(a.balance.amount + value.amount, a.balance.sym))];
      }
    }

    /** sub_balance: debit `value` from `owner`, failing when the row is
        missing or holds less than `value`. */
    method SubBalance(owner: Name, value: Asset) returns (r: Outcome)
      modifies this
      ensures stats == old(stats)
      ensures r == DebitVerdict(old(accounts), owner, value)
      ensures r.Success? ==> accounts == Debited(old(accounts), owner, value)
      ensures r.Failure? ==> accounts == old(accounts)
    {
      var key := BalanceKey(owner, value.sym.code);
      if key !in accounts {
        return Failure(NoBalance);
      }
      var a := accounts[key];
      if a.balance.amount < value.amount {
        return Failure(InsufficientBalance);
      }
      accounts := accounts[key := Account(Asset(a.balance.amount - value.amount, a.balance.sym), owner)];
      r := Success;
    }

    /** create: register a new token with zero supply. */
    method Create(issuer: Name, maximumSupply: Asset, auth: set<Name>) returns (r: Outcome)
      requires Valid()
      modifies this
      ensures Valid()
      ensures r == CreateVerdict(self, maximumSupply, auth, old(stats))
      ensures accounts == old(accounts)
      ensures stats == if r.Success?
                       then old(stats)[maximumSupply.sym.code :=
                                         CurrencyStats(Asset(0, maximumSupply.sym), maximumSupply, issuer)]
                       else old(stats)
    {
      if self !in auth {
        return Failure(MissingAuthority(self));
      }
      var sym := maximumSupply.sym;
      if !IsValidSymbol(sym) {
        return Failure(InvalidSymbol);
      }
      if !IsValidAsset(maximumSupply) {
        return Failure(InvalidMaxSupply);
      }
      if maximumSupply.amount <= 0 {
        return Failure(MaxSupplyNotPositive);
      }
      if sym.code in stats {
        return Failure(TokenExists);
      }
      CreatePreservesConsistency(stats, accounts, issuer, maximumSupply);
      stats := stats[sym.code := CurrencyStats(Asset(0, sym), maximumSupply, issuer)];
      r := Success;
    }

    /** issue: mint `quantity` into the issuer's own balance. */
    method Issue(to: Name, quantity: Asset, memo: string, auth: set<Name>) returns (r: Outcome)
      requires Valid()
      modifies this
      ensures Valid()
      ensures r == IssueVerdict(to, quantity, memo, auth, old(stats))
      ensures var c := quantity.sym.code;
              r.Success? ==>
                && c in old(stats)
                && stats == old(stats)[c := WithSupply(old(stats)[c], quantity.amount)]
                && stats[c].supply.amount <= stats[c].maxSupply.amount
                && accounts == Credited(old(accounts), to, quantity, to)
      ensures r.Failure? ==> stats == old(stats) && accounts == old(accounts)
    {
      var sym := quantity.sym;
      if !IsValidSymbol(sym) {
        return Failure(InvalidSymbol);
      }
      if |memo| > MAX_MEMO {
        return Failure(MemoTooLong);
      }
      if sym.code !in stats {
        return Failure(TokenNotFound);
      }
      var st := stats[sym.code];
      if to != st.issuer {
        return Failure(NotIssuer);
      }
      if st.issuer !in auth {
        return Failure(MissingAuthority(st.issuer));
      }
      if !IsValidAsset(quantity) {
        return Failure(InvalidQuantity);
      }
      if quantity.amount <= 0 {
        return Failure(QuantityNotPositive);
      }
      if quantity.sym != st.supply.sym {
        return Failure(PrecisionMismatch);
      }
      if quantity.amount > st.maxSupply.amount - st.supply.amount {
        return Failure(ExceedsAvailableSupply);
      }
      // the range check of the asset addition on the supply holds
      assert st.supply.amount + quantity.amount <= MAX_AMOUNT;
      // the symbol check of the asset addition on the issuer's row holds
      assert BalanceKey(st.issuer, sym.code) in accounts ==>
               accounts[BalanceKey(st.issuer, sym.code)].balance.sym == quantity.sym;
      IssuePreservesConsistency(stats, accounts, quantity);
      stats := stats[sym.code := WithSupply(st, quantity.amount)];
      AddBalance(st.issuer, quantity, st.issuer);
      r := Success;
    }

    /** retire: burn `quantity` from the issuer's balance. The supply row is
        written before the debit is checked; when the debit fails the host
        discards that write. */
    method Retire(quantity: Asset, memo: string, auth: set<Name>) returns (r: Outcome)
      requires Valid()
      modifies this
      ensures Valid()
      ensures r == RetireVerdict(quantity, memo, auth, old(stats), old(accounts))
      ensures var c := quantity.sym.code;
              r.Success? ==>
                && c in old(stats)
                && BalanceKey(old(stats)[c].issuer, c) in old(accounts)
                && old(accounts)[BalanceKey(old(stats)[c].issuer, c)].balance.amount >= quantity.amount
                && stats == old(stats)[c := WithSupply(old(stats)[c], -quantity.amount)]
                && stats[c].supply.amount >= 0
                && accounts == Debited(old(accounts), old(stats)[c].issuer, quantity)
      ensures r.Failure? ==> stats == old(stats) && accounts == old(accounts)
    {
      var sym := quantity.sym;
      if !IsValidSymbol(sym) {
        return Failure(InvalidSymbol);
      }
      if |memo| > MAX_MEMO {
        return Failure(MemoTooLong);
      }
      if sym.code !in stats {
        return Failure(TokenNotFound);
      }
      var st := stats[sym.code];
      if st.issuer !in auth {
        return Failure(MissingAuthority(st.issuer));
      }
      if !IsValidAsset(quantity) {
        return Failure(InvalidQuantity);
      }
      if quantity.amount <= 0 {
        return Failure(QuantityNotPositive);
      }
      if quantity.sym != st.supply.sym {
        return Failure(PrecisionMismatch);
      }
      // the range check of the asset subtraction on the supply holds,
      // even when the supply goes below zero before the debit is refused
      assert -MAX_AMOUNT <= st.supply.amount - quantity.amount;
      // the symbol check of the asset subtraction on the issuer's row holds
      assert BalanceKey(st.issuer, sym.code) in accounts ==>
               accounts[BalanceKey(st.issuer, sym.code)].balance.sym == quantity.sym;
      var before := stats;
      stats := stats[sym.code := WithSupply(st, -quantity.amount)];
      r := SubBalance(st.issuer, quantity);
      if r.Failure? {
        // the host rolls back the supply decrement of the aborted action
        stats := before;
        return;
      }
      RetirePreservesConsistency(before, old(accounts), quantity);
      assert accounts == Debited(old(accounts), st.issuer, quantity);
    }

    /** transfer: move `quantity` from `from` to `to`. The new row of `to`,
        if any, is charged to `to` when `to` signed, otherwise to `from`. */
    method Transfer(from: Name, to: Name, quantity: Asset, memo: string, auth: set<Name>, known: set<Name>)
      returns (r: Outcome)
      requires Valid()
      modifies this
      ensures Valid()
      ensures stats == old(stats)
      ensures r == TransferVerdict(from, to, quantity, memo, auth, known, old(stats), old(accounts))
      ensures var c := quantity.sym.code;
              r.Success? ==>
                && BalanceKey(from, c) in old(accounts)
                && old(accounts)[BalanceKey(from, c)].balance.amount >= quantity.amount
                && accounts == Credited(Debited(old(accounts), from, quantity), to, quantity,
                                        if to in auth then to else from)
                && BalanceOf(accounts, BalanceKey(from, c)) == BalanceOf(old(accounts), BalanceKey(from, c)) - quantity.amount
                && BalanceOf(accounts, BalanceKey(to, c)) == BalanceOf(old(accounts), BalanceKey(to, c)) + quantity.amount
                && (forall k :: k in old(accounts) && k != BalanceKey(from, c) && k != BalanceKey(to, c)
                                ==> accounts[k] == old(accounts)[k])
                && (forall c' :: Total(accounts, c') == Total(old(accounts), c'))
      ensures r.Failure? ==> accounts == old(accounts)
    {
      if from == to {
        return Failure(SelfTransfer);
      }
      if from !in auth {
        return Failure(MissingAuthority(from));
      }
      if to !in known {
        return Failure(UnknownAccount);
      }
      var code := quantity.sym.code;
      if code !in stats {
        return Failure(TokenNotFound);
      }
      var st := stats[code];
      if !IsValidAsset(quantity) {
        return Failure(InvalidQuantity);
      }
      if quantity.amount <= 0 {
        return Failure(QuantityNotPositive);
      }
      if quantity.sym != st.supply.sym {
        return Failure(PrecisionMismatch);
      }
      if |memo| > MAX_MEMO {
        return Failure(MemoTooLong);
      }
      // the symbol checks of the asset subtraction and addition on both rows hold
      assert BalanceKey(from, code) in accounts ==> accounts[BalanceKey(from, code)].balance.sym == quantity.sym;
      assert BalanceKey(to, code) in accounts ==> accounts[BalanceKey(to, code)].balance.sym == quantity.sym;
      var payer := if to in auth then to else from;
      r := SubBalance(from, quantity);
      if r.Failure? {
        return;
      }
      AddBalance(to, quantity, payer);
      TransferPreservesConsistency(stats, old(accounts), from, to, quantity, payer);
    }

    /** open: make sure `owner` has a row for `symbol`, creating an empty
        one charged to `ramPayer`; an existing row is left as it is. */
    method Open(owner: Name, symbol: Symbol, ramPayer: Name, auth: set<Name>, known: set<Name>)
      returns (r: Outcome)
      requires Valid()
      modifies this
      ensures Valid()
      ensures stats == old(stats)
      ensures r == OpenVerdict(owner, symbol, ramPayer, auth, known, old(stats))
      ensures r.Success? ==>
                && BalanceKey(owner, symbol.code) in accounts
                && accounts == if BalanceKey(owner, symbol.code) in old(accounts) then old(accounts)
                               else old(accounts)[BalanceKey(owner, symbol.code) := Account(Asset(0, symbol), ramPayer)]
      ensures BalanceOf(accounts, BalanceKey(owner, symbol.code))
              == BalanceOf(old(accounts), BalanceKey(owner, symbol.code))
      ensures forall c :: Total(accounts, c) == Total(old(accounts), c)
      ensures r.Failure? ==> accounts == old(accounts)
    {
      if ramPayer !in auth {
        return Failure(MissingAuthority(ramPayer));
      }
      if owner !in known {
        return Failure(UnknownAccount);
      }
      if symbol.code !in stats {
        return Failure(TokenNotFound);
      }
      if stats[symbol.code].supply.sym != symbol {
        return Failure(PrecisionMismatch);
      }
      OpenPreservesConsistency(stats, accounts, owner, symbol, ramPayer);
      var key := BalanceKey(owner, symbol.code);
      if key !in accounts {
        accounts := accounts[key := Account(Asset(0, symbol), ramPayer)];
      }
      r := Success;
    }

    /** close: erase the empty row of `owner` for the code of `symbol`; the
        precision of `symbol` plays no part in the lookup. */
    method Close(owner: Name, symbol: Symbol, auth: set<Name>) returns (r: Outcome)
      requires Valid()
      modifies this
      ensures Valid()
      ensures stats == old(stats)
      ensures r == CloseVerdict(owner, symbol, auth, old(accounts))
      ensures r.Success? ==>
                && accounts == old(accounts) - {BalanceKey(owner, symbol.code)}
                && BalanceKey(owner, symbol.code) !in accounts
                && (forall c :: Total(accounts, c) == Total(old(accounts), c))
      ensures r.Failure? ==> accounts == old(accounts)
    {
      if owner !in auth {
        return Failure(MissingAuthority(owner));
      }
      var key := BalanceKey(owner, symbol.code);
      if key !in accounts {
        return Failure(BalanceNotFound);
      }
      if accounts[key].balance.amount != 0 {
        return Failure(BalanceRemaining);
      }
      ClosePreservesConsistency(stats, accounts, key);
      accounts := accounts - {key};
      r := Success;
    }
  }
}
