/**
 * The two tables of the token contract, the sum of balances per symbol,
 * and the effect of crediting and debiting one balance record.
 */
module Tables {
  import opened Assets

  /** A row of the supply table, one per symbol code. */
  datatype CurrencyStats = CurrencyStats(supply: Asset, maxSupply: Asset, issuer: Name)

  /** A balance row is found by its owner and the symbol code alone. */
  datatype BalanceKey = BalanceKey(owner: Name, code: SymbolCode)

  /** A row of the balance table, with the account that pays for its storage. */
  datatype Account = Account(balance: Asset, ramPayer: Name)

  type StatsTable = map<SymbolCode, CurrencyStats>
  type AccountsTable = map<BalanceKey, Account>

  /** What row `k` holding `a` contributes to the sum of symbol code `c`. */
  function Share(k: BalanceKey, a: Account, c: SymbolCode): (r: int)
  {
    if k.code == c then a.balance.amount else 0
  }

  /** The amount held in row `key`, or 0 when there is no such row. */
  function BalanceOf(m: AccountsTable, key: BalanceKey): (r: int)
  {
    if key in m then m[key].balance.amount else 0
  }

  /** The sum of all balances of symbol code `c`, over every owner. */
  ghost function Total(m: AccountsTable, c: SymbolCode): (r: int)
    decreases |m|
  {
    if m == map[] then 0
    else
      var k :| k in m;
      assert |m - {k}| < |m| by { assert (m - {k}).Keys == m.Keys - {k}; }
      Share(k, m[k], c) + Total(m - {k}, c)
  }

  /** The sum may be taken apart at any row, not only the one Total picks. */
  lemma {:induction false} TotalRemove(m: AccountsTable, k: BalanceKey, c: SymbolCode)
    requires k in m
    ensures Total(m, c) == Share(k, m[k], c) + Total(m - {k}, c)
    decreases |m|
  {
    var j :| j in m && Total(m, c) == Share(j, m[j], c) + Total(m - {j}, c);
    if j != k {
      assert (m - {j}).Keys == m.Keys - {j};
      assert (m - {k}).Keys == m.Keys - {k};
      TotalRemove(m - {j}, k, c);
      TotalRemove(m - {k}, j, c);
      assert m - {j} - {k} == m - {k} - {j};
    }
  }

  /** Writing row `k` changes the sum of each code by the difference of its shares. */
  lemma TotalSet(m: AccountsTable, k: BalanceKey, v: Account)
    ensures forall c :: Total(m[k := v], c)
                        == Total(m, c) - (if k in m then Share(k, m[k], c) else 0) + Share(k, v, c)
  {
    forall c
      ensures Total(m[k := v], c)
              == Total(m, c) - (if k in m then Share(k, m[k], c) else 0) + Share(k, v, c)
    {
      TotalRemove(m[k := v], k, c);
      assert m[k := v] - {k} == m - {k};
      if k in m {
        TotalRemove(m, k, c);
      } else {
        assert m - {k} == m;
      }
    }
  }

  /** Erasing row `k` takes its share out of every sum. */
  lemma TotalErase(m: AccountsTable, k: BalanceKey)
    requires k in m
    ensures forall c :: Total(m - {k}, c) == Total(m, c) - Share(k, m[k], c)
  {
    forall c ensures Total(m - {k}, c) == Total(m, c) - Share(k, m[k], c) {
      TotalRemove(m, k, c);
    }
  }

  /** A code no row carries sums to zero. */
  lemma {:induction false} TotalAbsent(m: AccountsTable, c: SymbolCode)
    requires forall k :: k in m ==> k.code != c
    ensures Total(m, c) == 0
    decreases |m|
  {
    if m != map[] {
      var k :| k in m;
      TotalRemove(m, k, c);
      assert |m - {k}| < |m| by { assert (m - {k}).Keys == m.Keys - {k}; }
      TotalAbsent(m - {k}, c);
    }
  }

  /** Sums of non-negative balances are non-negative. */
  lemma {:induction false} TotalNonNegative(m: AccountsTable, c: SymbolCode)
    requires forall k :: k in m ==> m[k].balance.amount >= 0
    ensures Total(m, c) >= 0
    decreases |m|
  {
    if m != map[] {
      var k :| k in m;
      TotalRemove(m, k, c);
      assert |m - {k}| < |m| by { assert (m - {k}).Keys == m.Keys - {k}; }
      TotalNonNegative(m - {k}, c);
    }
  }

  /** When no balance is negative, no single balance exceeds the sum of its code. */
  lemma BalanceAtMostTotal(m: AccountsTable, k: BalanceKey)
    requires forall j :: j in m ==> m[j].balance.amount >= 0
    requires k in m
    ensures 0 <= m[k].balance.amount <= Total(m, k.code)
  {
    TotalRemove(m, k, k.code);
    TotalNonNegative(m - {k}, k.code);
  }

  /** The table after `add_balance(owner, value, payer)`: the row of
      (owner, value's code) gains `value`, created with `payer` when absent;
      every other row is unchanged. */
  function Credited(m: AccountsTable, owner: Name, value: Asset, payer: Name): (r: AccountsTable)
    ensures r.Keys == m.Keys + {BalanceKey(owner, value.sym.code)}
    ensures BalanceOf(r, BalanceKey(owner, value.sym.code))
            == BalanceOf(m, BalanceKey(owner, value.sym.code)) + value.amount
    ensures BalanceKey(owner, value.sym.code) !in m ==>
              r[BalanceKey(owner, value.sym.code)] == Account(value, payer)
    ensures BalanceKey(owner, value.sym.code) in m ==>
              && r[BalanceKey(owner, value.sym.code)].balance.sym
                 == m[BalanceKey(owner, value.sym.code)].balance.sym
              && r[BalanceKey(owner, value.sym.code)].ramPayer
                 == m[BalanceKey(owner, value.sym.code)].ramPayer
    ensures forall k :: k in m && k != BalanceKey(owner, value.sym.code) ==> r[k] == m[k]
    ensures forall c :: Total(r, c) == Total(m, c) + (if c == value.sym.code then value.amount else 0)
  {
    var key := BalanceKey(owner, value.sym.code);
    var a := if key in m
             then m[key].(balance := Asset(m[key].balance.amount + value.amount, m[key].balance.sym))
             else Account(value, payer);
    TotalSet(m, key, a);
    m[key := a]
  }

  /** The table after a successful `sub_balance(owner, value)`: the row of
      (owner, value's code) loses `value` and its storage is charged to
      `owner`; it cannot go negative; every other row is unchanged. */
  function Debited(m: AccountsTable, owner: Name, value: Asset): (r: AccountsTable)
    requires BalanceKey(owner, value.sym.code) in m
    requires m[BalanceKey(owner, value.sym.code)].balance.amount >= value.amount
    ensures r.Keys == m.Keys
    ensures BalanceOf(r, BalanceKey(owner, value.sym.code))
            == BalanceOf(m, BalanceKey(owner, value.sym.code)) - value.amount
    ensures r[BalanceKey(owner, value.sym.code)].balance.amount >= 0
    ensures r[BalanceKey(owner, value.sym.code)].balance.sym
            == m[BalanceKey(owner, value.sym.code)].balance.sym
    ensures r[BalanceKey(owner, value.sym.code)].ramPayer == owner
    ensures forall k :: k in m && k != BalanceKey(owner, value.sym.code) ==> r[k] == m[k]
    ensures forall c :: Total(r, c) == Total(m, c) - (if c == value.sym.code then value.amount else 0)
  {
    var key := BalanceKey(owner, value.sym.code);
    var a := Account(Asset(m[key].balance.amount - value.amount, m[key].balance.sym), owner);
    TotalSet(m, key, a);
    m[key := a]
  }

  /** A supply row is well formed: its symbol is valid and keyed by its own
      code, supply and maximum share that symbol, and
      0 <= supply <= maximum supply <= MAX_AMOUNT. */
  predicate WellFormedStats(c: SymbolCode, st: CurrencyStats)
  {
    && IsValidSymbol(st.supply.sym)
    && st.supply.sym.code == c
    && st.maxSupply.sym == st.supply.sym
    && 0 <= st.supply.amount <= st.maxSupply.amount <= MAX_AMOUNT
  }

  /** The invariant of the two tables: every supply row is well formed and
      equals the sum of the balances of its code; every balance row is
      non-negative and belongs to a created token with exactly its symbol. */
  ghost predicate Consistent(stats: StatsTable, accounts: AccountsTable)
  {
    && (forall c :: c in stats ==>
          WellFormedStats(c, stats[c]) && stats[c].supply.amount == Total(accounts, c))
    && (forall k :: k in accounts ==>
          && k.code in stats
          && accounts[k].balance.sym == stats[k.code].supply.sym
          && accounts[k].balance.amount >= 0)
  }

  /** Under the invariant no balance exceeds its token's maximum supply, so
      the range checks of asset addition and subtraction cannot fail. */
  lemma BalancesBounded(stats: StatsTable, accounts: AccountsTable)
    requires Consistent(stats, accounts)
    ensures forall k :: k in accounts ==>
              0 <= accounts[k].balance.amount <= stats[k.code].maxSupply.amount <= MAX_AMOUNT
  {
    forall k | k in accounts
      ensures 0 <= accounts[k].balance.amount <= stats[k.code].maxSupply.amount <= MAX_AMOUNT
    {
      BalanceAtMostTotal(accounts, k);
    }
  }
}
