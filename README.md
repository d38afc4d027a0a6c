# eosio.token-style ledger in Dafny

This project models the `token` contract in `contract/token.xakti.cpp`. It is a
multi-asset fungible-token ledger in the style of EOSIO `eosio.token`, with two
tables:

- the supply table (`Stats`): one row per symbol code, holding `supply`,
  `max_supply` and `issuer`;
- the balance table (`Accounts`): one row per owner and symbol code, holding
  `balance`.

Six actions update the tables in place: `create`, `issue`, `retire`,
`transfer`, `open` and `close`. Two internal helpers change balances:
`add_balance` and `sub_balance`.

Layout:

- `assets.dfy` (module `Assets`): names, symbols, assets, `MAX_AMOUNT`
  (2^62 - 1), the memo bound (256) and the EOSIO validity rules for symbols and
  assets.
- `tables.dfy` (module `Tables`): the row types and the sum of balances per
  symbol code (`Total`). It also holds the effect of a credit (`Credited`) and
  of a debit (`Debited`) on the balance table, and the table invariant
  `Consistent`. Each supply row is well formed and equals the sum of the
  balances of its code. Each balance row is non-negative and carries its
  token's exact symbol.
- `token.dfy` (module `Token`): the class `Ledger`, whose fields `stats` and
  `accounts` are the two tables. It has one method per action and per helper,
  each written as the contract's ordered list of checks followed by its table
  updates. Each of the six action methods states its whole new state, keeps
  `Valid()` (the table invariant) and leaves both tables unchanged on failure.
  The two helper methods state only their effect on the balance table:
  `AddBalance` has no failure path, and `SubBalance` leaves the table unchanged
  when it fails. Beside the class are the pure "verdict" functions, one per
  action. Each one gives the first failing check in the contract's order.
  There is also one lemma per action (`CreatePreservesConsistency` through
  `ClosePreservesConsistency`) proving that its table updates keep the
  invariant.
- `scenarios.dfy` (module `Scenarios`): short clients that build a fresh
  ledger, apply a few actions and prove the outcomes from the contracts alone.

The host environment is supplied as parameters:

- `auth` is the set of accounts that signed the action. It stands for
  `require_auth` and `has_auth`.
- `known` is the set of existing accounts. It stands for `is_account`.
- `self` is the contract's own account. It stands for `get_self`.

A failed `check` aborts the action, and the host discards every table write the
action had made. The model has one action that writes before a check can fail:
`retire` lowers the supply before the issuer's debit is checked. `Retire`
undoes that write when the debit fails, so every action reports failure with
the tables as they were.

Three details of the code the model follows:

- `close` finds the row by symbol code alone, so the precision of its `symbol`
  argument is never compared.
- No symbol precision bound (0–18) is checked anywhere.
- `issue` and `retire` check the memo length before looking up the token.

## Model

| member | source | states |
|---|---|---|
| Tables.Credited | contract/token.xakti.cpp:128-140 | add_balance's effect: the row of (owner, code) gains exactly the credited amount. It is created with the given payer when absent, and keeps its symbol and payer when present. Every other row is unchanged. The sum for the credited code rises by the amount; the sums of other codes do not change. |
| Tables.Debited | contract/token.xakti.cpp:142-151 | sub_balance's effect, for a row that exists and covers the amount. The row loses exactly the amount, stays non-negative, keeps its symbol and is charged to the owner. Every other row is unchanged. The sum for the code falls by the amount; other sums do not change. |
| Tables.BalancesBounded | contract/token.xakti.cpp:128-151 | Under the table invariant, every balance lies in [0, max_supply of its token] and so within MAX_AMOUNT. The range checks of asset `+=`/`-=` on balances therefore cannot fail. |
| Token.CreateVerdict | contract/token.xakti.cpp:3-13 | create succeeds exactly when the contract signed, max_supply is a valid asset with a positive amount, and no supply row exists for its code. Otherwise the first failing check, in source order, names the error. |
| Token.IssueVerdict | contract/token.xakti.cpp:22-37 | issue succeeds exactly when the quantity is valid, the memo has at most 256 characters, the token exists, `to` is its issuer and signed, the amount is positive, the symbol matches exactly, and the amount is at most max_supply - supply. |
| Token.DebitVerdict | contract/token.xakti.cpp:142-146 | sub_balance succeeds exactly when the row exists and holds at least the amount. Its only errors are "no balance" and "insufficient balance". |
| Token.RetireVerdict | contract/token.xakti.cpp:46-65 | retire succeeds exactly when the quantity is valid, the memo is short enough, the token exists, its issuer signed, the amount is positive and the symbol matches, and the issuer's row exists and covers the amount. |
| Token.TransferVerdict | contract/token.xakti.cpp:68-87 | transfer succeeds exactly when `from` differs from `to`, `from` signed, `to` exists, the token exists, the quantity is valid and positive with the exact symbol, the memo is short enough, and `from`'s row exists and covers the amount. |
| Token.OpenVerdict | contract/token.xakti.cpp:91-99 | open succeeds exactly when ram_payer signed, the owner exists, and the token exists with exactly the given symbol (code and precision). |
| Token.CloseVerdict | contract/token.xakti.cpp:110-115 | close succeeds exactly when the owner signed and the owner's row for the symbol code exists and holds 0. |
| Token.CreatePreservesConsistency | contract/token.xakti.cpp:15-19 | Inserting a zero-supply row for a fresh valid code keeps the invariant: no balance row can carry that code yet, so its sum is 0. |
| Token.IssuePreservesConsistency | contract/token.xakti.cpp:39-43 | Raising the supply and crediting the issuer by the same amount keeps supply == sum of balances. The cap check keeps 0 <= supply <= max_supply. |
| Token.RetirePreservesConsistency | contract/token.xakti.cpp:61-65 | Lowering the supply and debiting the issuer by the same covered amount keeps supply == sum of balances, and the new supply is non-negative. |
| Token.TransferPreservesConsistency | contract/token.xakti.cpp:87-88 | Debiting `from` and crediting `to` with the same amount leaves every sum unchanged and keeps the invariant, including the symbol of a newly created row. |
| Token.OpenPreservesConsistency | contract/token.xakti.cpp:102-107 | Adding a zero balance row with the token's exact symbol, or leaving an existing row alone, keeps the invariant and changes no per-code sum. |
| Token.ClosePreservesConsistency | contract/token.xakti.cpp:113-116 | Erasing a row that holds 0 keeps the invariant and changes no per-code sum. |
| Token.Ledger.AddBalance | contract/token.xakti.cpp:128-140 | The balance table becomes `Credited` of the old one; the supply table is untouched. |
| Token.Ledger.SubBalance | contract/token.xakti.cpp:142-151 | The result is `DebitVerdict` of the old table. On success the table becomes `Debited`; on failure it is unchanged. |
| Token.Ledger.Create | contract/token.xakti.cpp:3-20 | The result is `CreateVerdict`. On success exactly one supply row is added, with supply 0 of the given symbol, the given max_supply and issuer. No balance row changes, and the invariant is kept. |
| Token.Ledger.Issue | contract/token.xakti.cpp:22-44 | The result is `IssueVerdict`. On success the supply and the issuer's balance both grow by exactly the quantity (the row is created if absent), and supply <= max_supply still holds. On failure nothing changes. The invariant is kept. |
| Token.Ledger.Retire | contract/token.xakti.cpp:46-66 | The result is `RetireVerdict`. On success the supply and the issuer's balance both fall by exactly the quantity, and the supply stays >= 0. On failure, including a failed debit after the supply was written, both tables are as before. |
| Token.Ledger.Transfer | contract/token.xakti.cpp:68-89 | The result is `TransferVerdict`, and the supply table never changes. On success `from` loses the quantity and `to` gains it (its row is created if absent, charged to `to` if `to` signed, else to `from`). Every other row is unchanged and every per-code sum is conserved. On failure nothing changes. |
| Token.Ledger.Open | contract/token.xakti.cpp:91-108 | The result is `OpenVerdict`. On success the row exists afterwards; an absent row is created with balance 0 of the symbol and charged to ram_payer, and an existing row is left as it was. Balances and sums never change, so a second open is a no-op. |
| Token.Ledger.Close | contract/token.xakti.cpp:110-117 | The result is `CloseVerdict`. On success exactly that row is erased and a later lookup finds nothing. All other rows and every sum are unchanged. On failure nothing changes. |
| Scenarios.CreateTwice | contract/token.xakti.cpp:11-13 | A second create of the same code fails with "token exists", whatever its precision; a different code succeeds independently. |
| Scenarios.IssueUpToCap | contract/token.xakti.cpp:37-40 | With max_supply 100, issuing 100 succeeds and sets supply to 100; issuing 1 more fails on the cap. |
| Scenarios.TransferFromFifty | contract/token.xakti.cpp:87-88 | Alice holds 50. Sending 60 fails on insufficient balance and changes nothing; sending 30 leaves Alice 20 and Bob 30. |
| Scenarios.TransferWrongPrecision | contract/token.xakti.cpp:82 | A quantity with the token's code but another precision is refused and never coerced. |
| Scenarios.OpenTwice | contract/token.xakti.cpp:102-107 | Opening the same row twice succeeds both times; the second call changes nothing and the balance is 0. |
| Scenarios.CloseOnlyWhenEmpty | contract/token.xakti.cpp:113-116 | Closing a row that holds tokens fails; after it is emptied, close succeeds and the row is gone. |
| Scenarios.RetireBeyondHolding | contract/token.xakti.cpp:61-65 | Retiring 20 of 50 leaves supply and balance at 30. Retiring 31 then fails on insufficient balance, and the supply stays 30. |

## Left out

- Authorization and account existence (`require_auth`, `has_auth`, `is_account`) are host calls. They are the parameters `auth` and `known`, and `get_self` is the constant `self`.
- `require_recipient` notifications in transfer are left out: they have no effect on the tables.
- The storage payer of supply rows is always the contract, so it is not recorded. Balance rows record theirs (`ramPayer`). Resource accounting itself is not modelled.
- The internals of `multi_index`, and the raw 64-bit encodings of `name` and `symbol_code`, live in EOSIO headers that are not part of this model. Names and codes are strings, and account names are not checked for form.
- Symbol validity follows EOSIO's `symbol_code` rule (one to seven upper-case letters). Precision is an unbounded natural number, not an 8-bit field.
- The range and symbol asserts inside asset `+=`/`-=` are not failure paths of the model, because they cannot fire from these actions while the invariant holds. The range asserts are covered by `Tables.BalancesBounded` and by the supply-range asserts in `Token.Ledger.Issue` and `Token.Ledger.Retire`. The symbol asserts are covered by the second clause of `Tables.Consistent`: every balance row carries its token's supply symbol. `Token.Ledger.Issue`, `Token.Ledger.Retire` and `Token.Ledger.Transfer` assert that the rows they credit or debit carry the quantity's symbol.
- Memo length is counted in characters; the contract counts bytes of the string.
- The commented-out `closesupply` action is disabled in the source and is not modelled.
