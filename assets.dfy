/**
 * Account names, symbols and assets as the token contract uses them.
 *
 * These follow the rules of the EOSIO `name`, `symbol` and `asset` types
 * that the contract relies on; the raw 64-bit encodings of names and symbol
 * codes are not modelled, a name and a symbol code are plain strings.
 */
module Assets {

  /** An account name. */
  type Name = string

  /** The alphabetic part of a symbol, e.g. "EOS". */
  type SymbolCode = string

  /** A token symbol: its code and its decimal precision. Two symbols are
      equal only if both parts are equal. */
  datatype Symbol = Symbol(code: SymbolCode, precision: nat)

  /** An amount of a token, in units of its precision. */
  datatype Asset = Asset(amount: int, sym: Symbol)

  /** The largest magnitude an asset amount may have: 2^62 - 1. */
  const MAX_AMOUNT: int := 0x3FFF_FFFF_FFFF_FFFF

  /** Longest memo (in characters) an action accepts. */
  const MAX_MEMO: nat := 256

  /** A symbol code is one to seven upper-case letters. */
  predicate IsValidCode(code: SymbolCode)
  {
    0 < |code| <= 7 && forall ch :: ch in code ==> 'A' <= ch <= 'Z'
  }

  /** A symbol is valid when its code is; the precision is not checked. */
  predicate IsValidSymbol(s: Symbol)
  {
    IsValidCode(s.code)
  }

  /** An asset is valid when its amount is within range and its symbol is valid. */
  predicate IsValidAsset(a: Asset)
  {
    -MAX_AMOUNT <= a.amount <= MAX_AMOUNT && IsValidSymbol(a.sym)
  }
}
