/**
 * Clients of the ledger: short runs of actions on a fresh contract whose
 * outcomes follow from the actions' contracts alone.
 */
module Scenarios {
  import opened Assets
  import opened Tables
  import opened Token

  const CONTRACT: Name := "token"
  const ALICE: Name := "alice"
  const BOB: Name := "bob"
  const TOK: Symbol := Symbol("TOK", 4)

  /** A second create of the same code conflicts; another code is independent. */
  method CreateTwice() returns (first: Outcome, again: Outcome, other: Outcome)
    ensures first == Success
    ensures again == Failure(TokenExists)
    ensures other == Success
  {
    var ledger := new Ledger(CONTRACT);
    first := ledger.Create(ALICE, Asset(1000, TOK), {CONTRACT});
    again := ledger.Create(BOB, Asset(5, Symbol("TOK", 2)), {CONTRACT});
    other := ledger.Create(BOB, Asset(5, Symbol("ABC", 2)), {CONTRACT});
  }

  /** Issuing the whole cap succeeds; one more unit exceeds it. */
  method IssueUpToCap() returns (full: Outcome, supply: int, more: Outcome)
    ensures full == Success && supply == 100
    ensures more == Failure(ExceedsAvailableSupply)
  {
    var ledger := new Ledger(CONTRACT);
    var _ := ledger.Create(ALICE, Asset(100, TOK), {CONTRACT});
    full := ledger.Issue(ALICE, Asset(100, TOK), "", {ALICE});
    supply := ledger.stats[TOK.code].supply.amount;
    more := ledger.Issue(ALICE, Asset(1, TOK), "", {ALICE});
  }

  /** From a holding of 50, sending 30 leaves 20 and 30; sending 60 from the
      same holding fails and moves nothing. */
  method TransferFromFifty() returns (sent: Outcome, left: int, received: int,
                                      tooMuch: Outcome, untouched: bool)
    ensures sent == Success && left == 20 && received == 30
    ensures tooMuch == Failure(InsufficientBalance) && untouched
  {
    var ledger := new Ledger(CONTRACT);
    var _ := ledger.Create(ALICE, Asset(1000, TOK), {CONTRACT});
    var _ := ledger.Issue(ALICE, Asset(50, TOK), "", {ALICE});
    var holding := ledger.accounts;
    tooMuch := ledger.Transfer(ALICE, BOB, Asset(60, TOK), "", {ALICE}, {ALICE, BOB});
    untouched := ledger.accounts == holding;
    sent := ledger.Transfer(ALICE, BOB, Asset(30, TOK), "", {ALICE}, {ALICE, BOB});
    left := BalanceOf(ledger.accounts, BalanceKey(ALICE, TOK.code));
    received := BalanceOf(ledger.accounts, BalanceKey(BOB, TOK.code));
  }

  /** An amount in the right code but the wrong precision is refused. */
  method TransferWrongPrecision() returns (r: Outcome)
    ensures r == Failure(PrecisionMismatch)
  {
    var ledger := new Ledger(CONTRACT);
    var _ := ledger.Create(ALICE, Asset(1000, TOK), {CONTRACT});
    var _ := ledger.Issue(ALICE, Asset(50, TOK), "", {ALICE});
    r := ledger.Transfer(ALICE, BOB, Asset(5, Symbol("TOK", 2)), "", {ALICE}, {ALICE, BOB});
  }

  /** Opening twice is the same as opening once. */
  method OpenTwice() returns (first: Outcome, second: Outcome, balance: int, same: bool)
    ensures first == Success && second == Success
    ensures balance == 0 && same
  {
    var ledger := new Ledger(CONTRACT);
    var _ := ledger.Create(ALICE, Asset(1000, TOK), {CONTRACT});
    first := ledger.Open(BOB, TOK, BOB, {BOB}, {ALICE, BOB});
    var once := ledger.accounts;
    second := ledger.Open(BOB, TOK, BOB, {BOB}, {ALICE, BOB});
    same := ledger.accounts == once;
    balance := BalanceOf(ledger.accounts, BalanceKey(BOB, TOK.code));
  }

  /** A row still holding tokens cannot be closed; once emptied it can, and
      is gone afterwards. */
  method CloseOnlyWhenEmpty() returns (held: Outcome, emptied: Outcome, gone: bool)
    ensures held == Failure(BalanceRemaining)
    ensures emptied == Success && gone
  {
    var ledger := new Ledger(CONTRACT);
    var _ := ledger.Create(ALICE, Asset(1000, TOK), {CONTRACT});
    var _ := ledger.Issue(ALICE, Asset(50, TOK), "", {ALICE});
    held := ledger.Close(ALICE, TOK, {ALICE});
    var _ := ledger.Retire(Asset(50, TOK), "", {ALICE});
    emptied := ledger.Close(ALICE, TOK, {ALICE});
    gone := BalanceKey(ALICE, TOK.code) !in ledger.accounts;
  }

  /** Retiring lowers supply and the issuer's balance together; retiring
      more than the issuer holds fails and leaves the supply as it was. */
  method RetireBeyondHolding() returns (ok: Outcome, supply: int, balance: int,
                                        tooMuch: Outcome, supplyAfter: int)
    ensures ok == Success && supply == 30 && balance == 30
    ensures tooMuch == Failure(InsufficientBalance) && supplyAfter == 30
  {
    var ledger := new Ledger(CONTRACT);
    var _ := ledger.Create(ALICE, Asset(1000, TOK), {CONTRACT});
    var _ := ledger.Issue(ALICE, Asset(50, TOK), "", {ALICE});
    ok := ledger.Retire(Asset(20, TOK), "", {ALICE});
    supply := ledger.stats[TOK.code].supply.amount;
    balance := BalanceOf(ledger.accounts, BalanceKey(ALICE, TOK.code));
    tooMuch := ledger.Retire(Asset(31, TOK), "", {ALICE});
    supplyAfter := ledger.stats[TOK.code].supply.amount;
  }
}
