/** The pure parts of TransactionService: the amount arithmetic, the choice
    of balance, the record and response it builds, the lookup of a stored
    record, and the signed sum of an account's records in one currency. */
module TransactionLogic {
  import opened Wrappers
  import opened Entities

  const NO_BALANCE_FOR_CURRENCY := "Account does not have a balance for the current currency"
  const TRANSACTION_NOT_FOUND := "Transaction UUID is not found"
  const TRANSACTION_ID_INCORRECT := "Transaction UUID is incorrect"

  // ---------------------------------------------------------------------
  // calculateNewAmount

  /** The change a direction applies to a balance, as a signed amount. */
  function Signed(amount: real, d: Direction): real {
    if d == IN then amount else -amount
  }

  /** The balance after a transaction: IN adds, any other direction
      subtracts, so the balance moves by exactly the signed amount. */
  function CalculateNewAmount(balanceAmount: real, transactionAmount: real, direction: Direction): (r: real)
    ensures r - balanceAmount == Signed(transactionAmount, direction)
  {
    if direction == IN then balanceAmount + transactionAmount else balanceAmount - transactionAmount
  }

  function Opposite(d: Direction): Direction {
    if d == IN then OUT else IN
  }

  /** IN credits exactly the amount, OUT debits exactly the amount. */
  lemma CalculateNewAmountIsExact(balanceAmount: real, amount: real, d: Direction)
    ensures d == IN ==> CalculateNewAmount(balanceAmount, amount, d) - balanceAmount == amount
    ensures d == OUT ==> balanceAmount - CalculateNewAmount(balanceAmount, amount, d) == amount
  {
  }

  /** A transaction followed by the same amount in the opposite direction
      restores the balance; in particular IN then OUT. */
  lemma OppositeDirectionRestores(balanceAmount: real, amount: real, d: Direction)
    ensures CalculateNewAmount(CalculateNewAmount(balanceAmount, amount, d), amount, Opposite(d)) == balanceAmount
    ensures CalculateNewAmount(CalculateNewAmount(balanceAmount, amount, IN), amount, OUT) == balanceAmount
  {
  }

  // ---------------------------------------------------------------------
  // getBalanceForTransactionCurrency

  /** The position of the first balance in the given currency, as a stream
      filter followed by findFirst finds it. */
  function FirstWithCurrency(balances: seq<Balance>, currency: Currency): (r: Option<nat>)
    ensures r.Some? ==> r.value < |balances| && balances[r.value].currency == currency
    ensures r.Some? ==> forall j :: 0 <= j < r.value ==> balances[j].currency != currency
    ensures r.None? <==> forall j :: 0 <= j < |balances| ==> balances[j].currency != currency
  {
    if |balances| == 0 then None
    else if balances[0].currency == currency then Some(0)
    else match FirstWithCurrency(balances[1..], currency)
      case None => None
      case Some(i) => Some(i + 1)
  }

  /** The balance a request is posted to: the first of the account's balances
      whose currency equals the request's, or TransactionCreateError. */
  function GetBalanceForTransactionCurrency(request: TransactionCreateRequest, account: Account): (r: Result<Balance, Error>)
    ensures r.Ok? <==> exists i :: 0 <= i < |account.balances| && account.balances[i].currency == request.currency
    ensures r.Ok? ==> r.value.currency == request.currency
    ensures r.Ok? ==> exists i :: 0 <= i < |account.balances| && account.balances[i] == r.value
                                  && forall j :: 0 <= j < i ==> account.balances[j].currency != request.currency
    ensures r.Err? ==> r.error == TransactionCreateError(NO_BALANCE_FOR_CURRENCY)
  {
    match FirstWithCurrency(account.balances, request.currency)
    case Some(i) => Ok(account.balances[i])
    case None => Err(TransactionCreateError(NO_BALANCE_FOR_CURRENCY))
  }

  /** The choice of balance looks at currencies only: two lists that agree
      on every currency, whatever their amounts, select the same position. */
  lemma {:induction false} SelectionIgnoresAmounts(xs: seq<Balance>, ys: seq<Balance>, currency: Currency)
    requires |xs| == |ys|
    requires forall i :: 0 <= i < |xs| ==> xs[i].currency == ys[i].currency
    ensures FirstWithCurrency(xs, currency) == FirstWithCurrency(ys, currency)
  {
    if |xs| > 0 && xs[0].currency != currency {
      SelectionIgnoresAmounts(xs[1..], ys[1..], currency);
    }
  }

  /** When an account holds at most one balance per currency, the selected
      balance is the only one in the requested currency. */
  lemma {:induction false} SelectionIsTheOnlyMatch(request: TransactionCreateRequest, account: Account, k: nat)
    requires forall i, j :: 0 <= i < j < |account.balances| ==> account.balances[i].currency != account.balances[j].currency
    requires k < |account.balances| && account.balances[k].currency == request.currency
    ensures GetBalanceForTransactionCurrency(request, account) == Ok(account.balances[k])
  {
    var r := FirstWithCurrency(account.balances, request.currency);
    assert r.Some? && account.balances[r.value].currency == request.currency;
  }

  // ---------------------------------------------------------------------
  // doTransaction (the record written) and createResponse

  /** The record written to the transaction log: the account's own id, the
      request's currency, amount, direction text and description, and no
      balance snapshot. */
  function PersistedRecord(request: TransactionCreateRequest, transactionId: Uuid, account: Account): (r: Transaction)
    ensures r.transactionId == transactionId && r.accountId == account.id
    ensures r.amount == request.amount && r.currency == request.currency && r.description == request.description
    ensures ParseDirection(r.direction) == Some(request.direction)
    ensures r.balanceAmount.None?
  {
    Transaction(transactionId, account.id, request.amount, request.currency,
                DirectionName(request.direction), request.description, None)
  }

  /** The Transaction returned to the caller: the request's account id and
      the new balance amount. */
  function CreateResponse(request: TransactionCreateRequest, transactionId: Uuid, newBalanceAmount: real): (r: Transaction)
    ensures r.transactionId == transactionId && r.accountId == request.accountId
    ensures r.amount == request.amount && r.currency == request.currency && r.description == request.description
    ensures ParseDirection(r.direction) == Some(request.direction)
    ensures r.balanceAmount == Some(newBalanceAmount)
  {
    Transaction(transactionId, request.accountId, request.amount, request.currency,
                DirectionName(request.direction), request.description, Some(newBalanceAmount))
  }

  /** The response is the stored record with the request's account id and the
      new balance amount put in: the two agree on every other field, and the
      record never carries the snapshot. */
  lemma ResponseMirrorsRecord(request: TransactionCreateRequest, transactionId: Uuid, account: Account, newBalanceAmount: real)
    ensures CreateResponse(request, transactionId, newBalanceAmount)
         == PersistedRecord(request, transactionId, account).(accountId := request.accountId, balanceAmount := Some(newBalanceAmount))
    ensures PersistedRecord(request, transactionId, account).balanceAmount.None?
    ensures ParseDirection(PersistedRecord(request, transactionId, account).direction) == Some(request.direction)
  {
    DirectionNameRoundTrip(request.direction);
  }

  // ---------------------------------------------------------------------
  // getTransactionById

  /** The stored record with the given id, if any. */
  function FindTransaction(log: seq<Transaction>, id: Uuid): (r: Option<Transaction>)
    ensures r.Some? ==> r.value in log && r.value.transactionId == id
    ensures r.None? <==> forall t :: t in log ==> t.transactionId != id
  {
    if |log| == 0 then None
    else if log[0].transactionId == id then Some(log[0])
    else FindTransaction(log[1..], id)
  }

  /** Appending a record leaves every earlier lookup as it was and makes the
      new record's id find that record when the id was not yet taken. */
  lemma {:induction false} FindAfterAppend(log: seq<Transaction>, t: Transaction, id: Uuid)
    ensures FindTransaction(log + [t], id)
         == if FindTransaction(log, id).Some? then FindTransaction(log, id)
            else if t.transactionId == id then Some(t) else None
  {
    if |log| > 0 {
      assert (log + [t])[1..] == log[1..] + [t];
      if log[0].transactionId != id {
        FindAfterAppend(log[1..], t, id);
      }
    }
  }

  // ---------------------------------------------------------------------
  // Replaying the log

  /** The balance change a stored record stands for, read from its
      direction text. */
  function SignedAmount(t: Transaction): real {
    Signed(t.amount, if t.direction == DirectionName(IN) then IN else OUT)
  }

  /** The sum of the signed amounts of the records of one account id in one
      currency, in log order. */
  function LedgerSum(log: seq<Transaction>, accountId: Uuid, currency: Currency): real {
    if |log| == 0 then 0.0
    else
      var last := log[|log| - 1];
      LedgerSum(log[..|log| - 1], accountId, currency)
        + (if last.accountId == accountId && last.currency == currency then SignedAmount(last) else 0.0)
  }

  /** The record of a request changes a balance exactly as the request does:
      replaying it gives the amount calculateNewAmount computed. */
  lemma RecordReplaysRequest(balanceAmount: real, request: TransactionCreateRequest, transactionId: Uuid, account: Account)
    ensures balanceAmount + SignedAmount(PersistedRecord(request, transactionId, account))
         == CalculateNewAmount(balanceAmount, request.amount, request.direction)
  {
    if request.direction == OUT {
      assert DirectionName(OUT)[0] != DirectionName(IN)[0];
    }
  }

  /** Appending a record adds its signed amount to the sum of its own account
      id and currency, and nothing to any other. */
  lemma LedgerSumAppend(log: seq<Transaction>, t: Transaction, accountId: Uuid, currency: Currency)
    ensures LedgerSum(log + [t], accountId, currency)
         == LedgerSum(log, accountId, currency)
            + (if t.accountId == accountId && t.currency == currency then SignedAmount(t) else 0.0)
  {
    assert (log + [t])[..|log|] == log;
  }
}
