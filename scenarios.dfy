/** Callers of TransactionService: what two postings in opposite directions
    do to the balances, and the service's unit-test scenarios written as
    verified client code. */
module Scenarios {
  import opened Wrappers
  import opened Entities
  import opened TransactionLogic
  import opened Ledger
  import opened Service

  /** Posting a request and then the same request with the opposite direction
      puts every balance back where it was, when both postings go through;
      the log keeps both records. */
  method PostAndReverse(s: TransactionService, request: TransactionCreateRequest, firstId: Uuid, secondId: Uuid)
    returns (first: Result<Transaction, Error>, second: Result<Transaction, Error>)
    requires s.Valid()
    requires firstId != secondId
    requires forall t :: t in s.log ==> t.transactionId != firstId && t.transactionId != secondId
    modifies s
    ensures s.Valid()
    ensures first.Ok? && second.Ok? ==> s.balances == old(s.balances) && |s.log| == old(|s.log|) + 2
    ensures first.Ok? && second.Ok? ==> old(s.CheckRequest(request)).Ok?
    ensures first.Ok? && second.Ok? && old(s.CheckRequest(request)).Ok? ==>
              second.value.balanceAmount == Some(old(s.CheckRequest(request)).value.1.amount)
  {
    ghost var before := s.balances;
    ghost var check := s.CheckRequest(request);
    first := s.CreateTransaction(request, firstId);
    ghost var mid := s.balances;
    var reverse := request.(direction := Opposite(request.direction));
    ghost var check' := s.CheckRequest(reverse);
    second := s.CreateTransaction(reverse, secondId);
    if first.Ok? && second.Ok? {
      assert check.Ok? && check'.Ok?;
      var row := s.accounts[request.accountId];
      var balance := check.value.1;
      assert balance == GetBalanceForTransactionCurrency(request, AccountOf(before, row)).value;
      assert mid == Posted(before, balance, request);
      ReversePostingRestores(before, row, request);
      assert check'.value.1 == GetBalanceForTransactionCurrency(reverse, AccountOf(mid, row)).value;
    }
  }

  // The service's unit tests, with the account service answering every
  // lookup of ACCOUNT_ID with an account whose own id differs from it, and a
  // validator that accepts everything (the mock does nothing).

  const ACCOUNT_ID: Uuid := 1
  const STORED_ACCOUNT_ID: Uuid := 2
  const CUSTOMER_ID: Uuid := 3
  const TRANSACTION_ID: Uuid := 4
  const TRANSACTION_ID_TEXT := "00000000-0000-0000-0000-000000000004"

  function ParseKnownId(text: string): Option<Uuid> {
    if text == TRANSACTION_ID_TEXT then Some(TRANSACTION_ID) else None
  }

  method ServiceWithOneBalance(currency: Currency) returns (s: TransactionService)
    ensures fresh(s) && s.Valid() && s.log == [] && s.parseUuid == ParseKnownId
    ensures s.accounts == map[ACCOUNT_ID := AccountRow(STORED_ACCOUNT_ID, CUSTOMER_ID, [10])]
    ensures s.balances == map[10 := Balance(10, currency, 10.0)]
    ensures forall r, b :: s.validate(r, b)
  {
    var balances := map[10 := Balance(10, currency, 10.0)];
    var accounts := map[ACCOUNT_ID := AccountRow(STORED_ACCOUNT_ID, CUSTOMER_ID, [10])];
    s := new TransactionService((r, b) => true, ParseKnownId, accounts, balances);
  }

  /** createTransaction_success: the response carries the request's account
      id, while the stored record carries the account's own id. */
  method CreateTransactionSuccess() {
    var s := ServiceWithOneBalance("USD");
    var request := TransactionCreateRequest(ACCOUNT_ID, 10.0, "USD", IN, "Some Mock description");
    assert s.CheckRequest(request).Ok?;
    var r := s.CreateTransaction(request, TRANSACTION_ID);
    assert r.Ok? && r.value.accountId == ACCOUNT_ID && r.value.balanceAmount == Some(20.0);
    assert s.balances[10].amount == 20.0;
    assert s.log[0].accountId == STORED_ACCOUNT_ID && s.log[0].balanceAmount == None;
  }

  /** createTransaction_balanceForCurrencyNotFound: an account with only a
      EUR balance refuses a USD request and nothing is written. */
  method BalanceForCurrencyNotFound() {
    var s := ServiceWithOneBalance("EUR");
    var request := TransactionCreateRequest(ACCOUNT_ID, 10.0, "USD", IN, "Some Mock description");
    assert s.CheckRequest(request).Err?;
    var r := s.CreateTransaction(request, TRANSACTION_ID);
    assert r == Err(TransactionCreateError(NO_BALANCE_FOR_CURRENCY));
    assert s.balances == map[10 := Balance(10, "EUR", 10.0)] && s.log == [];
  }

  /** getTransaction_success and getTransaction_notFound: a stored id is read
      back as the stored record; an id that parses but is not stored, and one
      that does not parse, both raise AccountNotFoundException. */
  method GetTransactionScenarios() {
    var s := ServiceWithOneBalance("USD");
    var missing := s.GetTransaction(TRANSACTION_ID_TEXT);
    assert missing == Err(AccountNotFoundException(TRANSACTION_NOT_FOUND));
    var request := TransactionCreateRequest(ACCOUNT_ID, 10.0, "USD", IN, "Some Mock description");
    assert s.CheckRequest(request).Ok?;
    var created := s.CreateTransaction(request, TRANSACTION_ID);
    var found := s.GetTransaction(TRANSACTION_ID_TEXT);
    assert found.Ok? && found.value == s.log[0];
    assert found.value.transactionId == created.value.transactionId;
    var malformed := s.GetTransaction("not-a-uuid");
    assert malformed == Err(AccountNotFoundException(TRANSACTION_ID_INCORRECT));
  }
}
