/** TransactionService: posts a transaction request to an account's balance
    and records it, and reads a stored transaction back. */
module Service {
  import opened Wrappers
  import opened Entities
  import opened TransactionLogic
  import opened Ledger

  class TransactionService {
    /** TransactionValidation.validate: its rules are not part of this model;
        false stands for the exception it throws. */
    const validate: (TransactionCreateRequest, Balance) -> bool
    /** UUID.fromString: None stands for IllegalArgumentException. */
    const parseUuid: string -> Option<Uuid>
    /** The rows behind AccountService.getAccountById; this service only reads them. */
    const accounts: map<Uuid, AccountRow>

    /** The balance table (BalanceRepository). */
    var balances: map<BalanceId, Balance>
    /** The append-only transaction log (TransactionRepository). */
    var log: seq<Transaction>
    /** The amounts the balances had before anything was logged. */
    ghost var opening: map<BalanceId, real>

    ghost predicate Valid()
      reads this
    {
      && Structured(balances, accounts)
      && (forall i, j :: 0 <= i < j < |log| ==> log[i].transactionId != log[j].transactionId)
      && Consistent(balances, accounts, log, opening)
    }

    constructor (validate: (TransactionCreateRequest, Balance) -> bool, parseUuid: string -> Option<Uuid>,
                 accounts: map<Uuid, AccountRow>, balances: map<BalanceId, Balance>)
      requires Structured(balances, accounts)
      ensures Valid()
      ensures this.validate == validate && this.parseUuid == parseUuid
      ensures this.accounts == accounts && this.balances == balances && log == []
    {
      this.validate := validate;
      this.parseUuid := parseUuid;
      this.accounts := accounts;
      this.balances := balances;
      log := [];
      opening := map b | b in balances :: balances[b].amount;
      OpeningIsConsistent(balances, accounts);
    }

    /** A service over rows and a log that are already stored, given the
        opening amounts against which the log accounts for the balances. */
    constructor Restore(validate: (TransactionCreateRequest, Balance) -> bool, parseUuid: string -> Option<Uuid>,
                        accounts: map<Uuid, AccountRow>, balances: map<BalanceId, Balance>,
                        log: seq<Transaction>, ghost opening: map<BalanceId, real>)
      requires Structured(balances, accounts)
      requires forall i, j :: 0 <= i < j < |log| ==> log[i].transactionId != log[j].transactionId
      requires Consistent(balances, accounts, log, opening)
      ensures Valid()
      ensures this.validate == validate && this.parseUuid == parseUuid
      ensures this.accounts == accounts && this.balances == balances && this.log == log
      ensures this.opening == opening
    {
      this.validate := validate;
      this.parseUuid := parseUuid;
      this.accounts := accounts;
      this.balances := balances;
      this.log := log;
      this.opening := opening;
    }

    /** AccountService.getAccountById, as a lookup of the stored rows. */
    function GetAccountById(accountId: Uuid): (r: Result<Account, Error>)
      reads this
      requires Structured(balances, accounts)
      ensures r.Ok? <==> accountId in accounts
      ensures r.Ok? ==> r.value == AccountOf(balances, accounts[accountId])
      ensures r.Err? ==> r.error == AccountLookupFailed
    {
      if accountId in accounts then Ok(AccountOf(balances, accounts[accountId])) else Err(AccountLookupFailed)
    }

    /** Everything createTransaction does before it writes: find the account,
        pick the balance in the request's currency, validate. Each failure is
        reported as its own error. */
    function CheckRequest(request: TransactionCreateRequest): (r: Result<(Account, Balance), Error>)
      reads this
      requires Structured(balances, accounts)
      ensures r.Err? && r.error == AccountLookupFailed <==> request.accountId !in accounts
      ensures r.Err? && r.error.TransactionCreateError? <==>
                request.accountId in accounts
                && forall i :: 0 <= i < |accounts[request.accountId].balanceIds| ==>
                     balances[accounts[request.accountId].balanceIds[i]].currency != request.currency
      ensures r.Err? ==> r.error in {AccountLookupFailed, TransactionCreateError(NO_BALANCE_FOR_CURRENCY), ValidationFailed}
      ensures (r.Err? && r.error == ValidationFailed) <==>
                && request.accountId in accounts
                && var selected := GetBalanceForTransactionCurrency(request, AccountOf(balances, accounts[request.accountId]));
                && selected.Ok? && !validate(request, selected.value)
      ensures r.Ok? ==>
                && request.accountId in accounts
                && r.value.0 == AccountOf(balances, accounts[request.accountId])
                && GetBalanceForTransactionCurrency(request, r.value.0) == Ok(r.value.1)
      ensures r.Ok? ==>
                var (account, balance) := r.value;
                && request.accountId in accounts && account.id == accounts[request.accountId].id
                && balance.id in balances && balances[balance.id] == balance
                && balance.currency == request.currency
                && validate(request, balance)
    {
      match GetAccountById(request.accountId)
      case Err(e) => Err(e)
      case Ok(account) =>
        match GetBalanceForTransactionCurrency(request, account)
        case Err(e) => Err(e)
        case Ok(balance) =>
          if validate(request, balance) then Ok((account, balance)) else Err(ValidationFailed)
    }

    /** createTransaction. Any failure happens before the first write and
        leaves the balances and the log as they were; on success exactly the
        selected balance gets the new amount, exactly one record is appended,
        and the response carries the new amount. */
    method CreateTransaction(request: TransactionCreateRequest, transactionId: Uuid)
      returns (r: Result<Transaction, Error>)
      requires Valid()
      requires forall t :: t in log ==> t.transactionId != transactionId
      modifies this
      ensures Valid() && opening == old(opening)
      ensures old(CheckRequest(request)).Err? ==>
                && r == Err(old(CheckRequest(request)).error)
                && balances == old(balances) && log == old(log)
      ensures old(CheckRequest(request)).Ok? ==>
                var (account, balance) := old(CheckRequest(request)).value;
                var newAmount := CalculateNewAmount(balance.amount, request.amount, request.direction);
                && balances == Posted(old(balances), balance, request)
                && log == old(log) + [PersistedRecord(request, transactionId, account)]
                && FindTransaction(log, transactionId) == Some(PersistedRecord(request, transactionId, account))
                && r == Ok(CreateResponse(request, transactionId, newAmount))
    {
      var found := GetAccountById(request.accountId);
      if found.Err? {
        return Err(found.error);
      }
      var account := found.value;
      var selected := GetBalanceForTransactionCurrency(request, account);
      if selected.Err? {
        return Err(selected.error);
      }
      var balance := selected.value;
      if !validate(request, balance) {
        return Err(ValidationFailed);
      }
      ghost var balances0, log0 := balances, log;
      var newBalanceAmount := DoTransaction(request, transactionId, account, balance);
      PostingKeepsConsistency(balances0, accounts, log0, opening, request.accountId, request, balance, transactionId);
      FindAfterAppend(log0, PersistedRecord(request, transactionId, account), transactionId);
      r := Ok(CreateResponse(request, transactionId, newBalanceAmount));
    }

    /** doTransaction: compute the new amount, overwrite that one balance row,
        append the record. */
    method DoTransaction(request: TransactionCreateRequest, transactionId: Uuid, account: Account, balance: Balance)
      returns (newBalance: real)
      requires balance.id in balances
      modifies this
      ensures newBalance == CalculateNewAmount(balance.amount, request.amount, request.direction)
      ensures balances == old(balances)[balance.id := old(balances)[balance.id].(amount := newBalance)]
      ensures log == old(log) + [PersistedRecord(request, transactionId, account)]
      ensures opening == old(opening)
    {
      newBalance := CalculateNewAmount(balance.amount, request.amount, request.direction);
      balances := balances[balance.id := balances[balance.id].(amount := newBalance)];
      log := log + [PersistedRecord(request, transactionId, account)];
    }

    /** getTransaction: a malformed id and an absent id both raise
        AccountNotFoundException (with different messages); otherwise the
        stored record is returned and nothing changes. */
    method GetTransaction(transactionId: string) returns (r: Result<Transaction, Error>)
      ensures parseUuid(transactionId).None? ==> r == Err(AccountNotFoundException(TRANSACTION_ID_INCORRECT))
      ensures parseUuid(transactionId).Some? ==>
                (r.Ok? <==> exists t :: t in log && t.transactionId == parseUuid(transactionId).value)
      ensures parseUuid(transactionId).Some? && r.Err? ==> r == Err(AccountNotFoundException(TRANSACTION_NOT_FOUND))
      ensures r.Ok? ==> r.value in log && r.value.transactionId == parseUuid(transactionId).value
      ensures r.Err? ==> r.error.AccountNotFoundException?
    {
      var uid := parseUuid(transactionId);
      if uid.None? {
        return Err(AccountNotFoundException(TRANSACTION_ID_INCORRECT));
      }
      match FindTransaction(log, uid.value)
      case Some(t) => r := Ok(t);
      case None => r := Err(AccountNotFoundException(TRANSACTION_NOT_FOUND));
    }
  }
}
