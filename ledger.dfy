/** The stored state the service works on, as values: the balance table, the
    account rows and the transaction log, with the facts the service relies on
    and the ledger-consistency invariant that posting keeps. */
module Ledger {
  import opened Wrappers
  import opened Entities
  import opened TransactionLogic

  /** What the account service guarantees about the stored rows: every balance
      row is stored under its own id, every account lists only stored balances,
      no balance is listed twice (by one account or by two), and no two
      accounts share an id. */
  ghost predicate Structured(balances: map<BalanceId, Balance>, accounts: map<Uuid, AccountRow>) {
    && (forall b :: b in balances ==> balances[b].id == b)
    && (forall k, i :: k in accounts && 0 <= i < |accounts[k].balanceIds| ==> accounts[k].balanceIds[i] in balances)
    && (forall k1, i1, k2, i2 ::
          k1 in accounts && k2 in accounts
          && 0 <= i1 < |accounts[k1].balanceIds| && 0 <= i2 < |accounts[k2].balanceIds|
          && accounts[k1].balanceIds[i1] == accounts[k2].balanceIds[i2]
          ==> k1 == k2 && i1 == i2)
    && (forall k1, k2 :: k1 in accounts && k2 in accounts && accounts[k1].id == accounts[k2].id ==> k1 == k2)
  }

  /** Every balance id an account row lists is stored. */
  predicate Resolves(balances: map<BalanceId, Balance>, row: AccountRow) {
    forall i :: 0 <= i < |row.balanceIds| ==> row.balanceIds[i] in balances
  }

  /** The account aggregate for a row, with its balances read from the table
      in the row's order. */
  function AccountOf(balances: map<BalanceId, Balance>, row: AccountRow): (a: Account)
    requires Resolves(balances, row)
    ensures a.id == row.id && |a.balances| == |row.balanceIds|
    ensures forall i :: 0 <= i < |row.balanceIds| ==> a.balances[i] == balances[row.balanceIds[i]]
  {
    Account(row.id, row.customerId,
            seq(|row.balanceIds|, i requires 0 <= i < |row.balanceIds| => balances[row.balanceIds[i]]))
  }

  /** The balance at position i of a row is the first of its currency there. */
  ghost predicate FirstOfCurrency(balances: map<BalanceId, Balance>, ids: seq<BalanceId>, i: int)
    requires 0 <= i < |ids|
    requires forall j :: 0 <= j < |ids| ==> ids[j] in balances
  {
    forall j :: 0 <= j < i ==> balances[ids[j]].currency != balances[ids[i]].currency
  }

  /** Ledger consistency at position i of an account row: the balance there
      stands at its opening amount plus the signed sum of the logged records of
      that account and currency when it is the first balance of its currency in
      the row (the one transactions are posted to), and at its opening amount
      otherwise. */
  ghost predicate EntryConsistent(balances: map<BalanceId, Balance>, row: AccountRow, i: int,
                                  log: seq<Transaction>, opening: map<BalanceId, real>)
    requires Resolves(balances, row) && 0 <= i < |row.balanceIds|
  {
    var b := row.balanceIds[i];
    && b in opening
    && balances[b].amount == opening[b]
         + (if FirstOfCurrency(balances, row.balanceIds, i) then LedgerSum(log, row.id, balances[b].currency) else 0.0)
  }

  /** Ledger consistency for every balance every account lists. */
  ghost predicate Consistent(balances: map<BalanceId, Balance>, accounts: map<Uuid, AccountRow>,
                             log: seq<Transaction>, opening: map<BalanceId, real>)
    requires Structured(balances, accounts)
  {
    forall k, i :: k in accounts && 0 <= i < |accounts[k].balanceIds| ==>
      EntryConsistent(balances, accounts[k], i, log, opening)
  }

  /** The table after a request is posted to `balance`: that one row gets the
      amount calculateNewAmount gives. */
  function Posted(balances: map<BalanceId, Balance>, balance: Balance, request: TransactionCreateRequest): (r: map<BalanceId, Balance>)
    ensures r.Keys == balances.Keys + {balance.id}
    ensures forall b :: b in balances && b != balance.id ==> r[b] == balances[b]
    ensures r[balance.id].id == balance.id && r[balance.id].currency == balance.currency
    ensures r[balance.id].amount - balance.amount == Signed(request.amount, request.direction)
  {
    balances[balance.id := balance.(amount := CalculateNewAmount(balance.amount, request.amount, request.direction))]
  }

  /** Posting a request to an account and then the same request in the
      opposite direction selects the same balance both times and gives back
      the table it started from. */
  lemma {:induction false} ReversePostingRestores(balances: map<BalanceId, Balance>, row: AccountRow, request: TransactionCreateRequest)
    requires forall b :: b in balances ==> balances[b].id == b
    requires Resolves(balances, row)
    requires GetBalanceForTransactionCurrency(request, AccountOf(balances, row)).Ok?
    ensures
      var balance := GetBalanceForTransactionCurrency(request, AccountOf(balances, row)).value;
      var reverse := request.(direction := Opposite(request.direction));
      var mid := Posted(balances, balance, request);
      && Resolves(mid, row)
      && GetBalanceForTransactionCurrency(reverse, AccountOf(mid, row)).Ok?
      && var balance' := GetBalanceForTransactionCurrency(reverse, AccountOf(mid, row)).value;
      && balance'.id == balance.id
      && balance'.amount == CalculateNewAmount(balance.amount, request.amount, request.direction)
      && Posted(mid, balance', reverse) == balances
  {
    var account := AccountOf(balances, row);
    var i0 := FirstWithCurrency(account.balances, request.currency).value;
    var balance := account.balances[i0];
    assert balance == balances[row.balanceIds[i0]] && balance.id == row.balanceIds[i0];
    var mid := Posted(balances, balance, request);
    assert Resolves(mid, row);
    var account' := AccountOf(mid, row);
    assert forall i :: 0 <= i < |row.balanceIds| ==> account'.balances[i].currency == account.balances[i].currency;
    SelectionIgnoresAmounts(account.balances, account'.balances, request.currency);
    OppositeDirectionRestores(balance.amount, request.amount, request.direction);
    assert account'.balances[i0] == mid[balance.id];
  }

  /** A fresh ledger, with nothing logged, is consistent against the opening
      amounts it starts from. */
  lemma OpeningIsConsistent(balances: map<BalanceId, Balance>, accounts: map<Uuid, AccountRow>)
    requires Structured(balances, accounts)
    ensures Consistent(balances, accounts, [], map b | b in balances :: balances[b].amount)
  {
  }

  /** Posting changes one amount, so every row stays stored under its id and
      the account rows still resolve. */
  lemma PostingKeepsStructure(balances: map<BalanceId, Balance>, accounts: map<Uuid, AccountRow>,
                              balance: Balance, request: TransactionCreateRequest)
    requires Structured(balances, accounts) && balance.id in balances
    ensures Structured(Posted(balances, balance, request), accounts)
  {
  }

  /** Posting a request to the balance selected for it in account `key` (the
      new amount written to that balance, the record appended to the log)
      keeps ledger consistency at any one position of any account. */
  lemma {:induction false} PostingKeepsEntry(
    balances: map<BalanceId, Balance>, accounts: map<Uuid, AccountRow>, log: seq<Transaction>,
    opening: map<BalanceId, real>, key: Uuid, request: TransactionCreateRequest, balance: Balance,
    transactionId: Uuid, k: Uuid, i: int)
    requires Structured(balances, accounts)
    requires key in accounts
    requires GetBalanceForTransactionCurrency(request, AccountOf(balances, accounts[key])) == Ok(balance)
    requires k in accounts && 0 <= i < |accounts[k].balanceIds|
    ensures Resolves(Posted(balances, balance, request), accounts[k])
    ensures EntryConsistent(balances, accounts[k], i, log, opening) ==>
              EntryConsistent(Posted(balances, balance, request), accounts[k], i,
                              log + [PersistedRecord(request, transactionId, AccountOf(balances, accounts[key]))], opening)
  {
    var row := accounts[key];
    var account := AccountOf(balances, row);
    var i0 := FirstWithCurrency(account.balances, request.currency).value;
    var b0 := row.balanceIds[i0];
    assert balance == balances[b0] && balance.id == b0;
    var balances' := Posted(balances, balance, request);
    var t := PersistedRecord(request, transactionId, account);
    var ids := accounts[k].balanceIds;
    var b := ids[i];
    var c := balances[b].currency;
    assert forall j :: 0 <= j < |ids| ==> ids[j] in balances' && balances'[ids[j]].currency == balances[ids[j]].currency;
    assert FirstOfCurrency(balances', ids, i) == FirstOfCurrency(balances, ids, i);
    LedgerSumAppend(log, t, accounts[k].id, c);
    RecordReplaysRequest(balance.amount, request, transactionId, account);
    if b == b0 {
      assert k == key && i == i0;
      assert FirstOfCurrency(balances, ids, i);
    }
  }

  /** Posting keeps the rows structured and the whole ledger consistent. */
  lemma PostingKeepsConsistency(
    balances: map<BalanceId, Balance>, accounts: map<Uuid, AccountRow>, log: seq<Transaction>,
    opening: map<BalanceId, real>, key: Uuid, request: TransactionCreateRequest, balance: Balance,
    transactionId: Uuid)
    requires Structured(balances, accounts)
    requires key in accounts
    requires GetBalanceForTransactionCurrency(request, AccountOf(balances, accounts[key])) == Ok(balance)
    ensures Structured(Posted(balances, balance, request), accounts)
    ensures Consistent(balances, accounts, log, opening) ==>
              Consistent(Posted(balances, balance, request), accounts,
                         log + [PersistedRecord(request, transactionId, AccountOf(balances, accounts[key]))], opening)
  {
    var account := AccountOf(balances, accounts[key]);
    var i0 := FirstWithCurrency(account.balances, request.currency).value;
    assert balance == balances[accounts[key].balanceIds[i0]];
    PostingKeepsStructure(balances, accounts, balance, request);
    forall k, i | k in accounts && 0 <= i < |accounts[k].balanceIds|
      ensures EntryConsistent(balances, accounts[k], i, log, opening) ==>
                EntryConsistent(Posted(balances, balance, request), accounts[k], i,
                                log + [PersistedRecord(request, transactionId, account)], opening)
    {
      PostingKeepsEntry(balances, accounts, log, opening, key, request, balance, transactionId, k, i);
    }
  }
}
