# Transaction posting, modelled in Dafny

This project models `TransactionService` of the account service. The service posts a
transaction request to one of an account's currency balances and records the
transaction. It also reads a recorded transaction back by its id.

The state is an in-memory ledger. It holds the balance table (balance id to currency and
exact decimal amount), the account rows (each with an ordered list of balance ids) and an
append-only log of transaction records.

- `wrappers.dfy`: `Option` and `Result`.
- `entities.dfy`: `Balance`, `AccountRow`, `Account`, `TransactionCreateRequest`,
  `Transaction`, `Direction` and the errors the service raises.
- `transaction_logic.dfy`: the pure parts of the service. These are `calculateNewAmount`,
  the first-match balance selection, the record written and the response returned, the
  lookup of a stored record, and the signed sum of one account's records in one currency.
- `ledger.dfy`: the facts the service relies on about the stored rows, and the
  ledger-consistency invariant. The invariant says that the balance a request is posted to
  (the first of its currency in the account) equals its opening amount plus the signed sum
  of the logged records for that account and currency. Every other balance an account lists
  stays at its opening amount. The file also proves that posting keeps this invariant.
- `transaction_service.dfy`: the class `TransactionService`. It holds the balance map and
  the log sequence, with the methods `CreateTransaction`, `DoTransaction` and
  `GetTransaction`.
- `scenarios.dfy`: code that calls the service. It proves that posting a request and then
  its reverse restores every balance. It also gives the four service unit tests as verified
  client code.

What the code does, and the model with it:

- The insert writes no balance snapshot. The `Transaction` entity has a `balanceAmount`
  field, but the insert leaves it empty, so a stored record has `balanceAmount` `None`.
  Only the response carries the new amount.
- The record takes the account id from the looked-up account. The response takes it from
  the request.
- A malformed id and an absent id both raise `AccountNotFoundException` in
  `getTransaction`. The messages differ: "Transaction UUID is incorrect" for a malformed id,
  "Transaction UUID is not found" for an absent one. The model keeps both messages.
- The balance is the first match in the account's list. The model does not assume that an
  account has one balance per currency.
- No insufficient-funds or positive-amount rule is assumed. Validation is an opaque
  predicate.

Amounts are `real`. BigDecimal addition and subtraction are exact, and no rounding happens
on this path. UUIDs are naturals below 2^128.

## Model

| member | source | states |
|---|---|---|
| `Entities.DirectionNameRoundTrip` | src/main/java/ee/gulho/assignment/account/service/TransactionService.java:64 | the direction text written into a record reads back as the request's direction |
| `TransactionLogic.CalculateNewAmount` | src/main/java/ee/gulho/assignment/account/service/TransactionService.java:82-88 | the balance moves by exactly the request amount, signed + for IN and − for any other direction; its inverse is stated by OppositeDirectionRestores |
| `TransactionLogic.CalculateNewAmountIsExact` | src/main/java/ee/gulho/assignment/account/service/TransactionService.java:82-88 | IN raises the balance by exactly the amount; OUT lowers it by exactly the amount |
| `TransactionLogic.OppositeDirectionRestores` | src/main/java/ee/gulho/assignment/account/service/TransactionService.java:82-88 | applying an amount and then the same amount in the opposite direction (IN then OUT in particular) gives back the original balance |
| `TransactionLogic.FirstWithCurrency` | src/main/java/ee/gulho/assignment/account/service/TransactionService.java:91-93 | the result is the position of a balance in the requested currency with no earlier balance in that currency; none exactly when no balance has the currency |
| `TransactionLogic.GetBalanceForTransactionCurrency` | src/main/java/ee/gulho/assignment/account/service/TransactionService.java:90-96 | succeeds iff the account has a balance in the request's currency; the result is that currency's first balance in the account's list; otherwise TransactionCreateError with the source's message |
| `TransactionLogic.SelectionIsTheOnlyMatch` | src/main/java/ee/gulho/assignment/account/service/TransactionService.java:90-93 | when an account has one balance per currency, the selected balance is the one balance in the requested currency |
| `TransactionLogic.SelectionIgnoresAmounts` | src/main/java/ee/gulho/assignment/account/service/TransactionService.java:91-93 | selection depends on currencies only, so updating amounts never changes which balance a currency selects |
| `TransactionLogic.PersistedRecord` | src/main/java/ee/gulho/assignment/account/service/TransactionService.java:59-66 | the inserted record carries the fresh id, the looked-up account's id, the request's amount, currency and description, and direction text that reads back as the request's direction; it has no balance snapshot. Its relation to the response is stated by ResponseMirrorsRecord |
| `TransactionLogic.CreateResponse` | src/main/java/ee/gulho/assignment/account/service/TransactionService.java:70-80 | the response carries the fresh id, the request's account id, amount, currency and description, direction text that reads back as the request's direction, and the new balance amount |
| `TransactionLogic.ResponseMirrorsRecord` | src/main/java/ee/gulho/assignment/account/service/TransactionService.java:59-79 | the response equals the stored record except that it has the request's account id and the new amount; the stored record has no snapshot; its direction text reads back as the request's direction |
| `TransactionLogic.FindTransaction` | src/main/java/ee/gulho/assignment/account/service/TransactionService.java:49-50 | a found record is in the log and has the asked id; nothing is found iff no logged record has that id |
| `TransactionLogic.FindAfterAppend` | src/main/java/ee/gulho/assignment/account/service/TransactionService.java:59-66 | appending a record leaves every earlier lookup unchanged; an id not used before now finds the new record |
| `TransactionLogic.RecordReplaysRequest` | src/main/java/ee/gulho/assignment/account/service/TransactionService.java:56-68 | replaying the stored record (its amount signed by its direction text) moves a balance to the amount calculateNewAmount wrote |
| `TransactionLogic.LedgerSumAppend` | src/main/java/ee/gulho/assignment/account/service/TransactionService.java:59-66 | appending a record adds its signed amount to its own account and currency's sum and nothing to any other sum |
| `Ledger.AccountOf` | src/main/java/ee/gulho/assignment/account/service/TransactionService.java:34 | the account handed to the service has the row's id and, in the row's order, the stored balances the row lists |
| `Ledger.Posted` | src/main/java/ee/gulho/assignment/account/service/TransactionService.java:57-58 | the update overwrites one row: every other row is unchanged, and the written row keeps its id and currency and moves by exactly the signed request amount. Consistency is kept, as stated by PostingKeepsConsistency |
| `Ledger.ReversePostingRestores` | src/main/java/ee/gulho/assignment/account/service/TransactionService.java:35-38 | a request and then its reverse select the same balance; the reverse sees the amount the first wrote; together they restore the whole balance table |
| `Ledger.OpeningIsConsistent` | src/main/java/ee/gulho/assignment/account/service/TransactionService.java:56-68 | with an empty log, every balance is consistent with its opening amount |
| `Ledger.PostingKeepsEntry` | src/main/java/ee/gulho/assignment/account/service/TransactionService.java:56-68 | at any one position of any account, writing the new amount to the selected balance and appending the record keeps that position consistent |
| `Ledger.PostingKeepsConsistency` | src/main/java/ee/gulho/assignment/account/service/TransactionService.java:56-68 | writing the new amount to the selected balance and appending the record keeps the rows well formed. If the ledger was consistent before, it stays consistent: each posted-to balance is its opening amount plus its records' signed sum, and every other balance keeps its opening amount |
| `Service.TransactionService.constructor` | src/main/java/ee/gulho/assignment/account/service/TransactionService.java:20-28 | a service over well-formed rows starts with an empty log and satisfies its invariant |
| `Service.TransactionService.Restore` | src/main/java/ee/gulho/assignment/account/service/TransactionService.java:20-28 | a service over well-formed rows and an already stored log with distinct ids, consistent with the given opening amounts, satisfies its invariant |
| `Service.TransactionService.GetAccountById` | src/main/java/ee/gulho/assignment/account/service/TransactionService.java:34 | the lookup succeeds iff the account id is stored and then yields that row's account; otherwise the account service's error |
| `Service.TransactionService.CheckRequest` | src/main/java/ee/gulho/assignment/account/service/TransactionService.java:34-36 | the steps before any write fail in a fixed order. First an unknown account. Then no balance in the currency (iff no listed balance has it). Then ValidationFailed, iff the validator rejects the balance selected for the request. On success the result is the stored account and its first balance in the request's currency, which the validator accepted |
| `Service.TransactionService.CreateTransaction` | src/main/java/ee/gulho/assignment/account/service/TransactionService.java:30-44 | on any failure the same error, with balances and log unchanged; on success only the selected balance changes, to the calculated amount; exactly one record (fresh id, account's id, no snapshot) is appended and can be found; the response carries the request's account id and the new amount; the ledger stays consistent |
| `Service.TransactionService.DoTransaction` | src/main/java/ee/gulho/assignment/account/service/TransactionService.java:56-68 | returns the calculated new amount, overwrites only that balance row's amount and appends exactly the stored record |
| `Service.TransactionService.GetTransaction` | src/main/java/ee/gulho/assignment/account/service/TransactionService.java:46-54 | changes nothing; a malformed id raises AccountNotFoundException "incorrect"; a well-formed id succeeds iff a record has it, returns that record, and otherwise raises AccountNotFoundException "not found" |
| `Scenarios.PostAndReverse` | src/main/java/ee/gulho/assignment/account/service/TransactionService.java:30-44 | two successful postings of one request in opposite directions leave every balance as it was and add two records; the second response reports the original amount |

The unit tests in
src/test/java/ee/gulho/assignment/account/service/TransactionServiceTest.java
appear as client methods in `scenarios.dfy`: `CreateTransactionSuccess`,
`BalanceForCurrencyNotFound` and `GetTransactionScenarios`. Their assertions are proved
from the contracts above.

## Left out

- Notification by `MessageSendService.sendTransaction` (TransactionService.java:41) is not
  modelled. It is a foreign call over messaging, made inside the transactional method
  after both writes. If it threw, the balance update and the insert would be rolled back
  and the caller would get the error. That failure path and its rollback are not
  modelled. In the model, a request that passes validation always commits.
- Spring `@Transactional`, row locking and concurrency are not modelled. Atomicity is
  modelled by making every failure happen before the first write. Each call runs alone.
- The rules of `TransactionValidation.validate` are not part of this model. The validator
  is an uninterpreted function field `validate`, and `false` stands for the exception it
  throws. No insufficient-funds or positive-amount rule is assumed.
- `AccountService.getAccountById` is not part of this model. It is modelled as a lookup in
  the stored account rows, keyed by the UUID itself and not by its string form. Its
  exception and message are collapsed into `AccountLookupFailed`.
- `UUID.randomUUID` is not modelled. The new id is a parameter of `CreateTransaction`, with
  the precondition that no logged record already has it.
- `UUID.fromString` is modelled as the abstract partial function field `parseUuid`, whose
  `None` stands for IllegalArgumentException. UUID text syntax is not modelled.
- The repositories' SQL is not modelled. `getTransactionById` is a search of the log by id.
  `updateBalanceAmount` overwrites the amount of one row of the balance map. Store
  failures (infrastructure errors) are not modelled.
- The decimal scale of BigDecimal is not modelled. Amounts are exact reals.
- Service.TransactionService.DoTransaction: it requires the balance id to be stored. This is
  weaker than the source, where updating a missing row changes nothing. The service only
  calls it with a balance read from the table, so the case never arises.
- The HTTP layer and the Testcontainers integration test (TransactionTestIT.java) are not
  modelled. They are I/O and infrastructure only.
