/** The records the transaction service reads and writes: balances, accounts,
    the incoming request, the stored transaction and the errors it raises. */
module Entities {
  import opened Wrappers

  /** A java.util.UUID, as its 128-bit value. */
  type Uuid = n: nat | n < 0x1_0000_0000_0000_0000_0000_0000_0000_0000

  /** The primary key of a balance row. */
  type BalanceId = int

  /** A currency code such as "USD"; compared by exact string equality. */
  type Currency = string

  /** TransactionDirection: IN credits a balance, OUT debits it. */
  datatype Direction = IN | OUT

  /** The text the enum's toString gives, as stored in a transaction record. */
  function DirectionName(d: Direction): string {
    match d
    case IN => "IN"
    case OUT => "OUT"
  }

  /** Reads a stored direction text back. */
  function ParseDirection(s: string): Option<Direction> {
    if s == "IN" then Some(IN) else if s == "OUT" then Some(OUT) else None
  }

  /** The stored text identifies the direction: reading it back gives the
      direction that was written. */
  lemma DirectionNameRoundTrip(d: Direction)
    ensures ParseDirection(DirectionName(d)) == Some(d)
  {
  }

  /** A per-currency balance. Amounts are exact decimals (BigDecimal), modelled
      as reals; the decimal scale is not modelled. */
  datatype Balance = Balance(id: BalanceId, currency: Currency, amount: real)

  /** An account row as stored: its id, its owner and the ids of its balances
      in the order the account service lists them. */
  datatype AccountRow = AccountRow(id: Uuid, customerId: Uuid, balanceIds: seq<BalanceId>)

  /** An account as the account service hands it out, balances resolved. */
  datatype Account = Account(id: Uuid, customerId: Uuid, balances: seq<Balance>)

  /** TransactionCreateRequest. */
  datatype TransactionCreateRequest = TransactionCreateRequest(
    accountId: Uuid,
    amount: real,
    currency: Currency,
    direction: Direction,
    description: string)

  /** The Transaction entity. A stored record leaves balanceAmount empty;
      only the response built for the caller carries it. */
  datatype Transaction = Transaction(
    transactionId: Uuid,
    accountId: Uuid,
    amount: real,
    currency: Currency,
    direction: string,
    description: string,
    balanceAmount: Option<real>)

  /** What the service throws. AccountNotFoundException and
      TransactionCreateError carry their message; the account service's own
      failure and the validator's rejection are opaque here. */
  datatype Error =
    | AccountNotFoundException(message: string)
    | TransactionCreateError(message: string)
    | AccountLookupFailed
    | ValidationFailed
}
