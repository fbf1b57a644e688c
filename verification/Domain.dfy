/** internal/domain: the transaction and its business rules. */
module Domain {
  import opened Base
  import Errors

  /** An instant; the zero value is Go's zero time, which stands for a missing timestamp. */
  type Time = int

  const ZERO_TIME: Time := 0

  const BET := "bet"
  const WIN := "win"

  datatype Transaction = Transaction(userId: int, kind: string, amount: int, timestamp: Time)

  /** What Go returns next to an error. */
  const ZERO_TRANSACTION := Transaction(0, "", 0, ZERO_TIME)

  function CheckType(kind: string): Option<Errors.Error> {
    if kind == BET || kind == WIN then None else Some(Errors.InvalidTransactionType)
  }

  function Validate(t: Transaction): Option<Errors.Error> {
    if t.userId <= 0 then Some(Errors.InvalidUserID)
    else if t.amount <= 0 then Some(Errors.NonPositiveAmount)
    else CheckType(t.kind)
  }
}
