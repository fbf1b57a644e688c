/** Kafka messages and the parse step that turns one into a transaction or a rejection. */
module Messages {
  import opened Base
  import opened Errors
  import opened Domain
  import Money

  /** The decoded JSON object; the timestamp text is already resolved, with the zero time for an unreadable one. */
  datatype TransactionDTO = TransactionDTO(userId: int, kind: string, amount: string, timestamp: Time)

  datatype Payload = Malformed | Decoded(dto: TransactionDTO)

  datatype Msg = Msg(partition: nat, offset: nat, payload: Payload)

  function ToDomain(dto: TransactionDTO): Result<Transaction, Error> {
    var amount := Money.ParseToMinorUnits(dto.amount);
    if amount.Err? then Err(amount.error)
    else Ok(Transaction(dto.userId, dto.kind, amount.value, dto.timestamp))
  }

  /**
   * The checks of Consumer.parseAndValidateMsg, in order: JSON, amount, business rules. The error is the cause;
   * the consumer wraps it as non-retryable.
   */
  function Parse(payload: Payload): Result<Transaction, Error> {
    match payload
    case Malformed => Err(Undecodable)
    case Decoded(dto) =>
      match ToDomain(dto)
      case Err(e) => Err(e)
      case Ok(t) =>
        match Validate(t)
        case Some(e) => Err(e)
        case None => Ok(t)
  }

  /**
   * What is accepted: a decoded object with a readable positive amount of a positive user for a known type; and nothing
   * of it is altered. Of several faults an unreadable amount is reported first, and it is the only one that Classify
   * calls a rejection; then come the user, the sign of the amount and the type. No fault is retryable.
   */
  lemma ParseAccepts(payload: Payload)
    ensures var parsed := Parse(payload);
            && (payload.Malformed? ==> parsed == Err(Undecodable) && !Classify(parsed.error).reject)
            && (parsed.Err? ==> !Retryable(parsed.error))
    ensures payload.Decoded? ==>
              var dto := payload.dto;
              var amount := Money.ParseToMinorUnits(dto.amount);
              var parsed := Parse(payload);
              && (parsed.Ok? <==>
                    amount.Ok? && amount.value > 0 && dto.userId > 0 && (dto.kind == "bet" || dto.kind == "win"))
              && (parsed.Ok? ==> parsed.value == Transaction(dto.userId, dto.kind, amount.value, dto.timestamp))
              && (amount.Err? ==> parsed == Err(amount.error))
              && (amount.Ok? && parsed.Err? ==>
                    parsed.error == if dto.userId <= 0 then InvalidUserID
                                    else if amount.value <= 0 then NonPositiveAmount
                                    else InvalidTransactionType)
              && (parsed.Err? ==> (Classify(parsed.error).reject <==> amount.Err?))
  {
    hide Classify, Retryable;
    if payload.Decoded? {
      DecodedAccepts(payload.dto);
    } else {
      OtherErrorsAreNot(Undecodable);
    }
  }

  lemma DecodedAccepts(dto: TransactionDTO)
    ensures var amount := Money.ParseToMinorUnits(dto.amount);
            var parsed := Parse(Decoded(dto));
            && (parsed.Ok? <==>
                  amount.Ok? && amount.value > 0 && dto.userId > 0 && (dto.kind == "bet" || dto.kind == "win"))
            && (parsed.Ok? ==> parsed.value == Transaction(dto.userId, dto.kind, amount.value, dto.timestamp))
            && (amount.Err? ==> parsed == Err(amount.error))
            && (amount.Ok? && parsed.Err? ==>
                  parsed.error == if dto.userId <= 0 then InvalidUserID
                                  else if amount.value <= 0 then NonPositiveAmount
                                  else InvalidTransactionType)
            && (parsed.Err? ==> (Classify(parsed.error).reject <==> amount.Err?) && !Retryable(parsed.error))
  {
    hide Classify, Retryable, Money.ParseToMinorUnits;
    Money.ErrorsAreMoneyErrors(dto.amount);
    var amount := Money.ParseToMinorUnits(dto.amount);
    if amount.Err? {
      MoneyErrorsAreRejections(amount.error);
    } else if Parse(Decoded(dto)).Err? {
      OtherErrorsAreNot(Parse(Decoded(dto)).error);
    }
  }

  lemma OtherErrorsAreNot(e: Error)
    requires e in {InvalidUserID, NonPositiveAmount, InvalidTransactionType, Undecodable}
    ensures !Classify(e).reject && !Retryable(e)
  {
    ClassifyByLeaves(e);
    LeafContains(e, REPOSITORY_ERRORS);
    LeafContains(e, MONEY_ERRORS);
    hide Classify, Contains;
  }

  lemma MoneyErrorsAreRejections(e: Error)
    requires e in {EmptyAmount, InvalidAmountFormat, TooManyDecimals, InvalidDecimalPart, AmountOverflow}
    ensures Classify(e).reject && !Retryable(e)
  {
    ClassifyByLeaves(e);
    LeafContains(e, REPOSITORY_ERRORS);
    LeafContains(e, MONEY_ERRORS);
    hide Classify, Contains;
  }

  /** A deterministic parser of payloads, such as Parse. */
  type Parser = Payload -> Result<Transaction, Error>
}
