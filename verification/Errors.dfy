/** Error values as trees of wrapped Go errors, and the classification that decides between retry and dead-lettering. */
module Errors {

  datatype Error =
    | RepoNotInitialized                        // repository.ErrRepoNotInitialized
    | DBUnavailable                             // repository.ErrDBUnavailable
    | EmptyAmount                               // the five sentinels of pkg/money
    | InvalidAmountFormat
    | TooManyDecimals
    | InvalidDecimalPart
    | AmountOverflow
    | InvalidTransactionType                    // the three sentinels of internal/domain
    | InvalidUserID
    | NonPositiveAmount
    | Canceled                                  // context.Canceled
    | DeadlineExceeded                          // context.DeadlineExceeded
    | Undecodable                               // a payload encoding/json refuses
    | Other(detail: string)                     // any other error, for instance one from the SQL driver
    | NonRetryable(cause: Error)                // nonRetryableError, which has no Unwrap
    | ProcessFailed(attempts: nat, cause: Error) // "process failed after %d attempts: %w"
    | Joined(first: Error, second: Error)       // errors.Join, or a format with two %w

  /** errors.Is: walks the tree of wrapped errors, but not through nonRetryableError. */
  predicate Is(e: Error, target: Error) {
    || e == target
    || (e.ProcessFailed? && Is(e.cause, target))
    || (e.Joined? && (Is(e.first, target) || Is(e.second, target)))
  }

  predicate IsMoneyError(e: Error) {
    || Is(e, EmptyAmount)
    || Is(e, InvalidAmountFormat)
    || Is(e, TooManyDecimals)
    || Is(e, InvalidDecimalPart)
    || Is(e, AmountOverflow)
  }

  /** The test the consumer uses to recognise a shutdown. */
  predicate IsContextError(e: Error) {
    Is(e, Canceled) || Is(e, DeadlineExceeded)
  }

  datatype LogLevel = LevelWarn | LevelError

  datatype ErrorMeta = ErrorMeta(code: string, httpStatus: int, logLevel: LogLevel, reject: bool, retryable: bool)

  function Classify(e: Error): ErrorMeta {
    if Is(e, RepoNotInitialized) then
      ErrorMeta("repo_not_initialized", 503, LevelError, false, true)
    else if Is(e, DBUnavailable) then
      ErrorMeta("db_unavailable", 503, LevelError, false, true)
    else if IsMoneyError(e) then
      ErrorMeta("invalid_amount_format", 400, LevelWarn, true, false)
    else
      ErrorMeta("internal_error", 500, LevelError, false, false)
  }

  predicate Retryable(e: Error) {
    Classify(e).retryable
  }

  /** The innermost errors that errors.Is can reach. */
  function Leaves(e: Error): set<Error> {
    match e
    case ProcessFailed(_, cause) => Leaves(cause)
    case Joined(first, second) => Leaves(first) + Leaves(second)
    case _ => {e}
  }

  predicate WrapsNothing(e: Error) {
    !e.ProcessFailed? && !e.Joined?
  }

  /** For a target that wraps nothing, errors.Is only ever looks at the innermost reachable errors. */
  lemma {:induction false} IsMeansLeaf(e: Error, target: Error)
    requires WrapsNothing(target)
    ensures Is(e, target) <==> target in Leaves(e)
  {
    match e
    case ProcessFailed(_, cause) => IsMeansLeaf(cause, target);
    case Joined(first, second) =>
      IsMeansLeaf(first, target);
      IsMeansLeaf(second, target);
    case _ =>
  }

  const REPOSITORY_ERRORS: set<Error> := {RepoNotInitialized, DBUnavailable}
  const MONEY_ERRORS: set<Error> :=
    {EmptyAmount, InvalidAmountFormat, TooManyDecimals, InvalidDecimalPart, AmountOverflow}
  const CONTEXT_ERRORS: set<Error> := {Canceled, DeadlineExceeded}

  /** Some innermost error of e is in the set. */
  predicate Contains(e: Error, errors: set<Error>) {
    Leaves(e) * errors != {}
  }

  /**
   * Classification looks at the innermost errors alone: with a repository sentinel among them the error is retried, as
   * unavailable; else with a money sentinel it is a rejection, which is a bad request and no more than a warning; and
   * any other error is internal.
   */
  lemma ClassifyByLeaves(e: Error)
    ensures Classify(e).retryable <==> Contains(e, REPOSITORY_ERRORS)
    ensures Classify(e).reject <==> Contains(e, MONEY_ERRORS) && !Contains(e, REPOSITORY_ERRORS)
    ensures Classify(e).code == (if RepoNotInitialized in Leaves(e) then "repo_not_initialized"
                                 else if DBUnavailable in Leaves(e) then "db_unavailable"
                                 else if Contains(e, MONEY_ERRORS) then "invalid_amount_format"
                                 else "internal_error")
    ensures Classify(e).httpStatus
         == if Contains(e, REPOSITORY_ERRORS) then 503 else if Contains(e, MONEY_ERRORS) then 400 else 500
    ensures Classify(e).logLevel == LevelWarn <==> Classify(e).reject
  {
    IsMeansLeaf(e, RepoNotInitialized);
    IsMeansLeaf(e, DBUnavailable);
    MoneyErrorsByLeaves(e);
    hide Is, Leaves, IsMoneyError;
    assert RepoNotInitialized in REPOSITORY_ERRORS && DBUnavailable in REPOSITORY_ERRORS;
    ContainsIff(e, REPOSITORY_ERRORS);
  }

  lemma ContainsIff(e: Error, errors: set<Error>)
    ensures Contains(e, errors) <==> exists leaf :: leaf in errors && leaf in Leaves(e)
  {
    hide Leaves;
    if leaf :| leaf in errors && leaf in Leaves(e) {
      assert leaf in Leaves(e) * errors;
    }
  }

  lemma LeafContains(e: Error, errors: set<Error>)
    requires WrapsNothing(e)
    ensures Contains(e, errors) <==> e in errors
  {
    ContainsIff(e, errors);
  }

  lemma MoneyErrorsByLeaves(e: Error)
    ensures IsMoneyError(e) <==> Contains(e, MONEY_ERRORS)
  {
    IsMeansLeaf(e, EmptyAmount);
    IsMeansLeaf(e, InvalidAmountFormat);
    IsMeansLeaf(e, TooManyDecimals);
    IsMeansLeaf(e, InvalidDecimalPart);
    IsMeansLeaf(e, AmountOverflow);
    hide Is, Leaves;
    ContainsIff(e, MONEY_ERRORS);
  }

  lemma ContextErrorByLeaves(e: Error)
    ensures IsContextError(e) <==> Contains(e, CONTEXT_ERRORS)
  {
    IsMeansLeaf(e, Canceled);
    IsMeansLeaf(e, DeadlineExceeded);
    hide Is, Leaves;
    ContainsIff(e, CONTEXT_ERRORS);
  }

  /** An error that is retried, and then taken for a shutdown. */
  predicate Mixed(e: Error) {
    Retryable(e) && IsContextError(e)
  }

  /**
   * A terminal processing error is taken for a shutdown, and its message silently skipped, if and only if it is one
   * that was retried although a context error is among its innermost errors. Running out of retries otherwise, and
   * meeting an error that is not retryable, a per-call timeout included, end in the dead-letter queue.
   */
  lemma TerminalIsShutdownIff(e: Error, attempts: nat)
    ensures Retryable(e) ==> (IsContextError(ProcessFailed(attempts, e)) <==> Mixed(e))
    ensures Mixed(e) <==> Contains(e, REPOSITORY_ERRORS) && Contains(e, CONTEXT_ERRORS)
    ensures !IsContextError(NonRetryable(e))
  {
    ClassifyByLeaves(e);
    ContextErrorByLeaves(e);
    hide Classify, Contains, REPOSITORY_ERRORS, CONTEXT_ERRORS;
  }

  /** Errors of a single chain are never mixed. */
  lemma {:induction false} SingleChainIsNotMixed(e: Error, leaf: Error)
    requires Leaves(e) == {leaf}
    ensures !Mixed(e)
  {
    TerminalIsShutdownIff(e, 0);
    hide Mixed, Leaves;
  }
}
