/** The steps the content-submission handlers chain together: call a Lens action and
    turn its error result into a thrown `Error`, send the `raw` transaction, wait for
    indexing (raced against a timer in some handlers), and wrap transaction failures. */
module Stages {
  import opened Lens
  import opened BigInt

  /** The timer every racing handler starts against `waitForTransaction`. */
  const IndexingTimeoutMs: nat := 60000

  const IndexingTimedOut := "Transaction indexing timed out"
  const IndexingFailedPrefix := "Failed to index transaction: "
  const TransactionFailedPrefix := "Transaction failed: "

  /** The message thrown for an error result: a fixed text, or a prefix before the SDK's message. */
  datatype ErrorText = Fixed(text: string) | Prefixed(prefix: string)

  function ErrorFor(t: ErrorText, message: string): string
  {
    match t
    case Fixed(text) => text
    case Prefixed(prefix) => prefix + message
  }

  /** A Lens action awaited and its result checked: exactly one call; a rejected promise
      propagates unchanged, an error result throws the site's message. */
  function LensStep<T>(call: Call, o: Attempt<LensResult<T>>, onErr: ErrorText): (r: Run<T>)
    ensures r.calls == [call]
    ensures r.result.Done? <==> Succeeds(o)
    ensures r.result.Done? ==> r.result.value == o.value.value
    ensures o.Threw? ==> r.result == Threw(o.exception)
    ensures o.Done? && o.value.Err? ==> r.result == Threw(Error(ErrorFor(onErr, o.value.message)))
  {
    match o
    case Threw(e) => Run([call], Threw(e))
    case Done(Err(m)) => Run([call], Threw(Error(ErrorFor(onErr, m))))
    case Done(Ok(v)) => Run([call], Done(v))
  }

  /** The `isErr` check after waiting for indexing: an error result throws the site's message. */
  function Indexed(o: Attempt<LensResult<string>>, onErr: ErrorText): (r: Attempt<()>)
    ensures r.Done? <==> Succeeds(o)
    ensures o.Threw? ==> r == Threw(o.exception)
    ensures o.Done? && o.value.Err? ==> r == Threw(Error(ErrorFor(onErr, o.value.message)))
  {
    match o
    case Threw(e) => Threw(e)
    case Done(Err(m)) => Threw(Error(ErrorFor(onErr, m)))
    case Done(Ok(_)) => Done(())
  }

  /** The request `sendTransaction` receives: `BigInt` of the three fee fields, in order. */
  function TxFromRaw(raw: RawTx): (r: Attempt<TxRequest>)
    ensures r.Done? <==> IsDecimal(raw.gasLimit) && IsDecimal(raw.maxFeePerGas) && IsDecimal(raw.maxPriorityFeePerGas)
    ensures r.Done? ==> r.value == TxRequest(raw.to, raw.data, DecimalValue(raw.gasLimit),
                                             DecimalValue(raw.maxFeePerGas), DecimalValue(raw.maxPriorityFeePerGas))
    ensures !IsDecimal(raw.gasLimit) ==> r == Threw(BigIntOf(raw.gasLimit).exception)
    ensures IsDecimal(raw.gasLimit) && !IsDecimal(raw.maxFeePerGas) ==> r == Threw(BigIntOf(raw.maxFeePerGas).exception)
    ensures IsDecimal(raw.gasLimit) && IsDecimal(raw.maxFeePerGas) && !IsDecimal(raw.maxPriorityFeePerGas) ==>
              r == Threw(BigIntOf(raw.maxPriorityFeePerGas).exception)
  {
    match BigIntOf(raw.gasLimit)
    case Threw(e) => Threw(e)
    case Done(gas) =>
      match BigIntOf(raw.maxFeePerGas)
      case Threw(e) => Threw(e)
      case Done(maxFee) =>
        match BigIntOf(raw.maxPriorityFeePerGas)
        case Threw(e) => Threw(e)
        case Done(priorityFee) => Done(TxRequest(raw.to, raw.data, gas, maxFee, priorityFee))
  }

  /** Sends the `raw` request: with three decimal fee fields the signer gets exactly their
      values and its outcome is the stage's; a field `BigInt` cannot convert throws the first
      such error before the signer is called. */
  function SendStage(raw: RawTx, send: Attempt<string>): (r: Run<string>)
    ensures IsDecimal(raw.gasLimit) && IsDecimal(raw.maxFeePerGas) && IsDecimal(raw.maxPriorityFeePerGas) ==>
              r == Run([SendTransaction(TxRequest(raw.to, raw.data, DecimalValue(raw.gasLimit),
                                                  DecimalValue(raw.maxFeePerGas), DecimalValue(raw.maxPriorityFeePerGas)))], send)
    ensures !IsDecimal(raw.gasLimit) ==> r == Run([], Threw(BigIntOf(raw.gasLimit).exception))
    ensures IsDecimal(raw.gasLimit) && !IsDecimal(raw.maxFeePerGas) ==> r == Run([], Threw(BigIntOf(raw.maxFeePerGas).exception))
    ensures IsDecimal(raw.gasLimit) && IsDecimal(raw.maxFeePerGas) && !IsDecimal(raw.maxPriorityFeePerGas) ==>
              r == Run([], Threw(BigIntOf(raw.maxPriorityFeePerGas).exception))
    ensures TxFromRaw(raw).Threw? ==> r == Run([], Threw(TxFromRaw(raw).exception))
  {
    match TxFromRaw(raw)
    case Threw(e) => Run([], Threw(e))
    case Done(tx) => Run([SendTransaction(tx)], send)
  }

  /** Waiting for indexing raced against the 60 s timer, then the result checked: the timer
      winning, an indexing error and a rejection are three distinct failures. */
  function IndexRace(session: Session, hash: string, race: Race<LensResult<string>>): (r: Run<()>)
    ensures r.calls == [WaitForTransaction(session, hash), StartTimer(IndexingTimeoutMs)]
    ensures r.result.Done? <==> race.Settled? && Succeeds(race.outcome)
    ensures race.TimerFirst? ==> r.result == Threw(Error(IndexingTimedOut))
    ensures race.Settled? && race.outcome.Threw? ==> r.result == Threw(race.outcome.exception)
    ensures race.Settled? && race.outcome.Done? && race.outcome.value.Err? ==>
              r.result == Threw(Error(IndexingFailedPrefix + race.outcome.value.message))
  {
    var calls := [WaitForTransaction(session, hash), StartTimer(IndexingTimeoutMs)];
    match race
    case TimerFirst => Run(calls, Threw(Error(IndexingTimedOut)))
    case Settled(o) => Run(calls, Indexed(o, Prefixed(IndexingFailedPrefix)))
  }

  /** The inner `catch (txError)`: every failure becomes `Transaction failed: <message>`. */
  function WrapTransactionFailure<T>(r: Run<T>): (w: Run<T>)
    ensures w.calls == r.calls
    ensures r.result.Done? ==> w.result == r.result
    ensures r.result.Threw? ==> w.result == Threw(Error(TransactionFailedPrefix + MessageOf(r.result.exception, "Unknown error")))
  {
    match r.result
    case Done(_) => r
    case Threw(e) => Run(r.calls, Threw(Error(TransactionFailedPrefix + MessageOf(e, "Unknown error"))))
  }

  /** Send the `raw` transaction, then race its indexing against the timer. */
  function SendAndRace(session: Session, raw: RawTx, send: Attempt<string>, race: Race<LensResult<string>>): (r: Run<()>)
    ensures r.result.Done? <==> TxFromRaw(raw).Done? && send.Done? && race.Settled? && Succeeds(race.outcome)
    ensures TxFromRaw(raw).Threw? ==> r == Run([], Threw(TxFromRaw(raw).exception))
    ensures TxFromRaw(raw).Done? && send.Threw? ==> r == Run([SendTransaction(TxFromRaw(raw).value)], Threw(send.exception))
    ensures TxFromRaw(raw).Done? && send.Done? ==>
              r.calls == [SendTransaction(TxFromRaw(raw).value), WaitForTransaction(session, send.value), StartTimer(IndexingTimeoutMs)] &&
              r.result == IndexRace(session, send.value, race).result
    ensures forall c :: c in r.calls ==> c.SendTransaction? || c.WaitForTransaction? || c.StartTimer?
    ensures forall c :: c in r.calls && c.SendTransaction? ==> TxFromRaw(raw).Done? && c == SendTransaction(TxFromRaw(raw).value)
  {
    var sent := SendStage(raw, send);
    match sent.result
    case Threw(e) => Run(sent.calls, Threw(e))
    case Done(hash) => After(sent.calls, IndexRace(session, hash, race))
  }

  /** Send the `raw` transaction, then wait for indexing with no timer. */
  function SendAndWait(session: Session, raw: RawTx, send: Attempt<string>, wait: Attempt<LensResult<string>>): (r: Run<()>)
    ensures r.result.Done? <==> TxFromRaw(raw).Done? && send.Done? && Succeeds(wait)
    ensures TxFromRaw(raw).Threw? ==> r == Run([], Threw(TxFromRaw(raw).exception))
    ensures TxFromRaw(raw).Done? && send.Threw? ==> r == Run([SendTransaction(TxFromRaw(raw).value)], Threw(send.exception))
    ensures TxFromRaw(raw).Done? && send.Done? ==>
              r.calls == [SendTransaction(TxFromRaw(raw).value), WaitForTransaction(session, send.value)] &&
              r.result == Indexed(wait, Prefixed(IndexingFailedPrefix))
    ensures forall c :: c in r.calls ==> c.SendTransaction? || c.WaitForTransaction? || c.StartTimer?
    ensures forall c :: c in r.calls && c.SendTransaction? ==> TxFromRaw(raw).Done? && c == SendTransaction(TxFromRaw(raw).value)
  {
    var sent := SendStage(raw, send);
    match sent.result
    case Threw(e) => Run(sent.calls, Threw(e))
    case Done(hash) =>
      Run(sent.calls + [WaitForTransaction(session, hash)], Indexed(wait, Prefixed(IndexingFailedPrefix)))
  }

  /** What a site does with a publish result that has no `raw` field: throw a fixed error, or
      count it as done. */
  datatype NonRaw = RejectNonRaw(message: string) | AcceptNonRaw

  /** The branch on the operation's `raw` field: the signer is called only for a `raw`
      operation, and every failure in that branch carries the `Transaction failed: ` prefix;
      the other branch does what the site chose. */
  function RacedTransaction(session: Session, op: Operation, nonRaw: NonRaw, send: Attempt<string>,
                            race: Race<LensResult<string>>): (r: Run<()>)
    ensures op.WithoutRaw? ==> r.calls == []
    ensures op.WithoutRaw? && nonRaw.RejectNonRaw? ==> r.result == Threw(Error(nonRaw.message))
    ensures op.WithoutRaw? && nonRaw.AcceptNonRaw? ==> r.result == Done(())
    ensures op.WithRaw? ==> r == WrapTransactionFailure(SendAndRace(session, op.raw, send, race))
    ensures op.WithRaw? && r.result.Threw? ==>
              r.result.exception.Error? && StartsWith(r.result.exception.message, TransactionFailedPrefix)
    ensures forall c :: c in r.calls ==> c.SendTransaction? || c.WaitForTransaction? || c.StartTimer?
    ensures forall c :: c in r.calls && c.SendTransaction? ==>
              op.WithRaw? && TxFromRaw(op.raw).Done? && c == SendTransaction(TxFromRaw(op.raw).value)
  {
    match op
    case WithoutRaw(_) =>
      Run([], match nonRaw case RejectNonRaw(m) => Threw(Error(m)) case AcceptNonRaw => Done(()))
    case WithRaw(raw) =>
      var w := WrapTransactionFailure(SendAndRace(session, raw, send, race));
      assert w.result.Threw? ==> w.result.exception.message[..|TransactionFailedPrefix|] == TransactionFailedPrefix;
      w
  }
}
