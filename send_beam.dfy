/** The `SendBeam` component: the owner chain up to the publish, then, only for a `raw`
    result, the transaction sent and its indexing awaited with no timer. A result without `raw`
    counts as sent, and send and indexing failures are not wrapped. */
module SendBeam {
  import opened Lens
  import opened BigInt
  import opened Stages
  import opened OwnerPost

  const PublishFailedPrefix := "Failed to create beam: "
  const Fallback := "Failed to send beam"
  const Sent := "Beam sent successfully!"
  const DefaultCurrency := "ethereum"

  /** `BeamFormData`. */
  datatype Form = Form(content: string, media: Option<File>, currency: string, amount: string)

  /** The form's initial value, and what a successful send resets it to. */
  const EmptyForm := Form("", None, DefaultCurrency, "")

  /** The `name` of the inputs `handleInputChange` serves. */
  datatype Field = Content | Currency | Amount

  /** The form update on input: the named field takes the value, the others are kept. */
  function WithField(form: Form, field: Field, value: string): (r: Form)
    ensures r.media == form.media
    ensures field == Content ==> r.content == value && r.currency == form.currency && r.amount == form.amount
    ensures field == Currency ==> r.currency == value && r.content == form.content && r.amount == form.amount
    ensures field == Amount ==> r.amount == value && r.content == form.content && r.currency == form.currency
  {
    match field
    case Content => form.(content := value)
    case Currency => form.(currency := value)
    case Amount => form.(amount := value)
  }

  datatype Context = Context(address: Option<string>, hasWalletClient: bool, profileId: string)

  /** How each collaborator call the handler may make settles. */
  datatype World = World(chain: Outcomes, send: Attempt<string>, wait: Attempt<LensResult<string>>)

  datatype State = State(isPosting: bool, error: Option<string>, successMessage: Option<string>, form: Form)

  /** The early return: nothing happens without a connected address, a wallet client and a
      profile id. */
  predicate Guard(ctx: Context)
  {
    Present(ctx.address) && ctx.hasWalletClient && ctx.profileId != ""
  }

  predicate PublishedRaw(address: string, form: Form, w: World)
  {
    Published(address, form.media, w.chain) && w.chain.publish.value.value.WithRaw?
  }

  /** The `try` block of `handleCreateBeam`, past the guard. */
  function Submit(address: string, profileId: string, form: Form, w: World): (r: Run<()>)
    requires address != ""
    ensures var p := PublishText(address, profileId, form.content, form.media, w.chain, PublishFailedPrefix);
            |p.calls| <= |r.calls| && r.calls[..|p.calls|] == p.calls &&
            (p.result.Threw? ==> r == Run(p.calls, Threw(p.result.exception)))
  {
    var p := PublishText(address, profileId, form.content, form.media, w.chain, PublishFailedPrefix);
    match p.result
    case Threw(e) => Run(p.calls, Threw(e))
    case Done((session, op)) =>
      match op
      case WithoutRaw(_) => Run(p.calls, Done(()))
      case WithRaw(raw) => After(p.calls, SendAndWait(session, raw, w.send, w.wait))
  }

  /** A login error ends the workflow with `Failed to authenticate` before any upload or publish. */
  lemma LoginError(address: string, profileId: string, form: Form, w: World)
    requires address != "" && w.chain.login.Done? && w.chain.login.value.Err?
    ensures Submit(address, profileId, form, w) ==
            Run([Login(AccountOwner(profileId, App, address))], Threw(Error(AuthenticateFailed)))
  {
    PublishLogin(address, profileId, form.content, form.media, w.chain, PublishFailedPrefix);
  }

  /** A publish error carries the SDK's message after `Failed to create beam: `; a result without
      `raw` is a success with no further call. */
  lemma PublishOutcomes(address: string, profileId: string, form: Form, w: World)
    requires address != ""
    ensures Stored(address, form.media, w.chain) && w.chain.publish.Done? && w.chain.publish.value.Err? ==>
              Submit(address, profileId, form, w).result == Threw(Error(PublishFailedPrefix + w.chain.publish.value.message))
    ensures Published(address, form.media, w.chain) && w.chain.publish.value.value.WithoutRaw? ==>
              Submit(address, profileId, form, w).result == Done(()) &&
              Submit(address, profileId, form, w).calls ==
              PublishText(address, profileId, form.content, form.media, w.chain, PublishFailedPrefix).calls
  {
    PublishOutcome(address, profileId, form.content, form.media, w.chain, PublishFailedPrefix);
  }

  /** No timer is ever started: indexing is awaited without a race. */
  lemma NoTimer(address: string, profileId: string, form: Form, w: World)
    requires address != ""
    ensures forall c :: c in Submit(address, profileId, form, w).calls ==> !c.StartTimer?
  {
    var p := PublishText(address, profileId, form.content, form.media, w.chain, PublishFailedPrefix);
    assert forall c :: c in p.calls ==> !c.StartTimer?;
    if p.result.Done? && p.result.value.1.WithRaw? {
      var tail := SendAndWait(p.result.value.0, p.result.value.1.raw, w.send, w.wait);
      assert forall c :: c in tail.calls ==> !c.StartTimer?;
      assert Submit(address, profileId, form, w).calls == p.calls + tail.calls;
      assert forall c :: c in p.calls + tail.calls ==> c in p.calls || c in tail.calls;
    } else {
      assert Submit(address, profileId, form, w).calls == p.calls;
    }
  }

  /** The signer is called only after a `raw` publish, with the exact numeric fee values. */
  lemma Signer(address: string, profileId: string, form: Form, w: World)
    requires address != ""
    ensures forall c :: c in Submit(address, profileId, form, w).calls && c.SendTransaction? ==>
              PublishedRaw(address, form, w) &&
              var raw := w.chain.publish.value.value.raw;
              IsDecimal(raw.gasLimit) && IsDecimal(raw.maxFeePerGas) && IsDecimal(raw.maxPriorityFeePerGas) &&
              c.tx == TxRequest(raw.to, raw.data, DecimalValue(raw.gasLimit),
                                DecimalValue(raw.maxFeePerGas), DecimalValue(raw.maxPriorityFeePerGas))
  {
    var p := PublishText(address, profileId, form.content, form.media, w.chain, PublishFailedPrefix);
    if p.result.Done? && p.result.value.1.WithRaw? {
      var tail := SendAndWait(p.result.value.0, p.result.value.1.raw, w.send, w.wait);
      assert Submit(address, profileId, form, w).calls == p.calls + tail.calls;
      assert forall c :: c in p.calls + tail.calls ==> c in p.calls || c in tail.calls;
    }
  }

  /** After a `raw` publish, failures are not wrapped: a field `BigInt` cannot convert and a
      rejected send propagate as they are, and an indexing error becomes
      `Failed to index transaction: <message>`. */
  lemma TransactionOutcome(address: string, profileId: string, form: Form, w: World)
    requires address != ""
    ensures PublishedRaw(address, form, w) && TxFromRaw(w.chain.publish.value.value.raw).Threw? ==>
              Submit(address, profileId, form, w).result == Threw(TxFromRaw(w.chain.publish.value.value.raw).exception)
    ensures PublishedRaw(address, form, w) && TxFromRaw(w.chain.publish.value.value.raw).Done? && w.send.Threw? ==>
              Submit(address, profileId, form, w).result == Threw(w.send.exception)
    ensures PublishedRaw(address, form, w) && TxFromRaw(w.chain.publish.value.value.raw).Done? && w.send.Done? &&
            w.wait.Done? && w.wait.value.Err? ==>
              Submit(address, profileId, form, w).result == Threw(Error(IndexingFailedPrefix + w.wait.value.message))
    ensures Submit(address, profileId, form, w).result.Done? <==>
              Published(address, form.media, w.chain) &&
              (w.chain.publish.value.value.WithRaw? ==>
                 TxFromRaw(w.chain.publish.value.value.raw).Done? && w.send.Done? && Succeeds(w.wait))
  {
  }

  /** The component's `useState` hooks (the essence estimate is not modelled). */
  class Beam {
    var isPosting: bool
    var error: Option<string>
    var successMessage: Option<string>
    var form: Form

    function Snapshot(): State
      reads this
    {
      State(isPosting, error, successMessage, form)
    }

    constructor ()
      ensures Snapshot() == State(false, None, None, EmptyForm)
    {
      isPosting := false;
      error := None;
      successMessage := None;
      form := EmptyForm;
    }

    /** `handleInputChange`: only the named field of the form changes. */
    method HandleInputChange(field: Field, value: string)
      modifies this
      ensures Snapshot() == old(Snapshot()).(form := WithField(old(form), field, value))
    {
      form := WithField(form, field, value);
    }

    /** `handleFileChange`: the first picked file, or `null`, becomes the media. */
    method HandleFileChange(file: Option<File>)
      modifies this
      ensures Snapshot() == old(Snapshot()).(form := old(form).(media := file))
    {
      form := form.(media := file);
    }

    /** `handleCreateBeam`: nothing happens without an address, a wallet client and a profile.
        Otherwise `isPosting` ends false on every path; success resets the whole form, currency
        included, sets the success message and calls `onSuccess`; a failure leaves the form and
        the success message alone and reports the same message to `error` and to `onError`. */
    method HandleCreateBeam(ctx: Context, w: World) returns (calls: seq<Call>)
      modifies this
      ensures !Guard(ctx) ==> unchanged(this) && calls == []
      ensures Guard(ctx) ==>
                var s := Submit(ctx.address.value, ctx.profileId, old(form), w);
                !isPosting && |calls| == |s.calls| + 1 && calls[..|s.calls|] == s.calls &&
                (s.result.Done? ==>
                   error.None? && successMessage == Some(Sent) && form == EmptyForm &&
                   calls[|s.calls|] == OnSuccess) &&
                (s.result.Threw? ==>
                   error == Some(MessageOf(s.result.exception, Fallback)) &&
                   successMessage == old(successMessage) && form == old(form) &&
                   calls[|s.calls|] == OnError(MessageOf(s.result.exception, Fallback)))
    {
      calls := [];
      if !Guard(ctx) {
        return;
      }
      isPosting := true;
      error := None;
      var attempt := Submit(ctx.address.value, ctx.profileId, form, w);
      calls := attempt.calls;
      match attempt.result {
        case Done(_) =>
          form := EmptyForm;
          isPosting := false;
          successMessage := Some(Sent);
          calls := calls + [OnSuccess];
        case Threw(e) =>
          var errorMessage := MessageOf(e, Fallback);
          error := Some(errorMessage);
          isPosting := false;
          calls := calls + [OnError(errorMessage)];
      }
    }
  }
}
