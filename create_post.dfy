/** The `CreatePost` component: the owner chain up to the publish, then the `raw` transaction
    sent and its indexing raced against a 60 s timer. A result without `raw` is an error, and
    every failure after the branch is wrapped as `Transaction failed: ...`. */
module CreatePost {
  import opened Lens
  import opened BigInt
  import opened Stages
  import opened OwnerPost

  const PublishFailedPrefix := "Failed to create post: "
  const InvalidFormat := "Invalid transaction format received"
  const Fallback := "Failed to create post"
  const Created := "Post created successfully!"

  /** `PostFormData`. */
  datatype Form = Form(content: string, media: Option<File>)

  /** The wallet hooks and the component's props the handler reads. */
  datatype Context = Context(address: Option<string>, hasWalletClient: bool, profileId: string)

  /** How each collaborator call the handler may make settles. */
  datatype World = World(chain: Outcomes, send: Attempt<string>, race: Race<LensResult<string>>)

  datatype State = State(isPosting: bool, error: Option<string>, successMessage: Option<string>, form: Form)

  /** The early return: nothing happens without a connected address, a wallet client and a
      profile id. */
  predicate Guard(ctx: Context)
  {
    Present(ctx.address) && ctx.hasWalletClient && ctx.profileId != ""
  }

  /** The publish succeeded with a `raw` transaction. */
  predicate PublishedRaw(address: string, form: Form, w: World)
  {
    Published(address, form.media, w.chain) && w.chain.publish.value.value.WithRaw?
  }

  /** The outer `try` block of `handleCreatePost`, past the guard. */
  function Submit(address: string, profileId: string, form: Form, w: World): (r: Run<()>)
    requires address != ""
    ensures var p := PublishText(address, profileId, form.content, form.media, w.chain, PublishFailedPrefix);
            |p.calls| <= |r.calls| && r.calls[..|p.calls|] == p.calls && (p.result.Threw? ==> r == Run(p.calls, Threw(p.result.exception)))
  {
    var p := PublishText(address, profileId, form.content, form.media, w.chain, PublishFailedPrefix);
    match p.result
    case Threw(e) => Run(p.calls, Threw(e))
    case Done((session, op)) =>
      After(p.calls, RacedTransaction(session, op, RejectNonRaw(InvalidFormat), w.send, w.race))
  }

  /** A login error ends the workflow with `Failed to authenticate` before any upload or publish. */
  lemma LoginError(address: string, profileId: string, form: Form, w: World)
    requires address != "" && w.chain.login.Done? && w.chain.login.value.Err?
    ensures Submit(address, profileId, form, w) ==
            Run([Login(AccountOwner(profileId, App, address))], Threw(Error(AuthenticateFailed)))
  {
    PublishLogin(address, profileId, form.content, form.media, w.chain, PublishFailedPrefix);
  }

  /** A publish error carries the SDK's message after `Failed to create post: `; a result without
      `raw` is rejected and the signer is never called. */
  lemma PublishErrors(address: string, profileId: string, form: Form, w: World)
    requires address != ""
    ensures Stored(address, form.media, w.chain) && w.chain.publish.Done? && w.chain.publish.value.Err? ==>
              Submit(address, profileId, form, w).result == Threw(Error(PublishFailedPrefix + w.chain.publish.value.message))
    ensures Published(address, form.media, w.chain) && w.chain.publish.value.value.WithoutRaw? ==>
              Submit(address, profileId, form, w).result == Threw(Error(InvalidFormat)) &&
              forall c :: c in Submit(address, profileId, form, w).calls ==> !c.SendTransaction?
  {
    PublishOutcome(address, profileId, form.content, form.media, w.chain, PublishFailedPrefix);
    var p := PublishText(address, profileId, form.content, form.media, w.chain, PublishFailedPrefix);
    if p.result.Done? {
      assert Submit(address, profileId, form, w).calls == p.calls + RacedTransaction(p.result.value.0, p.result.value.1, RejectNonRaw(InvalidFormat), w.send, w.race).calls;
    }
  }

  /** The signer is called only for a published `raw` operation, with the exact numeric values of
      its decimal fee fields. */
  lemma Signer(address: string, profileId: string, form: Form, w: World)
    requires address != ""
    ensures forall c :: c in Submit(address, profileId, form, w).calls && c.SendTransaction? ==>
              PublishedRaw(address, form, w) &&
              var raw := w.chain.publish.value.value.raw;
              IsDecimal(raw.gasLimit) && IsDecimal(raw.maxFeePerGas) && IsDecimal(raw.maxPriorityFeePerGas) &&
              c.tx == TxRequest(raw.to, raw.data, DecimalValue(raw.gasLimit),
                                DecimalValue(raw.maxFeePerGas), DecimalValue(raw.maxPriorityFeePerGas))
  {
    var p := PublishText(address, profileId, form.content, form.media, w.chain, PublishFailedPrefix);
    if p.result.Done? {
      var tail := RacedTransaction(p.result.value.0, p.result.value.1, RejectNonRaw(InvalidFormat), w.send, w.race);
      assert Submit(address, profileId, form, w).calls == p.calls + tail.calls;
    }
  }

  /** Past the `raw` branch every failure is `Transaction failed: ...`: the timer winning and an
      indexing error in particular. The workflow succeeds exactly when every step does. */
  lemma TransactionOutcome(address: string, profileId: string, form: Form, w: World)
    requires address != ""
    ensures PublishedRaw(address, form, w) && Submit(address, profileId, form, w).result.Threw? ==>
              var e := Submit(address, profileId, form, w).result.exception;
              e.Error? && StartsWith(e.message, TransactionFailedPrefix)
    ensures PublishedRaw(address, form, w) && TxFromRaw(w.chain.publish.value.value.raw).Done? && w.send.Done? &&
            w.race.TimerFirst? ==>
              Submit(address, profileId, form, w).result == Threw(Error(TransactionFailedPrefix + IndexingTimedOut))
    ensures PublishedRaw(address, form, w) && TxFromRaw(w.chain.publish.value.value.raw).Done? && w.send.Done? &&
            w.race.Settled? && w.race.outcome.Done? && w.race.outcome.value.Err? ==>
              Submit(address, profileId, form, w).result ==
              Threw(Error(TransactionFailedPrefix + IndexingFailedPrefix + w.race.outcome.value.message))
    ensures Submit(address, profileId, form, w).result.Done? <==>
              PublishedRaw(address, form, w) && TxFromRaw(w.chain.publish.value.value.raw).Done? && w.send.Done? &&
              w.race.Settled? && Succeeds(w.race.outcome)
  {
  }

  /** The component's `useState` hooks. */
  class Composer {
    var isPosting: bool
    var error: Option<string>
    var successMessage: Option<string>
    var form: Form

    function Snapshot(): State
      reads this
    {
      State(isPosting, error, successMessage, form)
    }

    constructor ()
      ensures Snapshot() == State(false, None, None, Form("", None))
    {
      isPosting := false;
      error := None;
      successMessage := None;
      form := Form("", None);
    }

    /** `handleInputChange`: the text area sets the content only. */
    method HandleInputChange(content: string)
      modifies this
      ensures Snapshot() == old(Snapshot()).(form := old(form).(content := content))
    {
      form := form.(content := content);
    }

    /** `handleFileChange`: the first picked file, or `null`, becomes the media. */
    method HandleFileChange(file: Option<File>)
      modifies this
      ensures Snapshot() == old(Snapshot()).(form := old(form).(media := file))
    {
      form := form.(media := file);
    }

    /** `handleCreatePost`: nothing happens without an address, a wallet client and a profile.
        Otherwise `isPosting` is set and the error cleared while the workflow runs, and
        `isPosting` ends false on every path. Success resets the form, sets the success message
        and calls `onSuccess`. A failure leaves the form and the success message alone and
        reports the same message to `error` and to `onError`. */
    method HandleCreatePost(ctx: Context, w: World) returns (calls: seq<Call>)
      modifies this
      ensures !Guard(ctx) ==> unchanged(this) && calls == []
      ensures Guard(ctx) ==>
                var s := Submit(ctx.address.value, ctx.profileId, old(form), w);
                !isPosting && |calls| == |s.calls| + 1 && calls[..|s.calls|] == s.calls &&
                (s.result.Done? ==>
                   error.None? && successMessage == Some(Created) && form == Form("", None) &&
                   calls[|s.calls|] == OnSuccess) &&
                (s.result.Threw? ==>
                   error == Some(MessageOf(s.result.exception, Fallback)) &&
                   successMessage == old(successMessage) && form == old(form) &&
                   calls[|s.calls|] == OnError(MessageOf(s.result.exception, Fallback)))
    {
      calls := [];
      if !Guard(ctx) {
        return;
      }
      isPosting := true;
      error := None;
      var attempt := Submit(ctx.address.value, ctx.profileId, form, w);
      calls := attempt.calls;
      match attempt.result {
        case Done(_) =>
          form := Form("", None);
          isPosting := false;
          successMessage := Some(Created);
          calls := calls + [OnSuccess];
        case Threw(e) =>
          var errorMessage := MessageOf(e, Fallback);
          error := Some(errorMessage);
          isPosting := false;
          calls := calls + [OnError(errorMessage)];
      }
    }
  }
}
