/** The `CreateLensProfile` component: log in as an onboarding user, upload the picture if one
    was picked (a failure is ignored), upload `account` metadata, create the account with the
    form's handle, let `handleWith` send the transaction, and wait for indexing with no timer. */
module CreateLensProfile {
  import opened Lens
  import opened Stages
  import opened StorageClient

  const OnboardingFailed := "Failed to login as onboarding user"
  const CreateFailedPrefix := "Failed to create account: "
  const IndexingFailed := "Failed to index transaction"
  const Fallback := "Failed to create account"

  datatype Context = Context(address: Option<string>, hasWalletClient: bool)

  /** How each collaborator call the handler may make settles; `transaction` is the result of
      `handleWith(walletClient)(operation)`. */
  datatype World = World(
    login: Attempt<LensResult<Session>>,
    pictureUpload: Attempt<string>,
    metadataUpload: Attempt<string>,
    create: Attempt<LensResult<Operation>>,
    transaction: Attempt<LensResult<string>>,
    wait: Attempt<LensResult<string>>)

  datatype State = State(isCreating: bool, error: Option<string>, form: ProfileForm)

  /** The early return: nothing happens without a connected address and a wallet client. */
  predicate Guard(ctx: Context)
  {
    Present(ctx.address) && ctx.hasWalletClient
  }

  /** The inner `try` around the picture upload: a rejected upload leaves `pictureUri` undefined;
      a resolved one is used as it is, even when empty. */
  function PictureStage(picture: Option<File>, upload: Attempt<string>): (r: Run<Option<string>>)
    ensures r.result.Done?
    ensures picture.None? ==> r == Run([], Done(None))
    ensures picture.Some? ==> r.calls == [StorageUploadFile(picture.value, None)]
    ensures r.result.value.Some? <==> picture.Some? && upload.Done?
    ensures r.result.value.Some? ==> r.result.value.value == upload.value
  {
    if picture.None? then Run([], Done(None))
    else
      var up := UploadFile(picture.value, None, upload);
      Run(up.calls, match up.result case Done(uri) => Done(Some(uri)) case Threw(_) => Done(None))
  }

  /** The account metadata: name and bio present only when non-empty, the picture URI as the
      upload gave it. */
  function ProfileMetadata(form: ProfileForm, pictureUri: Option<string>): (m: Metadata)
    ensures m.AccountMetadata?
    ensures m.name.Some? <==> form.name != ""
    ensures m.bio.Some? <==> form.bio != ""
    ensures m.name.Some? ==> m.name.value == form.name
    ensures m.bio.Some? ==> m.bio.value == form.bio
    ensures m.picture == pictureUri
  {
    AccountMetadata(OrNull(Some(form.name)), OrNull(Some(form.bio)), pictureUri)
  }

  /** The outer `try` block of `handleCreateAccount`, past the guard. */
  function Submit(address: string, form: ProfileForm, w: World): (r: Run<()>)
    ensures |r.calls| >= 1 && r.calls[0] == Login(OnboardingUser(App, address))
  {
    var login := LensStep(Login(OnboardingUser(App, address)), w.login, Fixed(OnboardingFailed));
    match login.result
    case Threw(e) => Run(login.calls, Threw(e))
    case Done(session) =>
      var pic := PictureStage(form.picture, w.pictureUpload);
      var meta := UploadAsJson(ProfileMetadata(form, pic.result.value), None, w.metadataUpload);
      var stored := login.calls + pic.calls + meta.calls;
      match meta.result
      case Threw(e) => Run(stored, Threw(e))
      case Done(uri) =>
        var created := LensStep(CreateAccountWithUsername(session, form.handle, uri), w.create, Prefixed(CreateFailedPrefix));
        match created.result
        case Threw(e) => Run(stored + created.calls, Threw(e))
        case Done(op) =>
          var tx := LensStep(HandleWith(op), w.transaction, Prefixed(TransactionFailedPrefix));
          match tx.result
          case Threw(e) => Run(stored + created.calls + tx.calls, Threw(e))
          case Done(hash) =>
            Run(stored + created.calls + tx.calls + [WaitForTransaction(session, hash)],
                Indexed(w.wait, Fixed(IndexingFailed)))
  }

  /** Everything up to the account creation succeeded. */
  predicate Stored(w: World)
  {
    Succeeds(w.login) && w.metadataUpload.Done?
  }

  /** An onboarding-login error ends with `Failed to login as onboarding user` and no other call. */
  lemma LoginError(address: string, form: ProfileForm, w: World)
    requires w.login.Done? && w.login.value.Err?
    ensures Submit(address, form, w) == Run([Login(OnboardingUser(App, address))], Threw(Error(OnboardingFailed)))
  {
  }

  /** A failed picture upload is swallowed: the workflow goes on exactly as if the upload had
      never been attempted, except for the upload call itself and the missing picture. */
  lemma PictureFailureIgnored(address: string, form: ProfileForm, w: World)
    requires Succeeds(w.login) && form.picture.Some? && w.pictureUpload.Threw?
    ensures var r := Submit(address, form, w);
            var q := Submit(address, form.(picture := None), w);
            r.result == q.result && r.calls == [q.calls[0], StorageUploadFile(form.picture.value, None)] + q.calls[1..]
  {
    var r := Submit(address, form, w);
    var q := Submit(address, form.(picture := None), w);
    assert ProfileMetadata(form, None) == ProfileMetadata(form.(picture := None), None);
  }

  /** The metadata drops an empty name or bio and carries the picture URI as uploaded; the
      account is created with the form's handle as its local name and the metadata's URI, and
      only once the metadata is stored. */
  lemma AccountRequest(address: string, form: ProfileForm, w: World)
    requires Succeeds(w.login)
    ensures var r := Submit(address, form, w);
            var pictureUri := if form.picture.Some? && w.pictureUpload.Done? then Some(w.pictureUpload.value) else None;
            StorageUploadJson(ProfileMetadata(form, pictureUri), None) in r.calls &&
            (Stored(w) ==> CreateAccountWithUsername(w.login.value.value, form.handle, w.metadataUpload.value) in r.calls) &&
            ((exists c :: c in r.calls && c.CreateAccountWithUsername?) ==> Stored(w))
  {
  }

  /** A rejected metadata upload ends the workflow with its own error before any creation; an
      account-creation error carries `Failed to create account: `, a `handleWith` error
      `Transaction failed: `, and an indexing error is the fixed `Failed to index transaction`;
      rejections propagate unchanged; no timer is started. The workflow succeeds exactly when every step does. */
  lemma Outcomes(address: string, form: ProfileForm, w: World)
    ensures Succeeds(w.login) && w.metadataUpload.Threw? ==>
              Submit(address, form, w).result == Threw(w.metadataUpload.exception) &&
              forall c :: c in Submit(address, form, w).calls ==> !c.CreateAccountWithUsername?
    ensures Stored(w) && w.create.Threw? ==> Submit(address, form, w).result == Threw(w.create.exception)
    ensures Stored(w) && Succeeds(w.create) && w.transaction.Threw? ==>
              Submit(address, form, w).result == Threw(w.transaction.exception)
    ensures Stored(w) && w.create.Done? && w.create.value.Err? ==>
              Submit(address, form, w).result == Threw(Error(CreateFailedPrefix + w.create.value.message))
    ensures Stored(w) && Succeeds(w.create) && w.transaction.Done? && w.transaction.value.Err? ==>
              Submit(address, form, w).result == Threw(Error(TransactionFailedPrefix + w.transaction.value.message))
    ensures Stored(w) && Succeeds(w.create) && Succeeds(w.transaction) ==>
              Last(Submit(address, form, w).calls) == Some(WaitForTransaction(w.login.value.value, w.transaction.value.value))
    ensures Stored(w) && Succeeds(w.create) && Succeeds(w.transaction) && w.wait.Done? && w.wait.value.Err? ==>
              Submit(address, form, w).result == Threw(Error(IndexingFailed))
    ensures forall c :: c in Submit(address, form, w).calls ==> !c.StartTimer? && !c.SendTransaction?
    ensures Submit(address, form, w).result.Done? <==>
              Stored(w) && Succeeds(w.create) && Succeeds(w.transaction) && Succeeds(w.wait)
  {
  }

  /** The component's `useState` hooks. */
  class Creator {
    var isCreating: bool
    var error: Option<string>
    var form: ProfileForm

    function Snapshot(): State
      reads this
    {
      State(isCreating, error, form)
    }

    constructor ()
      ensures Snapshot() == State(false, None, ProfileForm("", "", "", None))
    {
      isCreating := false;
      error := None;
      form := ProfileForm("", "", "", None);
    }

    /** `handleFormChange`: the form fields hand over the whole new form. */
    method HandleFormChange(data: ProfileForm)
      modifies this
      ensures Snapshot() == old(Snapshot()).(form := data)
    {
      form := data;
    }

    /** `handleCreateAccount`: nothing happens without an address and a wallet client. Otherwise
        `isCreating` ends false on every path; success calls `onSuccess`; a failure reports the
        same message to `error` and to `onError`. */
    method HandleCreateAccount(ctx: Context, w: World) returns (calls: seq<Call>)
      modifies this
      ensures !Guard(ctx) ==> unchanged(this) && calls == []
      ensures Guard(ctx) ==>
                var s := Submit(ctx.address.value, old(form), w);
                !isCreating && form == old(form) && |calls| == |s.calls| + 1 && calls[..|s.calls|] == s.calls &&
                (s.result.Done? ==> error.None? && calls[|s.calls|] == OnSuccess) &&
                (s.result.Threw? ==>
                   error == Some(MessageOf(s.result.exception, Fallback)) &&
                   calls[|s.calls|] == OnError(MessageOf(s.result.exception, Fallback)))
    {
      calls := [];
      if !Guard(ctx) {
        return;
      }
      isCreating := true;
      error := None;
      var attempt := Submit(ctx.address.value, form, w);
      calls := attempt.calls;
      match attempt.result {
        case Done(_) =>
          isCreating := false;
          calls := calls + [OnSuccess];
        case Threw(e) =>
          var errorMessage := MessageOf(e, Fallback);
          error := Some(errorMessage);
          isCreating := false;
          calls := calls + [OnError(errorMessage)];
      }
    }
  }
}
