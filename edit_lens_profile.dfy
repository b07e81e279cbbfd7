/** The `EditProfile` component: log in as the owner of the current profile, upload the new
    picture if one was picked (a failure aborts the update), upload `account` metadata, call
    `setAccountMetadata`, then send the `raw` transaction and race its indexing against a 60 s
    timer. A result without `raw` is an error. */
module EditLensProfile {
  import opened Lens
  import opened BigInt
  import opened Stages
  import opened StorageClient

  const AuthenticateFailed := "Failed to authenticate"
  const UpdateFailedPrefix := "Failed to update profile: "
  const InvalidFormat := "Invalid transaction format received"
  const Fallback := "Failed to update profile"

  /** The wallet hooks and `currentProfile.id`. */
  datatype Context = Context(address: Option<string>, hasWalletClient: bool, currentProfileId: string)

  /** How each collaborator call the handler may make settles. */
  datatype World = World(
    login: Attempt<LensResult<Session>>,
    pictureUpload: Attempt<string>,
    metadataUpload: Attempt<string>,
    update: Attempt<LensResult<Operation>>,
    send: Attempt<string>,
    race: Race<LensResult<string>>)

  datatype State = State(isUpdating: bool, error: Option<string>, form: ProfileForm)

  /** The early return: nothing happens without a connected address and a wallet client; the
      profile id is not checked. */
  predicate Guard(ctx: Context)
  {
    Present(ctx.address) && ctx.hasWalletClient
  }

  /** The account metadata: each of name, bio and picture present only when non-empty. */
  function ProfileMetadata(form: ProfileForm, picture: Option<string>): (m: Metadata)
    ensures m.AccountMetadata?
    ensures m.name.Some? <==> form.name != ""
    ensures m.bio.Some? <==> form.bio != ""
    ensures m.name.Some? ==> m.name.value == form.name
    ensures m.bio.Some? ==> m.bio.value == form.bio
    ensures m.picture == OrNull(picture)
  {
    AccountMetadata(OrNull(Some(form.name)), OrNull(Some(form.bio)), OrNull(picture))
  }

  /** The login and the uploads succeeded. */
  predicate Stored(form: ProfileForm, w: World)
  {
    Succeeds(w.login) && (form.picture.None? || w.pictureUpload.Done?) && w.metadataUpload.Done?
  }

  predicate UpdatedRaw(form: ProfileForm, w: World)
  {
    Stored(form, w) && Succeeds(w.update) && w.update.value.value.WithRaw?
  }

  /** The optional picture upload, made without an address and so without an ACL; a rejected
      upload propagates. */
  function PictureStage(picture: Option<File>, upload: Attempt<string>): (r: Run<Option<string>>)
    ensures picture.None? ==> r == Run([], Done(None))
    ensures picture.Some? ==> r.calls == [StorageUploadFile(picture.value, None)] &&
                              (upload.Done? ==> r.result == Done(Some(upload.value))) &&
                              (upload.Threw? ==> r.result == Threw(upload.exception))
    ensures r.result.Done? ==> OrNull(r.result.value) == UploadedUri(picture, upload)
  {
    if picture.None? then Run([], Done(None))
    else
      var up := UploadFile(picture.value, None, upload);
      Run(up.calls, match up.result case Done(uri) => Done(Some(uri)) case Threw(e) => Threw(e))
  }

  /** From the login to the `setAccountMetadata` `isErr` check: the session and the operation. */
  function Update(address: string, profileId: string, form: ProfileForm, w: World): (r: Run<(Session, Operation)>)
    ensures |r.calls| >= 1 && r.calls[0] == Login(AccountOwner(profileId, App, address))
    ensures forall c :: c in r.calls ==> c.Login? || c.StorageUploadFile? || c.StorageUploadJson? || c.SetAccountMetadata?
    ensures r.result.Done? <==> Stored(form, w) && Succeeds(w.update)
    ensures r.result.Done? ==> r.result.value == (w.login.value.value, w.update.value.value)
    ensures Succeeds(w.login) && (form.picture.None? || w.pictureUpload.Done?) && w.metadataUpload.Threw? ==>
              r.result == Threw(w.metadataUpload.exception) && (forall c :: c in r.calls ==> !c.SetAccountMetadata?) &&
              r.calls == [Login(AccountOwner(profileId, App, address))] +
                         (if form.picture.Some? then [StorageUploadFile(form.picture.value, None)] else []) +
                         [StorageUploadJson(ProfileMetadata(form, if form.picture.Some? then Some(w.pictureUpload.value) else None), None)]
  {
    var login := LensStep(Login(AccountOwner(profileId, App, address)), w.login, Fixed(AuthenticateFailed));
    match login.result
    case Threw(e) => Run(login.calls, Threw(e))
    case Done(session) =>
      var pic := PictureStage(form.picture, w.pictureUpload);
      match pic.result
      case Threw(e) => Run(login.calls + pic.calls, Threw(e))
      case Done(picture) =>
        var meta := UploadAsJson(ProfileMetadata(form, picture), None, w.metadataUpload);
        match meta.result
        case Threw(e) => Run(login.calls + pic.calls + meta.calls, Threw(e))
        case Done(uri) =>
          var upd := LensStep(SetAccountMetadata(session, uri), w.update, Prefixed(UpdateFailedPrefix));
          var calls := login.calls + pic.calls + meta.calls + upd.calls;
          match upd.result
          case Threw(e) => Run(calls, Threw(e))
          case Done(op) => Run(calls, Done((session, op)))
  }

  /** The outer `try` block of `handleUpdateProfile`, past the guard. */
  function Submit(address: string, profileId: string, form: ProfileForm, w: World): (r: Run<()>)
    ensures var u := Update(address, profileId, form, w);
            |u.calls| <= |r.calls| && r.calls[..|u.calls|] == u.calls && (u.result.Threw? ==> r == Run(u.calls, Threw(u.result.exception)))
  {
    var u := Update(address, profileId, form, w);
    match u.result
    case Threw(e) => Run(u.calls, Threw(e))
    case Done((session, op)) =>
      After(u.calls, RacedTransaction(session, op, RejectNonRaw(InvalidFormat), w.send, w.race))
  }

  /** The calls of the workflow: those up to the update, then the transaction's. */
  lemma SubmitCalls(address: string, profileId: string, form: ProfileForm, w: World)
    ensures var u := Update(address, profileId, form, w);
            u.result.Done? ==>
              Submit(address, profileId, form, w).calls ==
              u.calls + RacedTransaction(u.result.value.0, u.result.value.1, RejectNonRaw(InvalidFormat), w.send, w.race).calls
  {
  }

  /** A login error ends the workflow with `Failed to authenticate` before any upload. */
  lemma LoginError(address: string, profileId: string, form: ProfileForm, w: World)
    requires w.login.Done? && w.login.value.Err?
    ensures Submit(address, profileId, form, w) ==
            Run([Login(AccountOwner(profileId, App, address))], Threw(Error(AuthenticateFailed)))
  {
  }

  /** The picture is uploaded, without an ACL, right after the login exactly when one was
      picked; a failed picture upload aborts the update with its own error before the metadata
      upload. */
  lemma PictureUpload(address: string, profileId: string, form: ProfileForm, w: World)
    requires Succeeds(w.login)
    ensures var r := Submit(address, profileId, form, w);
            (form.picture.Some? ==> |r.calls| >= 2 && r.calls[1] == StorageUploadFile(form.picture.value, None)) &&
            (form.picture.Some? && w.pictureUpload.Threw? ==>
               r == Run(r.calls[..2], Threw(w.pictureUpload.exception))) &&
            (form.picture.None? ==> forall c :: c in r.calls ==> !c.StorageUploadFile?)
  {
    var u := Update(address, profileId, form, w);
    SubmitCalls(address, profileId, form, w);
    if form.picture.Some? {
      assert u.calls[..2] == [Login(AccountOwner(profileId, App, address)), StorageUploadFile(form.picture.value, None)];
    } else if u.result.Done? {
      var tail := RacedTransaction(u.result.value.0, u.result.value.1, RejectNonRaw(InvalidFormat), w.send, w.race);
      assert forall c :: c in u.calls + tail.calls ==> c in u.calls || c in tail.calls;
    }
  }

  /** Up to the update, the only metadata upload is the `account` document of the form. */
  lemma UpdateMetadata(address: string, profileId: string, form: ProfileForm, w: World)
    ensures forall c :: c in Update(address, profileId, form, w).calls && c.StorageUploadJson? ==>
              c == StorageUploadJson(ProfileMetadata(form, UploadedUri(form.picture, w.pictureUpload)), None)
  {
    var pic := PictureStage(form.picture, w.pictureUpload);
    if Succeeds(w.login) && pic.result.Done? {
      var meta := ProfileMetadata(form, pic.result.value);
      assert meta == ProfileMetadata(form, UploadedUri(form.picture, w.pictureUpload));
      var login := [Login(AccountOwner(profileId, App, address))];
      var json := UploadAsJson(meta, None, w.metadataUpload).calls;
      assert forall c :: c in Update(address, profileId, form, w).calls ==>
               c in login || c in pic.calls || c in json || c.SetAccountMetadata?;
    }
  }

  /** The metadata upload carries no ACL and drops an empty name, bio or picture URI. */
  lemma MetadataUpload(address: string, profileId: string, form: ProfileForm, w: World)
    ensures forall c :: c in Submit(address, profileId, form, w).calls && c.StorageUploadJson? ==>
              c == StorageUploadJson(ProfileMetadata(form, UploadedUri(form.picture, w.pictureUpload)), None)
  {
    UpdateMetadata(address, profileId, form, w);
    SubmitCalls(address, profileId, form, w);
    var u := Update(address, profileId, form, w);
    if u.result.Done? {
      var tail := RacedTransaction(u.result.value.0, u.result.value.1, RejectNonRaw(InvalidFormat), w.send, w.race);
      assert forall c :: c in u.calls + tail.calls ==> c in u.calls || c in tail.calls;
    }
  }

  /** A `setAccountMetadata` error carries the SDK's message after `Failed to update profile: `;
      a result without `raw` is rejected with no signer call. */
  lemma UpdateOutcomes(address: string, profileId: string, form: ProfileForm, w: World)
    ensures Stored(form, w) && w.update.Done? && w.update.value.Err? ==>
              Submit(address, profileId, form, w).result == Threw(Error(UpdateFailedPrefix + w.update.value.message))
    ensures Stored(form, w) && Succeeds(w.update) && w.update.value.value.WithoutRaw? ==>
              Submit(address, profileId, form, w).result == Threw(Error(InvalidFormat)) &&
              forall c :: c in Submit(address, profileId, form, w).calls ==> !c.SendTransaction?
  {
  }

  /** After a `raw` result every failure is `Transaction failed: ...`, the timer winning in
      particular; the signer gets the exact fee values; the update succeeds exactly when every
      step does. */
  lemma TransactionOutcome(address: string, profileId: string, form: ProfileForm, w: World)
    ensures UpdatedRaw(form, w) && Submit(address, profileId, form, w).result.Threw? ==>
              var e := Submit(address, profileId, form, w).result.exception;
              e.Error? && StartsWith(e.message, TransactionFailedPrefix)
    ensures UpdatedRaw(form, w) && TxFromRaw(w.update.value.value.raw).Done? && w.send.Done? && w.race.TimerFirst? ==>
              Submit(address, profileId, form, w).result == Threw(Error(TransactionFailedPrefix + IndexingTimedOut))
    ensures forall c :: c in Submit(address, profileId, form, w).calls && c.SendTransaction? ==>
              UpdatedRaw(form, w) && TxFromRaw(w.update.value.value.raw).Done? &&
              c.tx == TxFromRaw(w.update.value.value.raw).value
    ensures Submit(address, profileId, form, w).result.Done? <==>
              UpdatedRaw(form, w) && TxFromRaw(w.update.value.value.raw).Done? && w.send.Done? &&
              w.race.Settled? && Succeeds(w.race.outcome)
  {
    var r := Submit(address, profileId, form, w);
    if Stored(form, w) && Succeeds(w.update) {
      var session := w.login.value.value;
      var tail := RacedTransaction(session, w.update.value.value, RejectNonRaw(InvalidFormat), w.send, w.race);
      var upd := LensStep(SetAccountMetadata(session, w.metadataUpload.value), w.update, Prefixed(UpdateFailedPrefix));
      assert r.calls == r.calls[..|r.calls| - |tail.calls|] + tail.calls;
    }
  }

  /** The component's `useState` hooks. */
  class Editor {
    var isUpdating: bool
    var error: Option<string>
    var form: ProfileForm

    function Snapshot(): State
      reads this
    {
      State(isUpdating, error, form)
    }

    /** The form starts from the current profile: an empty handle, its name and bio (`''` when
        missing) and no picture. */
    constructor (currentName: Option<string>, currentBio: Option<string>)
      ensures Snapshot() == State(false, None, ProfileForm("", currentName.GetOr(""), currentBio.GetOr(""), None))
    {
      isUpdating := false;
      error := None;
      form := ProfileForm("", currentName.GetOr(""), currentBio.GetOr(""), None);
    }

    /** `handleFormChange`: the form fields hand over the whole new form. */
    method HandleFormChange(data: ProfileForm)
      modifies this
      ensures Snapshot() == old(Snapshot()).(form := data)
    {
      form := data;
    }

    /** `handleUpdateProfile`: nothing happens without an address and a wallet client. Otherwise
        `isUpdating` ends false on every path; success calls `onSuccess` and keeps the form; a
        failure reports the same message to `error` and to `onError`. */
    method HandleUpdateProfile(ctx: Context, w: World) returns (calls: seq<Call>)
      modifies this
      ensures !Guard(ctx) ==> unchanged(this) && calls == []
      ensures Guard(ctx) ==>
                var s := Submit(ctx.address.value, ctx.currentProfileId, old(form), w);
                !isUpdating && form == old(form) && |calls| == |s.calls| + 1 && calls[..|s.calls|] == s.calls &&
                (s.result.Done? ==> error.None? && calls[|s.calls|] == OnSuccess) &&
                (s.result.Threw? ==>
                   error == Some(MessageOf(s.result.exception, Fallback)) &&
                   calls[|s.calls|] == OnError(MessageOf(s.result.exception, Fallback)))
    {
      calls := [];
      if !Guard(ctx) {
        return;
      }
      isUpdating := true;
      error := None;
      var attempt := Submit(ctx.address.value, ctx.currentProfileId, form, w);
      calls := attempt.calls;
      match attempt.result {
        case Done(_) =>
          isUpdating := false;
          calls := calls + [OnSuccess];
        case Threw(e) =>
          var errorMessage := MessageOf(e, Fallback);
          error := Some(errorMessage);
          isUpdating := false;
          calls := calls + [OnError(errorMessage)];
      }
    }
  }
}
