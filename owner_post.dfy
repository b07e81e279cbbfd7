/** The chain `CreatePost` and `SendBeam` share up to the publish: log in as the account
    owner, upload the picked media, upload text-only metadata under the owner's ACL, and
    `post` it. The sites differ only in the publish error prefix here, and in what follows. */
module OwnerPost {
  import opened Lens
  import opened Stages
  import opened StorageClient

  const AuthenticateFailed := "Failed to authenticate"

  /** How the login, the two uploads and the publish settle. */
  datatype Outcomes = Outcomes(
    login: Attempt<LensResult<Session>>,
    mediaUpload: Attempt<string>,
    metadataUpload: Attempt<string>,
    publish: Attempt<LensResult<Operation>>)

  /** The optional media upload: with a picked file, its URI from the storage client with the
      owner's address; without one, no call and no URI. */
  function MediaStage(media: Option<File>, address: string, upload: Attempt<string>): (r: Run<Option<string>>)
    requires address != ""
    ensures media.None? ==> r == Run([], Done(None))
    ensures media.Some? && StartsWith(address, "0x") ==>
              r.calls == [StorageUploadFile(media.value, Some(LensAccountOnly(address)))] &&
              (upload.Done? ==> r.result == Done(Some(upload.value))) &&
              (upload.Threw? ==> r.result == Threw(upload.exception))
    ensures media.Some? && !StartsWith(address, "0x") ==> r == Run([], Threw(Error(InvalidAddress)))
    ensures r.result.Done? ==> OrNull(r.result.value) == UploadedUri(media, upload)
  {
    if media.None? then Run([], Done(None))
    else
      var up := UploadFile(media.value, Some(address), upload);
      Run(up.calls, match up.result case Done(uri) => Done(Some(uri)) case Threw(e) => Threw(e))
  }

  /** The login, the media upload (when media was picked) and the metadata upload all succeeded. */
  predicate Stored(address: string, media: Option<File>, o: Outcomes)
  {
    Succeeds(o.login) && StartsWith(address, "0x") && (media.None? || o.mediaUpload.Done?) && o.metadataUpload.Done?
  }

  /** Every step up to and including the publish succeeded. */
  predicate Published(address: string, media: Option<File>, o: Outcomes)
  {
    Stored(address, media, o) && Succeeds(o.publish)
  }

  /** From the login to the publish's `isErr` check: the session and the published operation.
      Its properties are the lemmas below. */
  function PublishText(address: string, profileId: string, content: string, media: Option<File>,
                       o: Outcomes, publishPrefix: string): (r: Run<(Session, Operation)>)
    requires address != ""
    ensures |r.calls| >= 1 && r.calls[0] == Login(AccountOwner(profileId, App, address))
    ensures forall c :: c in r.calls ==> c.Login? || c.StorageUploadFile? || c.StorageUploadJson? || c.Post?
    ensures r.result.Done? <==> Published(address, media, o)
    ensures r.result.Done? ==> r.result.value == (o.login.value.value, o.publish.value.value)
  {
    var login := LensStep(Login(AccountOwner(profileId, App, address)), o.login, Fixed(AuthenticateFailed));
    match login.result
    case Threw(e) => Run(login.calls, Threw(e))
    case Done(session) =>
      var m := MediaStage(media, address, o.mediaUpload);
      match m.result
      case Threw(e) => Run(login.calls + m.calls, Threw(e))
      case Done(mediaUri) =>
        var meta := UploadAsJson(TextOnly(content, OrNull(mediaUri)), Some(address), o.metadataUpload);
        match meta.result
        case Threw(e) => Run(login.calls + m.calls + meta.calls, Threw(e))
        case Done(uri) =>
          var pub := LensStep(Post(session, uri), o.publish, Prefixed(publishPrefix));
          var calls := login.calls + m.calls + meta.calls + pub.calls;
          match pub.result
          case Threw(e) => Run(calls, Threw(e))
          case Done(op) => Run(calls, Done((session, op)))
  }

  /** A login that fails makes no other call; its error result becomes `Failed to authenticate`
      and a rejection propagates unchanged. */
  lemma PublishLogin(address: string, profileId: string, content: string, media: Option<File>,
                     o: Outcomes, publishPrefix: string)
    requires address != ""
    ensures !Succeeds(o.login) ==>
              PublishText(address, profileId, content, media, o, publishPrefix).calls ==
              [Login(AccountOwner(profileId, App, address))]
    ensures o.login.Done? && o.login.value.Err? ==>
              PublishText(address, profileId, content, media, o, publishPrefix).result == Threw(Error(AuthenticateFailed))
    ensures o.login.Threw? ==>
              PublishText(address, profileId, content, media, o, publishPrefix).result == Threw(o.login.exception)
  {
  }

  /** The file upload is made only for picked media, and both uploads carry the owner's ACL; the
      metadata is text-only with the form's content and an attachment exactly when the media upload
      gave a URI. An address without `0x` fails before any upload. */
  lemma PublishUploads(address: string, profileId: string, content: string, media: Option<File>,
                       o: Outcomes, publishPrefix: string)
    requires address != ""
    ensures forall c :: c in PublishText(address, profileId, content, media, o, publishPrefix).calls && c.StorageUploadFile? ==>
              media.Some? && c == StorageUploadFile(media.value, Some(LensAccountOnly(address)))
    ensures forall c :: c in PublishText(address, profileId, content, media, o, publishPrefix).calls && c.StorageUploadJson? ==>
              c == StorageUploadJson(TextOnly(content, UploadedUri(media, o.mediaUpload)), Some(LensAccountOnly(address)))
    ensures Succeeds(o.login) && !StartsWith(address, "0x") ==>
              PublishText(address, profileId, content, media, o, publishPrefix) ==
              Run([Login(AccountOwner(profileId, App, address))], Threw(Error(InvalidAddress)))
  {
  }

  /** The exact calls after a successful login with a valid address: a rejected media upload
      ends the chain right after it, a rejected metadata upload right after that upload, and
      once both are stored the post is the last call, whatever the publish gives. */
  lemma PublishTrace(address: string, profileId: string, content: string, media: Option<File>,
                     o: Outcomes, publishPrefix: string)
    requires address != ""
    ensures var r, login := PublishText(address, profileId, content, media, o, publishPrefix),
                            Login(AccountOwner(profileId, App, address));
            var mediaCalls := if media.Some? then [StorageUploadFile(media.value, Some(LensAccountOnly(address)))] else [];
            var json := StorageUploadJson(TextOnly(content, UploadedUri(media, o.mediaUpload)), Some(LensAccountOnly(address)));
            (Succeeds(o.login) && StartsWith(address, "0x") && media.Some? && o.mediaUpload.Threw? ==>
               r == Run([login] + mediaCalls, Threw(o.mediaUpload.exception))) &&
            (Succeeds(o.login) && StartsWith(address, "0x") && (media.None? || o.mediaUpload.Done?) && o.metadataUpload.Threw? ==>
               r == Run([login] + mediaCalls + [json], Threw(o.metadataUpload.exception))) &&
            (Stored(address, media, o) ==> r.calls == [login] + mediaCalls + [json, Post(o.login.value.value, o.metadataUpload.value)])
  {
  }

  /** Once everything is stored, the publish names the session and the metadata URI; its error
      result carries the site's prefix before the SDK's message. */
  lemma PublishOutcome(address: string, profileId: string, content: string, media: Option<File>,
                       o: Outcomes, publishPrefix: string)
    requires address != ""
    ensures Stored(address, media, o) ==>
              Last(PublishText(address, profileId, content, media, o, publishPrefix).calls) ==
              Some(Post(o.login.value.value, o.metadataUpload.value))
    ensures Stored(address, media, o) && o.publish.Done? && o.publish.value.Err? ==>
              PublishText(address, profileId, content, media, o, publishPrefix).result ==
              Threw(Error(publishPrefix + o.publish.value.message))
    ensures Stored(address, media, o) && o.publish.Threw? ==>
              PublishText(address, profileId, content, media, o, publishPrefix).result == Threw(o.publish.exception)
  {
  }}
