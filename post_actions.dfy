/** `createPost` in the post actions: resume the stored session, upload text-only metadata,
    publish, let `handleWith` send the transaction, and return the indexing result as it is. */
module PostActions {
  import opened Lens
  import opened Stages
  import opened StorageClient

  const NoSession := "No valid session found. Please login first."
  const PublishFailedPrefix := "Failed to create post: "

  /** How each collaborator call settles; `transaction` is `handleWith(signer)(operation)`. */
  datatype World = World(
    resumed: Attempt<LensResult<Session>>,
    metadataUpload: Attempt<string>,
    publish: Attempt<LensResult<Operation>>,
    transaction: Attempt<LensResult<string>>,
    indexed: Attempt<LensResult<string>>)

  /** Everything before the transaction succeeded. */
  predicate Published(w: World)
  {
    Succeeds(w.resumed) && w.metadataUpload.Done? && Succeeds(w.publish)
  }

  /** `createPost(content, signer)`: the promise it returns, and the calls it makes. A missing
      session throws before any upload; the metadata is text-only with no attachment and no ACL;
      publish and transaction errors carry their prefixes before the SDK's message; the indexing
      result, error included, is what the promise resolves to; the `catch` rethrows unchanged. */
  function CreatePost(content: string, w: World): (r: Run<LensResult<string>>)
    ensures |r.calls| >= 1 && r.calls[0] == Call.ResumeSession
    ensures !Succeeds(w.resumed) ==> r.calls == [Call.ResumeSession]
    ensures w.resumed.Done? && w.resumed.value.Err? ==> r.result == Threw(Error(NoSession))
    ensures w.resumed.Threw? ==> r.result == Threw(w.resumed.exception)
    ensures Succeeds(w.resumed) ==> |r.calls| >= 2 && r.calls[1] == StorageUploadJson(TextOnly(content, None), None)
    ensures Succeeds(w.resumed) && w.metadataUpload.Threw? ==>
              r.calls == [Call.ResumeSession, StorageUploadJson(TextOnly(content, None), None)] &&
              r.result == Threw(w.metadataUpload.exception)
    ensures Succeeds(w.resumed) && w.metadataUpload.Done? && !Succeeds(w.publish) ==>
              r.calls == [Call.ResumeSession, StorageUploadJson(TextOnly(content, None), None),
                          Post(w.resumed.value.value, w.metadataUpload.value)]
    ensures Succeeds(w.resumed) && w.metadataUpload.Done? ==>
              |r.calls| >= 3 && r.calls[2] == Post(w.resumed.value.value, w.metadataUpload.value)
    ensures Succeeds(w.resumed) && w.metadataUpload.Done? && w.publish.Done? && w.publish.value.Err? ==>
              r.result == Threw(Error(PublishFailedPrefix + w.publish.value.message))
    ensures Succeeds(w.resumed) && w.metadataUpload.Done? && w.publish.Threw? ==> r.result == Threw(w.publish.exception)
    ensures Published(w) ==> |r.calls| >= 4 && r.calls[3] == HandleWith(w.publish.value.value)
    ensures Published(w) && w.transaction.Done? && w.transaction.value.Err? ==>
              r.result == Threw(Error(TransactionFailedPrefix + w.transaction.value.message))
    ensures Published(w) && w.transaction.Threw? ==> r.result == Threw(w.transaction.exception)
    ensures Published(w) && !Succeeds(w.transaction) ==>
              r.calls == [Call.ResumeSession, StorageUploadJson(TextOnly(content, None), None),
                          Post(w.resumed.value.value, w.metadataUpload.value), HandleWith(w.publish.value.value)]
    ensures Published(w) && Succeeds(w.transaction) ==>
              r.calls == [Call.ResumeSession, StorageUploadJson(TextOnly(content, None), None),
                          Post(w.resumed.value.value, w.metadataUpload.value), HandleWith(w.publish.value.value),
                          WaitForTransaction(w.resumed.value.value, w.transaction.value.value)] &&
              r.result == w.indexed
    ensures r.result.Done? <==> Published(w) && Succeeds(w.transaction) && w.indexed.Done?
  {
    var resumed := LensStep(Call.ResumeSession, w.resumed, Fixed(NoSession));
    match resumed.result
    case Threw(e) => Run(resumed.calls, Threw(e))
    case Done(session) =>
      var meta := UploadAsJson(TextOnly(content, None), None, w.metadataUpload);
      match meta.result
      case Threw(e) => Run(resumed.calls + meta.calls, Threw(e))
      case Done(uri) =>
        var pub := LensStep(Post(session, uri), w.publish, Prefixed(PublishFailedPrefix));
        match pub.result
        case Threw(e) => Run(resumed.calls + meta.calls + pub.calls, Threw(e))
        case Done(op) =>
          var tx := LensStep(HandleWith(op), w.transaction, Prefixed(TransactionFailedPrefix));
          match tx.result
          case Threw(e) => Run(resumed.calls + meta.calls + pub.calls + tx.calls, Threw(e))
          case Done(hash) =>
            Run(resumed.calls + meta.calls + pub.calls + tx.calls + [WaitForTransaction(session, hash)], w.indexed)
  }

  /** An indexing error is returned, not thrown: the caller sees the `Err` result. */
  lemma IndexingErrorReturned(content: string, w: World)
    requires Published(w) && Succeeds(w.transaction) && w.indexed.Done? && w.indexed.value.Err?
    ensures CreatePost(content, w).result.Done? && CreatePost(content, w).result.value.Err?
    ensures CreatePost(content, w).result.value.message == w.indexed.value.message
  {
  }
}
