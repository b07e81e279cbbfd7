/** The `CreateBeacon` component: after the account-owner login the generated scene page is
    uploaded, an `embed` metadata document naming it is uploaded, and the post is published;
    a `raw` result is sent and its indexing raced against a 60 s timer. Neither upload names an
    address, so neither carries an ACL. A result without `raw` counts as created. */
module CreateBeacon {
  import opened Lens
  import opened BigInt
  import opened Stages
  import opened StorageClient

  const AuthenticateFailed := "Failed to authenticate"
  const PublishFailedPrefix := "Failed to create post: "
  const Fallback := "Failed to create beacon"
  const Created := "Beacon created successfully!"
  const EmbedFocus := "EMBED"

  // ---- `createSceneHTML` ----

  /** The page up to the module script: the React, React Three Fiber, three.js and drei
      bundles, a full-viewport canvas style and the `root` element. */
  const SceneHead :=
    "<!DOCTYPE html>\n" +
    "      <html>\n" +
    "        <head>\n" +
    "          <meta charset=\"utf-8\">\n" +
    "          <script src=\"https://unpkg.com/react@18/umd/react.production.min.js\"></script>\n" +
    "          <script src=\"https://unpkg.com/react-dom@18/umd/react-dom.production.min.js\"></script>\n" +
    "          <script src=\"https://unpkg.com/@react-three/fiber@8.12.0/dist/react-three-fiber.min.js\"></script>\n" +
    "          <script src=\"https://unpkg.com/three@0.150.1/build/three.min.js\"></script>\n" +
    "          <script src=\"https://unpkg.com/@react-three/drei@9.65.3/index.min.js\"></script>\n" +
    "          <style>\n" +
    "            body { margin: 0; }\n" +
    "            canvas { width: 100vw; height: 100vh; }\n" +
    "          </style>\n" +
    "        </head>\n" +
    "        <body>\n" +
    "          <div id=\"root\"></div>\n" +
    "          "
  const ModuleOpen := "<script type=\"module\">"
  const ScriptIndent := "\n            "
  const CloseIndent := "\n          "
  const ModuleClose := "</script>"
  const SceneTail := "\n        </body>\n      </html>"

  /** A page made of `head`, the module script tag with `script` as its body, and the rest of
      the page. */
  function ScenePage(head: string, script: string): string
  {
    head + ModuleOpen + ScriptIndent + script + CloseIndent + ModuleClose + SceneTail
  }

  /** The page starts with `head`, then opens the module script, whose text is exactly
      `script`, and closes it after the indentation. */
  lemma ScenePageShape(head: string, script: string)
    ensures var r, n := ScenePage(head, script), |head| + |ModuleOpen| + |ScriptIndent|;
            |r| == n + |script| + |CloseIndent| + |ModuleClose| + |SceneTail| &&
            r[..|head|] == head &&
            r[|head|..|head| + |ModuleOpen|] == ModuleOpen &&
            r[n..n + |script|] == script &&
            r[n + |script| + |CloseIndent|..n + |script| + |CloseIndent| + |ModuleClose|] == ModuleClose
  {
    var r := ScenePage(head, script);
    var n := |head| + |ModuleOpen| + |ScriptIndent|;
    assert r == head + (ModuleOpen + (ScriptIndent + (script + (CloseIndent + (ModuleClose + SceneTail)))));
    assert r[n..n + |script|] == script;
    assert r[n + |script| + |CloseIndent|..n + |script| + |CloseIndent| + |ModuleClose|] == ModuleClose;
  }

  /** Pages with the same head and different scripts differ. */
  lemma ScenePageInjective(head: string, a: string, b: string)
    requires ScenePage(head, a) == ScenePage(head, b)
    ensures a == b
  {
    ScenePageShape(head, a);
    ScenePageShape(head, b);
  }

  /** `createSceneHTML`: the scene page with `script`, the text `convertTestBeaconToString`
      returns, as the body of its module script. */
  function SceneHtml(script: string): string
  {
    ScenePage(SceneHead, script)
  }

  /** The generated page wrapped as an HTML file named `scene.html`, stamped with the clock
      reading, which is an input. */
  function SceneFile(script: string, now: int): File
  {
    File("scene.html", "text/html", SceneHtml(script), now)
  }

  /** The scene file is `scene.html` of type `text/html`, stamped with the clock reading; its
      content is the fixed head followed by the module script whose text is exactly `script`. */
  lemma SceneFileShape(script: string, now: int)
    ensures var f, n := SceneFile(script, now), |SceneHead| + |ModuleOpen| + |ScriptIndent|;
            f.name == "scene.html" && f.mimeType == "text/html" && f.lastModified == now &&
            |f.content| == n + |script| + |CloseIndent| + |ModuleClose| + |SceneTail| &&
            f.content[..|SceneHead|] == SceneHead && f.content[n..n + |script|] == script
  {
    ScenePageShape(SceneHead, script);
  }

  /** Equal scene files come from the same script and the same clock reading. */
  lemma SceneFileInjective(a: string, b: string, nowA: int, nowB: int)
    requires SceneFile(a, nowA) == SceneFile(b, nowB)
    ensures a == b && nowA == nowB
  {
    ScenePageInjective(SceneHead, a, b);
  }

  // ---- `handleCreateBeacon` ----

  /** The wallet hooks, the props, the clock reading and the text of the scene script. */
  datatype Context = Context(address: Option<string>, hasWalletClient: bool, profileId: string, now: int, script: string)

  /** How each collaborator call the handler may make settles. */
  datatype World = World(
    login: Attempt<LensResult<Session>>,
    sceneUpload: Attempt<string>,
    metadataUpload: Attempt<string>,
    publish: Attempt<LensResult<Operation>>,
    send: Attempt<string>,
    race: Race<LensResult<string>>)

  datatype State = State(isPosting: bool, error: Option<string>, successMessage: Option<string>, description: string)

  /** The early return: nothing happens without a connected address, a wallet client and a
      profile id. */
  predicate Guard(ctx: Context)
  {
    Present(ctx.address) && ctx.hasWalletClient && ctx.profileId != ""
  }

  /** The login and both uploads succeeded. */
  predicate Stored(w: World)
  {
    Succeeds(w.login) && w.sceneUpload.Done? && w.metadataUpload.Done?
  }

  predicate PublishedRaw(w: World)
  {
    Stored(w) && Succeeds(w.publish) && w.publish.value.value.WithRaw?
  }

  /** The outer `try` block of `handleCreateBeacon`, past the guard. */
  function Submit(address: string, profileId: string, description: string, scene: File, w: World): (r: Run<()>)
    ensures |r.calls| >= 1 && r.calls[0] == Login(AccountOwner(profileId, App, address))
  {
    var login := LensStep(Login(AccountOwner(profileId, App, address)), w.login, Fixed(AuthenticateFailed));
    match login.result
    case Threw(e) => Run(login.calls, Threw(e))
    case Done(session) =>
      var up := UploadFile(scene, None, w.sceneUpload);
      match up.result
      case Threw(e) => Run(login.calls + up.calls, Threw(e))
      case Done(sceneUri) =>
        var meta := UploadAsJson(Embed(sceneUri, description, EmbedFocus), None, w.metadataUpload);
        match meta.result
        case Threw(e) => Run(login.calls + up.calls + meta.calls, Threw(e))
        case Done(uri) =>
          var pub := LensStep(Post(session, uri), w.publish, Prefixed(PublishFailedPrefix));
          var before := login.calls + up.calls + meta.calls + pub.calls;
          match pub.result
          case Threw(e) => Run(before, Threw(e))
          case Done(op) => After(before, RacedTransaction(session, op, AcceptNonRaw, w.send, w.race))
  }

  /** A login error ends the workflow with `Failed to authenticate` before any upload. */
  lemma LoginError(address: string, profileId: string, description: string, scene: File, w: World)
    requires w.login.Done? && w.login.value.Err?
    ensures Submit(address, profileId, description, scene, w) ==
            Run([Login(AccountOwner(profileId, App, address))], Threw(Error(AuthenticateFailed)))
  {
  }

  /** After the login the scene file is always uploaded first, without an ACL; then the embed
      metadata naming the scene's URI and the description, also without an ACL; then the post
      of the metadata's URI. A rejected upload ends the workflow right after it, with its own
      error. */
  lemma UploadOrder(address: string, profileId: string, description: string, scene: File, w: World)
    requires Succeeds(w.login)
    ensures var r := Submit(address, profileId, description, scene, w);
            |r.calls| >= 2 && r.calls[1] == StorageUploadFile(scene, None) &&
            (w.sceneUpload.Threw? ==> r == Run(r.calls[..2], Threw(w.sceneUpload.exception))) &&
            (w.sceneUpload.Done? ==>
               |r.calls| >= 3 &&
               r.calls[2] == StorageUploadJson(Embed(w.sceneUpload.value, description, EmbedFocus), None)) &&
            (w.sceneUpload.Done? && w.metadataUpload.Threw? ==> r == Run(r.calls[..3], Threw(w.metadataUpload.exception))) &&
            (Stored(w) ==> |r.calls| >= 4 && r.calls[3] == Post(w.login.value.value, w.metadataUpload.value))
  {
  }

  /** A publish error carries the SDK's message after `Failed to create post: `; a result without
      `raw` counts as success and the signer is never called. */
  lemma PublishOutcomes(address: string, profileId: string, description: string, scene: File, w: World)
    ensures Stored(w) && w.publish.Done? && w.publish.value.Err? ==>
              Submit(address, profileId, description, scene, w).result ==
              Threw(Error(PublishFailedPrefix + w.publish.value.message))
    ensures Stored(w) && Succeeds(w.publish) && w.publish.value.value.WithoutRaw? ==>
              Submit(address, profileId, description, scene, w) ==
              Run([Login(AccountOwner(profileId, App, address)), StorageUploadFile(scene, None),
                   StorageUploadJson(Embed(w.sceneUpload.value, description, EmbedFocus), None),
                   Post(w.login.value.value, w.metadataUpload.value)], Done(()))
  {
  }

  /** After a `raw` publish every failure is `Transaction failed: ...`; the timer winning gives
      `Transaction failed: Transaction indexing timed out`; the signer gets the exact fee values.
      The workflow succeeds exactly when every step does. */
  lemma TransactionOutcome(address: string, profileId: string, description: string, scene: File, w: World)
    ensures PublishedRaw(w) && Submit(address, profileId, description, scene, w).result.Threw? ==>
              var e := Submit(address, profileId, description, scene, w).result.exception;
              e.Error? && StartsWith(e.message, TransactionFailedPrefix)
    ensures PublishedRaw(w) && TxFromRaw(w.publish.value.value.raw).Done? && w.send.Done? && w.race.TimerFirst? ==>
              Submit(address, profileId, description, scene, w).result ==
              Threw(Error(TransactionFailedPrefix + IndexingTimedOut))
    ensures forall c :: c in Submit(address, profileId, description, scene, w).calls && c.SendTransaction? ==>
              PublishedRaw(w) && TxFromRaw(w.publish.value.value.raw).Done? &&
              c.tx == TxFromRaw(w.publish.value.value.raw).value
    ensures Submit(address, profileId, description, scene, w).result.Done? <==>
              Stored(w) && Succeeds(w.publish) &&
              (w.publish.value.value.WithRaw? ==>
                 TxFromRaw(w.publish.value.value.raw).Done? && w.send.Done? && w.race.Settled? && Succeeds(w.race.outcome))
  {
    var r := Submit(address, profileId, description, scene, w);
    if Stored(w) && w.publish.Done? && w.publish.value.Ok? {
      var session := w.login.value.value;
      var tail := RacedTransaction(session, w.publish.value.value, AcceptNonRaw, w.send, w.race);
      assert r.calls == [Login(AccountOwner(profileId, App, address)), StorageUploadFile(scene, None),
                         StorageUploadJson(Embed(w.sceneUpload.value, description, EmbedFocus), None),
                         Post(session, w.metadataUpload.value)] + tail.calls;
    }
  }

  /** How the handler leaves the state after the workflow `s`: `isPosting` false on every path;
      success clears the description, sets the success message and ends with `onSuccess`; a
      failure keeps the description and the success message and reports the same message to
      `error` and to `onError`. */
  predicate Finished(pre: State, post: State, calls: seq<Call>, s: Run<()>)
  {
    !post.isPosting && |calls| == |s.calls| + 1 && calls[..|s.calls|] == s.calls &&
    (s.result.Done? ==>
       post == State(false, None, Some(Created), "") && calls[|s.calls|] == OnSuccess) &&
    (s.result.Threw? ==>
       post == pre.(isPosting := false, error := Some(MessageOf(s.result.exception, Fallback))) &&
       calls[|s.calls|] == OnError(MessageOf(s.result.exception, Fallback)))
  }

  /** The component's `useState` hooks. */
  class Beacon {
    var isPosting: bool
    var error: Option<string>
    var successMessage: Option<string>
    var description: string

    function Snapshot(): State
      reads this
    {
      State(isPosting, error, successMessage, description)
    }

    constructor ()
      ensures Snapshot() == State(false, None, None, "")
    {
      isPosting := false;
      error := None;
      successMessage := None;
      description := "";
    }

    /** The description text area's `onChange`. */
    method SetDescription(text: string)
      modifies this
      ensures Snapshot() == old(Snapshot()).(description := text)
    {
      description := text;
    }

    /** `handleCreateBeacon`: nothing happens without an address, a wallet client and a profile.
        Otherwise `isPosting` is set and the error cleared, the scene file is built from the
        script and the clock, and the workflow runs with it; the outcome settles the state as
        `Finished` says. */
    method HandleCreateBeacon(ctx: Context, w: World) returns (calls: seq<Call>)
      modifies this
      ensures !Guard(ctx) ==> unchanged(this) && calls == []
      ensures Guard(ctx) ==> Finished(old(Snapshot()), Snapshot(), calls,
                                     Submit(ctx.address.value, ctx.profileId, old(description), SceneFile(ctx.script, ctx.now), w))
    {
      calls := [];
      if !Guard(ctx) {
        return;
      }
      isPosting := true;
      error := None;
      var sceneFile := SceneFile(ctx.script, ctx.now);
      var attempt := Submit(ctx.address.value, ctx.profileId, description, sceneFile, w);
      calls := attempt.calls;
      match attempt.result {
        case Done(_) =>
          description := "";
          isPosting := false;
          successMessage := Some(Created);
          calls := calls + [OnSuccess];
        case Threw(e) =>
          var errorMessage := MessageOf(e, Fallback);
          error := Some(errorMessage);
          isPosting := false;
          calls := calls + [OnError(errorMessage)];
      }
    }
  }
}
