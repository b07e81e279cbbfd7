/** The world the front-end talks to. Every SDK, wallet and storage call is an
    uninterpreted collaborator: its outcome is an input of the model, and the model
    records the calls it makes, with their arguments, as a trace of `Call`s. */
module Lens {

  datatype Option<+T> = None | Some(value: T) {
    function GetOr(default: T): T
    {
      match this
      case Some(v) => v
      case None => default
    }
  }

  /** A JavaScript string in a boolean position: `null`, `undefined` and `''` are falsy. */
  predicate Present(s: Option<string>)
  {
    s.Some? && s.value != ""
  }

  /** A string defaulted to `null` (or `undefined`) by truthiness: a missing or empty string
      becomes absent. */
  function OrNull(s: Option<string>): (r: Option<string>)
    ensures r.Some? <==> Present(s)
    ensures r.Some? ==> r == s
  {
    if Present(s) then s else None
  }

  predicate StartsWith(s: string, prefix: string)
  {
    |prefix| <= |s| && s[..|prefix|] == prefix
  }

  /** A thrown JavaScript value: an `Error` with its message, or anything else. */
  datatype Exception = Error(message: string) | NonError

  /** The message every catch block reports: an `Error`'s own message, or the site's fallback
      text for any other thrown value. */
  function MessageOf(e: Exception, fallback: string): (m: string)
    ensures e.Error? ==> m == e.message
    ensures e.NonError? ==> m == fallback
  {
    match e
    case Error(message) => message
    case NonError => fallback
  }

  /** How an awaited promise settles: resolved with a value, or rejected. */
  datatype Attempt<+T> = Done(value: T) | Threw(exception: Exception)

  /** The SDK's `Result`: `isErr()` holds of `Err`, whose `error.message` is kept. */
  datatype LensResult<+T> = Ok(value: T) | Err(message: string)

  /** The awaited call resolved with an `Ok` result. */
  predicate Succeeds<T>(o: Attempt<LensResult<T>>)
  {
    o.Done? && o.value.Ok?
  }

  /** How the race between waiting for indexing and the timer settles. */
  datatype Race<+T> = Settled(outcome: Attempt<T>) | TimerFirst

  /** The application address every login names. */
  const App := "0xe5439696f4057aF073c0FB2dc6e5e755392922e1"

  /** Opaque session handle returned by login or by resuming a stored session. */
  datatype Session = Session(token: string)

  /** A browser `File`: user-picked media, or the generated scene page. */
  datatype File = File(name: string, mimeType: string, content: string, lastModified: int)

  /** `ProfileFormData`, the form shared by the profile editor and the profile creator. */
  datatype ProfileForm = ProfileForm(handle: string, name: string, bio: string, picture: Option<File>)

  /** The URI an optional upload contributes to a metadata document when the site tests it for
      truthiness: present exactly when a file was picked
      and its upload gave a non-empty URI. */
  function UploadedUri(file: Option<File>, upload: Attempt<string>): (u: Option<string>)
    ensures u.Some? <==> file.Some? && upload.Done? && upload.value != ""
    ensures u.Some? ==> u.value == upload.value
  {
    if file.Some? && upload.Done? && upload.value != "" then Some(upload.value) else None
  }

  /** The storage node's access-control list, as `lensAccountOnly(address)` builds it. */
  datatype Acl = LensAccountOnly(account: string)

  /** The metadata documents built by `textOnly`, `embed` and `account`. */
  datatype Metadata =
    | TextOnly(content: string, attachment: Option<string>)
    | Embed(embed: string, content: string, mainContentFocus: string)
    | AccountMetadata(name: Option<string>, bio: Option<string>, picture: Option<string>)

  datatype LoginRequest =
    | AccountOwner(account: string, app: string, owner: string)
    | OnboardingUser(app: string, wallet: string)

  /** The `raw` transaction request of a publish response; the fee fields are decimal strings. */
  datatype RawTx = RawTx(to: string, data: string, gasLimit: string, maxFeePerGas: string, maxPriorityFeePerGas: string)

  /** The value of an `Ok` publish response: with a `raw` field, or any other shape. */
  datatype Operation = WithRaw(raw: RawTx) | WithoutRaw(kind: string)

  /** What the wallet client's `sendTransaction` receives; the fee fields are `BigInt`s. */
  datatype TxRequest = TxRequest(to: string, data: string, gas: nat, maxFeePerGas: nat, maxPriorityFeePerGas: nat)

  /** One call made to a collaborator (or to a callback of the caller). */
  datatype Call =
    | Login(request: LoginRequest)
    | ResumeSession
    | FetchAccountsAvailable(managedBy: string, includeOwned: bool)
    | FetchAccount(address: string)
    | CurrentSession(session: Session)
    | RevokeAuthentication(session: Session, authenticationId: string)
    | FetchPosts(author: string, cursor: Option<string>)
    | StorageUploadFile(file: File, acl: Option<Acl>)
    | StorageUploadJson(doc: Metadata, acl: Option<Acl>)
    | Post(session: Session, contentUri: string)
    | SetAccountMetadata(session: Session, metadataUri: string)
    | CreateAccountWithUsername(session: Session, localName: string, metadataUri: string)
    | SendTransaction(tx: TxRequest)
    | HandleWith(operation: Operation)
    | WaitForTransaction(session: Session, hash: string)
    | StartTimer(ms: nat)
    | OnSuccess
    | OnError(message: string)

  /** A step's outcome together with the calls it made, in order. */
  datatype Run<+T> = Run(calls: seq<Call>, result: Attempt<T>)

  /** The calls `prefix` followed by the step `r`. */
  function After<T>(prefix: seq<Call>, r: Run<T>): (s: Run<T>)
    ensures s.result == r.result && |s.calls| == |prefix| + |r.calls|
    ensures s.calls[..|prefix|] == prefix && s.calls[|prefix|..] == r.calls
  {
    Run(prefix + r.calls, r.result)
  }

  function Last(calls: seq<Call>): Option<Call>
  {
    if calls == [] then None else Some(calls[|calls| - 1])
  }
}
