/** The `LensAuth` component: resolving the wallet's Lens accounts, resuming a stored
    session, logging in and out, and the `status` machine behind its `isLoading` flag. */
module LensAuth {
  import opened Lens

  /** The five statuses of the panel; `Failed` is the `error` status. */
  datatype AuthStatus = Idle | Checking | Signing | Loading | Failed

  /** The wallet connection status reported by the wallet hook. */
  datatype WalletStatus = Connected | Connecting | Reconnecting | Disconnected

  const FetchAccountsFailed := "Failed to fetch Lens accounts"
  const LoginFailed := "Failed to login with Lens"
  const LogoutFailed := "Failed to logout"

  /** `isLoading`: a request is in flight exactly when the status is neither idle nor error. */
  function IsLoading(s: AuthStatus): (b: bool)
    ensures b <==> !(s.Idle? || s.Failed?)
  {
    s == Checking || s == Signing || s == Loading
  }

  datatype Attribute = Attribute(key: string, value: string)

  /** The `AccountMetadata` record the component stores for each account. */
  datatype Account = Account(
    attributes: seq<Attribute>,
    bio: Option<string>,
    coverPicture: Option<string>,
    id: string,
    name: Option<string>,
    picture: Option<string>)

  /** The `metadata` of a fetched account; every field may be missing. */
  datatype FetchedMetadata = FetchedMetadata(
    attributes: Option<seq<Attribute>>,
    bio: Option<string>,
    coverPicture: Option<string>,
    id: Option<string>,
    name: Option<string>,
    picture: Option<string>)

  datatype FetchedAccount = FetchedAccount(metadata: Option<FetchedMetadata>)

  /** An item of `fetchAccountsAvailable`, reduced to `item.account.address`. */
  datatype AvailableItem = AvailableItem(address: string)

  /** The `fetchAccount` collaborator: its outcome for each address (`Ok(None)` is a `null` value). */
  type Lookup = string -> Attempt<LensResult<Option<FetchedAccount>>>

  /** The per-item mapping: missing attributes become `[]`, a missing or empty id becomes the
      item's address, and a missing or empty bio, cover picture, name or picture becomes `null`. */
  function ToAccount(address: string, a: FetchedAccount): (r: Account)
    ensures a.metadata.None? ==> r == Account([], None, None, address, None, None)
    ensures a.metadata.Some? ==>
              var m := a.metadata.value;
              r.attributes == m.attributes.GetOr([]) &&
              r.id == (if Present(m.id) then m.id.value else address) &&
              r.bio == OrNull(m.bio) && r.coverPicture == OrNull(m.coverPicture) &&
              r.name == OrNull(m.name) && r.picture == OrNull(m.picture)
    ensures r.id == "" ==> address == ""
  {
    match a.metadata
    case None => Account([], None, None, address, None, None)
    case Some(m) =>
      Account(m.attributes.GetOr([]), OrNull(m.bio), OrNull(m.coverPicture),
              if Present(m.id) then m.id.value else address, OrNull(m.name), OrNull(m.picture))
  }

  /** One account promise: an account for a successful, non-null lookup, `null` otherwise. */
  function Resolve(item: AvailableItem, lookup: Lookup): (r: Option<Account>)
    ensures r.Some? <==> lookup(item.address).Done? && lookup(item.address).value.Ok? &&
                         lookup(item.address).value.value.Some?
    ensures r.Some? ==> r.value == ToAccount(item.address, lookup(item.address).value.value.value)
  {
    match lookup(item.address)
    case Done(Ok(Some(a))) => Some(ToAccount(item.address, a))
    case _ => None
  }

  /** All the account promises awaited together, with the `null`s filtered out: the accounts
      of the items whose lookup succeeded, and only those. */
  function Resolved(items: seq<AvailableItem>, lookup: Lookup): (r: seq<Account>)
    ensures |r| <= |items|
    ensures forall a :: a in r ==> exists i :: 0 <= i < |items| && Resolve(items[i], lookup) == Some(a)
    ensures forall i :: 0 <= i < |items| && Resolve(items[i], lookup).Some? ==> Resolve(items[i], lookup).value in r
    ensures (forall i :: 0 <= i < |items| ==> Resolve(items[i], lookup).Some?) ==> |r| == |items|
  {
    if items == [] then []
    else
      var rest := Resolved(items[1..], lookup);
      assert forall i :: 1 <= i < |items| ==> items[i] == items[1..][i - 1];
      match Resolve(items[0], lookup)
      case Some(a) => [a] + rest
      case None => rest
  }

  /** Filtering keeps the original order: resolving a concatenation is concatenating the results. */
  lemma {:induction false} ResolvedAppend(xs: seq<AvailableItem>, ys: seq<AvailableItem>, lookup: Lookup)
    ensures Resolved(xs + ys, lookup) == Resolved(xs, lookup) + Resolved(ys, lookup)
  {
    if xs != [] {
      assert (xs + ys)[1..] == xs[1..] + ys;
      ResolvedAppend(xs[1..], ys, lookup);
    } else {
      assert xs + ys == ys;
    }
  }

  /** Some lookup rejected, so `Promise.all` rejects. */
  predicate AnyThrew(items: seq<AvailableItem>, lookup: Lookup)
  {
    exists i :: 0 <= i < |items| && lookup(items[i].address).Threw?
  }

  /** The `fetchAccount` calls, one per item, all issued before any is awaited. */
  function LookupCalls(items: seq<AvailableItem>): (calls: seq<Call>)
    ensures |calls| == |items|
    ensures forall i :: 0 <= i < |items| ==> calls[i] == FetchAccount(items[i].address)
  {
    seq(|items|, i requires 0 <= i < |items| => FetchAccount(items[i].address))
  }

  /** The component's `useState` hooks. */
  class Auth {
    var isAuthenticated: bool
    var sessionClient: Option<Session>
    var status: AuthStatus
    var error: Option<string>
    var accounts: seq<Account>
    var selectedAccount: Option<Account>

    /** Authenticated exactly when a session is held: the two are always set and cleared together. */
    ghost predicate Valid()
      reads this
    {
      isAuthenticated <==> sessionClient.Some?
    }

    constructor ()
      ensures Valid()
      ensures !isAuthenticated && sessionClient.None? && status == Idle && error.None?
      ensures accounts == [] && selectedAccount.None?
    {
      isAuthenticated := false;
      sessionClient := None;
      status := Idle;
      error := None;
      accounts := [];
      selectedAccount := None;
    }

    /** `checkAccounts`: without an address or a connected wallet nothing changes. Otherwise the
        accounts the wallet manages are fetched and each is looked up; the resolved ones replace
        `accounts`, and a single one is selected. An error result leaves `accounts` alone; a
        rejection anywhere ends in the `error` status with its message. */
    method CheckAccounts(address: Option<string>, walletStatus: WalletStatus,
                         available: Attempt<LensResult<Option<seq<AvailableItem>>>>, lookup: Lookup)
      returns (calls: seq<Call>)
      requires Valid()
      modifies this
      ensures Valid()
      ensures !Present(address) || walletStatus != Connected ==> unchanged(this) && calls == []
      ensures Present(address) && walletStatus == Connected ==>
                isAuthenticated == old(isAuthenticated) && sessionClient == old(sessionClient) &&
                |calls| >= 1 && calls[0] == FetchAccountsAvailable(address.value, true)
      ensures Present(address) && walletStatus == Connected && available.Threw? ==>
                calls == [FetchAccountsAvailable(address.value, true)] &&
                status == Failed && error == Some(FetchAccountsFailed) &&
                accounts == old(accounts) && selectedAccount == old(selectedAccount)
      ensures Present(address) && walletStatus == Connected && available.Done? &&
              !(available.value.Ok? && available.value.value.Some?) ==>
                calls == [FetchAccountsAvailable(address.value, true)] &&
                status == Idle && error == old(error) &&
                accounts == old(accounts) && selectedAccount == old(selectedAccount)
      ensures Present(address) && walletStatus == Connected && available.Done? &&
              available.value.Ok? && available.value.value.Some? ==>
                var items := available.value.value.value;
                calls == [FetchAccountsAvailable(address.value, true)] + LookupCalls(items) &&
                (AnyThrew(items, lookup) ==>
                   status == Failed && error == Some(FetchAccountsFailed) &&
                   accounts == old(accounts) && selectedAccount == old(selectedAccount)) &&
                (!AnyThrew(items, lookup) ==>
                   status == Idle && error == old(error) && accounts == Resolved(items, lookup) &&
                   (|accounts| == 1 ==> selectedAccount == Some(accounts[0])) &&
                   (|accounts| != 1 ==> selectedAccount == old(selectedAccount)))
    {
      calls := [];
      if !Present(address) || walletStatus != Connected {
        return;
      }
      status := Checking;
      calls := [FetchAccountsAvailable(address.value, true)];
      if available.Threw? {
        error := Some(FetchAccountsFailed);
        status := Failed;
        return;
      }
      if available.value.Ok? && available.value.value.Some? {
        var items := available.value.value.value;
        calls := calls + LookupCalls(items);
        if AnyThrew(items, lookup) {
          error := Some(FetchAccountsFailed);
          status := Failed;
          return;
        }
        var resolvedAccounts := Resolved(items, lookup);
        accounts := resolvedAccounts;
        if |resolvedAccounts| == 1 {
          selectedAccount := Some(resolvedAccounts[0]);
        }
      }
      status := Idle;
    }

    /** The effect run when an account is selected: a stored session is resumed if there is
        one; whatever happens the status ends `idle`. */
    method ResumeSession(resumed: Attempt<LensResult<Session>>) returns (calls: seq<Call>)
      requires Valid()
      modifies this
      ensures Valid()
      ensures old(selectedAccount).None? ==> unchanged(this) && calls == []
      ensures old(selectedAccount).Some? ==>
                calls == [Call.ResumeSession] && status == Idle && error == old(error) &&
                accounts == old(accounts) && selectedAccount == old(selectedAccount)
      ensures old(selectedAccount).Some? && Succeeds(resumed) ==>
                sessionClient == Some(resumed.value.value) && isAuthenticated
      ensures old(selectedAccount).Some? && !Succeeds(resumed) ==>
                sessionClient == old(sessionClient) && isAuthenticated == old(isAuthenticated)
    {
      calls := [];
      if selectedAccount.None? {
        return;
      }
      status := Checking;
      calls := [Call.ResumeSession];
      if resumed.Done? && resumed.value.Ok? {
        sessionClient := Some(resumed.value.value);
        isAuthenticated := true;
      }
      status := Idle;
    }

    /** `handleLogin`: logs in as an onboarding user of the app. An error result leaves the
        user logged out with status `idle` and no message; a rejection sets the login error
        and the `error` status; success stores the session. */
    method HandleLogin(address: Option<string>, outcome: Attempt<LensResult<Session>>) returns (calls: seq<Call>)
      requires Valid()
      modifies this
      ensures Valid()
      ensures !Present(address) || old(selectedAccount).None? ==> unchanged(this) && calls == []
      ensures Present(address) && old(selectedAccount).Some? ==>
                calls == [Login(OnboardingUser(App, address.value))] &&
                accounts == old(accounts) && selectedAccount == old(selectedAccount)
      ensures Present(address) && old(selectedAccount).Some? && Succeeds(outcome) ==>
                sessionClient == Some(outcome.value.value) && isAuthenticated && status == Idle && error.None?
      ensures Present(address) && old(selectedAccount).Some? && outcome.Done? && outcome.value.Err? ==>
                sessionClient == old(sessionClient) && isAuthenticated == old(isAuthenticated) &&
                status == Idle && error.None?
      ensures Present(address) && old(selectedAccount).Some? && outcome.Threw? ==>
                sessionClient == old(sessionClient) && isAuthenticated == old(isAuthenticated) &&
                status == Failed && error == Some(LoginFailed)
    {
      calls := [];
      if !Present(address) || selectedAccount.None? {
        return;
      }
      status := Signing;
      error := None;
      calls := [Login(OnboardingUser(App, address.value))];
      match outcome {
        case Threw(_) =>
          error := Some(LoginFailed);
          status := Failed;
        case Done(result) =>
          if result.Ok? {
            sessionClient := Some(result.value);
            isAuthenticated := true;
          }
          status := Idle;
      }
    }

    /** `handleLogout`: reads the current session and revokes its authentication. Once the
        revocation has been awaited (whatever its result) the session, the authentication and
        the selected account are cleared; an error result from `currentSession` changes
        nothing but the status; a rejection sets the logout error and the `error` status. */
    method HandleLogout(current: Attempt<LensResult<string>>, revoke: Attempt<LensResult<()>>)
      returns (calls: seq<Call>)
      requires Valid()
      modifies this
      ensures Valid()
      ensures old(sessionClient).None? ==> unchanged(this) && calls == []
      ensures old(sessionClient).Some? ==> accounts == old(accounts) && |calls| >= 1 && calls[0] == CurrentSession(old(sessionClient).value)
      ensures old(sessionClient).Some? && Succeeds(current) && revoke.Done? ==>
                calls == [CurrentSession(old(sessionClient).value),
                          RevokeAuthentication(old(sessionClient).value, current.value.value)] &&
                !isAuthenticated && sessionClient.None? && selectedAccount.None? &&
                status == Idle && error.None?
      ensures old(sessionClient).Some? && current.Done? && current.value.Err? ==>
                calls == [CurrentSession(old(sessionClient).value)] &&
                sessionClient == old(sessionClient) && isAuthenticated == old(isAuthenticated) &&
                selectedAccount == old(selectedAccount) && status == Idle && error.None?
      ensures old(sessionClient).Some? && current.Threw? ==>
                calls == [CurrentSession(old(sessionClient).value)]
      ensures old(sessionClient).Some? && Succeeds(current) && revoke.Threw? ==>
                calls == [CurrentSession(old(sessionClient).value),
                          RevokeAuthentication(old(sessionClient).value, current.value.value)]
      ensures old(sessionClient).Some? && (current.Threw? || (Succeeds(current) && revoke.Threw?)) ==>
                sessionClient == old(sessionClient) && isAuthenticated == old(isAuthenticated) &&
                selectedAccount == old(selectedAccount) && status == Failed && error == Some(LogoutFailed)
    {
      calls := [];
      if sessionClient.None? {
        return;
      }
      var session := sessionClient.value;
      status := Loading;
      error := None;
      calls := [CurrentSession(session)];
      if current.Threw? {
        error := Some(LogoutFailed);
        status := Failed;
        return;
      }
      if current.value.Ok? {
        calls := calls + [RevokeAuthentication(session, current.value.value)];
        if revoke.Threw? {
          error := Some(LogoutFailed);
          status := Failed;
          return;
        }
        isAuthenticated := false;
        sessionClient := None;
        selectedAccount := None;
      }
      status := Idle;
    }

    /** Clicking an account in the list selects it. */
    method SelectAccount(account: Account)
      requires Valid()
      modifies this
      ensures Valid()
      ensures selectedAccount == Some(account)
      ensures isAuthenticated == old(isAuthenticated) && sessionClient == old(sessionClient)
      ensures status == old(status) && error == old(error) && accounts == old(accounts)
    {
      selectedAccount := Some(account);
    }
  }
}
