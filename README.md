# A verified model of the Lens front-end's behaviour

This project models the logic of a Lens Protocol front-end (a Next.js application) in Dafny:
- the URL rewriting of `lens://` locators;
- the storage client's ACL wrappers;
- the post feed's pagination;
- the account resolution and session state of the auth panel;
- the six content-submission workflows:
  - create a post, send a beam, create a beacon;
  - edit a profile, create a profile;
  - the post action of `utils/postActions.ts`.

Every SDK, wallet and storage call is an uninterpreted collaborator. Its outcome is an input:
- `Attempt<T>` is a promise that resolves (`Done`) or rejects (`Threw`).
- `LensResult<T>` is the SDK's `Ok`/`Err` result.
- `Race<T>` is how `Promise.race` against the 60 s timer settles.

Every operation returns the trace of the calls it makes (`seq<Call>`), with their arguments. A thrown value is an `Error` with a message or something else (`NonError`). That way every `error instanceof Error ? error.message : fallback` branch is modelled.

The modules follow the source files:

| module | file |
|---|---|
| `Lens` | collaborator outcomes, call trace, shared records |
| `BigInt` | `BigInt(string)` on the decimal fee fields |
| `Stages` | the steps the workflows share: a Lens action with its error text, sending the `raw` transaction, the indexing race, the `Transaction failed` wrapper |
| `UrlHelper` | `utils/urlHelper.ts` |
| `StorageClient` | `utils/storageClient.ts` |
| `UserPostFeed` | `app/components/UserPostFeed.tsx` |
| `LensAuth` | `app/components/LensAuth.tsx` |
| `OwnerPost` | the chain `CreatePost.tsx` and `SendBeam.tsx` share up to the publish |
| `CreatePost`, `SendBeam`, `CreateBeacon`, `EditLensProfile`, `CreateLensProfile` | the components of the same names |
| `PostActions` | `utils/postActions.ts` |

The pure code is modelled as functions.

Each React component with state is a `class` whose fields are its `useState` hooks. Its handlers are methods that `modify` it. The submit handler of each of the five submission components works in three steps:
1. It checks the source's guard.
2. It runs the workflow's `try` block, which is the pure `Submit` function of its module.
3. It updates the state from the outcome.

The post feed's `FetchUserPosts` and the auth panel's methods have no `Submit`. They set their fields directly from the collaborator outcomes they are given, using the pure functions of their modules (`TransformAll`, `NextCursor`, `Resolved`).

On every path, the method's `ensures` state the new state and the exact calls made. The site's promises are lemmas about `Submit`:
- the login error;
- the upload order and ACLs;
- the publish error text;
- the `raw` branch;
- exact fee values;
- the timeout;
- success exactly when every step succeeds.

The sites differ in deliberate details, and each module states its own:
- A result without `raw` is rejected by CreatePost and EditLensProfile, and counts as a success in SendBeam and CreateBeacon.
- Only CreatePost, CreateBeacon and EditLensProfile race against the timer. They wrap every failure of the transaction block (its `catch (txError)`) as `Transaction failed: ...`.
- CreateLensProfile and the post action of `utils/postActions.ts` prefix only an `Err` result of `handleWith` with `Transaction failed: `. A rejection passes unchanged.
- A failed picture upload aborts EditLensProfile; CreateLensProfile swallows it.
- The success messages and form resets differ from site to site.

## Model

| member | source | states |
|---|---|---|
| Lens.OrNull | app/components/UserPostFeed.tsx:74-76 | `s \|\| null` is present exactly when `s` is a non-empty string, and is then `s` |
| Lens.MessageOf | app/components/CreatePost.tsx:167 | an `Error` gives its message, any other thrown value the fallback |
| Lens.UploadedUri | app/components/CreatePost.tsx:97-107 | the URI an optional upload contributes is present exactly when a file was picked and its upload gave a non-empty URI, and is that URI |
| Lens.After | app/components/CreatePost.tsx:79-158 | a step after a prefix keeps the prefix's calls first, then the step's, and the step's outcome |
| BigInt.DecimalString | app/components/CreatePost.tsx:131-133 | the canonical spelling of a number is a non-empty digit string without leading zeros |
| BigInt.DecimalRoundTrip | app/components/CreatePost.tsx:131-133 | reading back the decimal spelling of any number gives the number |
| BigInt.LeadingZero | app/components/CreatePost.tsx:131-133 | a leading zero does not change a decimal string's value |
| BigInt.BigIntOf | app/components/CreatePost.tsx:131-133 | `BigInt(s)` succeeds exactly on decimal strings, with their exact value, and throws otherwise |
| BigInt.BigIntExact | app/components/CreatePost.tsx:131-133 | no value is lost: every number survives its decimal spelling through `BigInt` |
| Stages.LensStep | app/components/CreatePost.tsx:114-120 | a Lens action makes exactly one call; it succeeds exactly on an `Ok` result, a rejection propagates and an `Err` throws the site's message |
| Stages.Indexed | app/components/SendBeam.tsx:131-133 | the indexing check succeeds exactly on `Ok`, throws the site's message on `Err` and propagates a rejection |
| Stages.TxFromRaw | app/components/CreatePost.tsx:124-133 | the request is built exactly when all three fee fields are decimal, with `to`, `data` and their exact values; otherwise the error `BigInt` throws on the first unconvertible field, in the order gas limit, max fee, priority fee |
| Stages.SendStage | app/components/CreatePost.tsx:126-135 | with three decimal fee fields, exactly one `sendTransaction` with `to`, `data` and the fields' exact values, its outcome the stage's; otherwise no call, and the error of the first unconvertible field in source order |
| Stages.IndexRace | app/components/CreatePost.tsx:140-149 | the race waits and starts the 60000 ms timer; it succeeds exactly when indexing settles first with `Ok`; the timer, an indexing error and a rejection give three distinct failures |
| Stages.WrapTransactionFailure | app/components/CreatePost.tsx:152-155 | every failure becomes `Transaction failed: <message>` (`Unknown error` for a non-Error); calls and successes are untouched |
| Stages.SendAndRace | app/components/CreatePost.tsx:126-151 | send then race: success exactly when conversion, send and indexing succeed; the calls on each path; only send, wait and timer calls; the signer gets the converted request |
| Stages.SendAndWait | app/components/SendBeam.tsx:117-134 | send then wait with no timer: success exactly when conversion, send and indexing succeed; an indexing error is `Failed to index transaction: <message>` |
| Stages.RacedTransaction | app/components/CreatePost.tsx:123-158 | without `raw` no call is made and the site's choice (error or success) is the result; with `raw` every failure starts with `Transaction failed: `; only a `raw` operation reaches the signer |
| StorageClient.FormatAddress | utils/storageClient.ts:8-13 | succeeds exactly when the address starts with `0x` (case-sensitive, bare `0x` passes), returns it unchanged, throws `Invalid address format` otherwise |
| StorageClient.AclFor | utils/storageClient.ts:25-32 | no ACL without an address; `lensAccountOnly` of exactly that address when it starts with `0x`; `Invalid address format` otherwise |
| StorageClient.UploadFile | utils/storageClient.ts:25-32 | a missing or empty address forwards with no ACL; a valid one forwards with its ACL; an invalid one throws before any base upload |
| StorageClient.UploadAsJson | utils/storageClient.ts:34-41 | the same ACL rules as `uploadFile` for the JSON upload |
| StorageClient.AtMostOneBaseCall | utils/storageClient.ts:25-41 | each wrapper makes at most one base call, and none exactly when the address is invalid |
| UrlHelper.ReplaceFirst | utils/urlHelper.ts:7 | `replace` with a string pattern: unchanged without an occurrence; otherwise the first occurrence alone is replaced and the text around it is kept |
| UrlHelper.IndexOf | utils/urlHelper.ts:7 | the first occurrence of the pattern at or after a position, or none at all |
| UrlHelper.ReplaceLeading | utils/urlHelper.ts:5-7 | when the string starts with the pattern, `replace` removes exactly that prefix |
| UrlHelper.FormatLensImageUrl | utils/urlHelper.ts:2-14 | null or empty gives undefined; `lens://h` gives the gateway URL followed by `h`; any other URL is unchanged; a result is non-empty and never starts with `lens://` |
| UrlHelper.FormatIdempotent | utils/urlHelper.ts:3-13 | rewriting twice is rewriting once |
| UrlHelper.InnerSchemeKept | utils/urlHelper.ts:5-10 | only the leading `lens://` is removed; one inside the hash survives |
| UserPostFeed.CountOr0 | app/components/UserPostFeed.tsx:79-82 | a missing statistic counts as 0, a present one as itself |
| UserPostFeed.Handle | app/components/UserPostFeed.tsx:74 | the handle is present exactly when the author has a username with a non-empty local name, and is then that name |
| UserPostFeed.DisplayName | app/components/UserPostFeed.tsx:75 | the name is present exactly when the author's metadata has a non-empty display name, and is then it |
| UserPostFeed.Picture | app/components/UserPostFeed.tsx:76 | the picture is present exactly when the author's metadata has a non-empty picture, and is then it |
| UserPostFeed.TransformPost | app/components/UserPostFeed.tsx:67-87 | keeps the id; maps `createdAt` to `timestamp`; content only from metadata; the author's handle, name and picture are exactly the author's non-empty local name, display name and picture, null otherwise; 0 for missing statistics; the ids of `root`, `quoteOf` and `commentOn` |
| UserPostFeed.TransformAll | app/components/UserPostFeed.tsx:89 | one post per item, each the transform of the item at the same position |
| UserPostFeed.NextCursor | app/components/UserPostFeed.tsx:94 | the cursor is present exactly when `pageInfo.next` is a non-empty string, and is then it |
| UserPostFeed.TransformAppend | app/components/UserPostFeed.tsx:89-91 | mapping two pages in a row is mapping each and concatenating: appending never reorders the posts shown |
| UserPostFeed.Feed.constructor | app/components/UserPostFeed.tsx:42-46 | no posts, loading, no error, no cursor, more to load |
| UserPostFeed.Feed.FetchUserPosts | app/components/UserPostFeed.tsx:48-103 | nothing without a profile or with nothing more (even on reset); the cursor sent is null on reset; success replaces or appends the page and ties `hasMore` to the cursor; failure only sets `Failed to load posts`; a stored cursor always means more to load, and is sent unless the fetch is a reset |
| LensAuth.IsLoading | app/components/LensAuth.tsx:169 | loading exactly when the status is neither idle nor error |
| LensAuth.ToAccount | app/components/LensAuth.tsx:61-70 | attributes default to `[]`, the id to the item's address, bio, cover picture, name and picture to null |
| LensAuth.Resolve | app/components/LensAuth.tsx:58-72 | an item resolves exactly when its lookup succeeded with a non-null account, and then to that account's normalised metadata |
| LensAuth.Resolved | app/components/LensAuth.tsx:54-77 | the resolved accounts are exactly those of the items whose lookup succeeded with a value, no more than the items, all of them when every lookup succeeds |
| LensAuth.ResolvedAppend | app/components/LensAuth.tsx:75-77 | filtering keeps the original order: resolving a concatenation is concatenating the results |
| LensAuth.LookupCalls | app/components/LensAuth.tsx:54-57 | one `fetchAccount` per item, with the item's address, in order |
| LensAuth.Auth.constructor | app/components/LensAuth.tsx:23-28 | logged out, no session, idle, no error, no accounts, nothing selected |
| LensAuth.Auth.CheckAccounts | app/components/LensAuth.tsx:32-93 | untouched without an address or a connected wallet; a rejection gives the error status and message with accounts unchanged; an error result leaves accounts alone and ends idle; otherwise the resolved accounts replace them and exactly one is auto-selected |
| LensAuth.Auth.ResumeSession | app/components/LensAuth.tsx:100-115 | with a selected account, resumes once and always ends idle; a resumed session authenticates, anything else changes nothing |
| LensAuth.Auth.HandleLogin | app/components/LensAuth.tsx:120-144 | onboarding login of the app; success stores the session; an error result leaves the user logged out, idle, with no message; a rejection sets `Failed to login with Lens` and the error status |
| LensAuth.Auth.HandleLogout | app/components/LensAuth.tsx:146-167 | the exact calls on every path; a completed revocation clears the session, the authentication and the selection; an error result from `currentSession` changes only the status; a rejection of either call sets `Failed to logout` and keeps the session |
| LensAuth.Auth.SelectAccount | app/components/LensAuth.tsx:194 | selecting an account changes only the selection, and keeps the session invariant |
| OwnerPost.MediaStage | app/components/CreatePost.tsx:97-101 | no call without media; with it, one upload under the owner's ACL; the URI it contributes is `UploadedUri` |
| OwnerPost.PublishText | app/components/CreatePost.tsx:79-120 | the login comes first; only login, upload and post calls; success exactly when every step succeeds, with the session and the operation |
| OwnerPost.PublishLogin | app/components/CreatePost.tsx:81-92 | a failed login makes no other call; an error result is `Failed to authenticate`, a rejection propagates |
| OwnerPost.PublishUploads | app/components/CreatePost.tsx:97-110 | the file upload only for picked media, both uploads under the owner's ACL, text-only metadata with an attachment exactly when a URI was obtained; an invalid address fails before any upload |
| OwnerPost.PublishTrace | app/components/CreatePost.tsx:95-120 | the exact calls after a valid login: a rejected media upload ends the chain after it, a rejected metadata upload after that upload; once both are stored the post is the last call |
| OwnerPost.PublishOutcome | app/components/CreatePost.tsx:113-120 | the post names the session and the metadata URI; its error carries the site's prefix |
| CreatePost.Submit | app/components/CreatePost.tsx:79-158 | the workflow's calls begin with the publish chain's, and a failure there ends it |
| CreatePost.LoginError | app/components/CreatePost.tsx:90-92 | a login error is `Failed to authenticate` with no upload or publish |
| CreatePost.PublishErrors | app/components/CreatePost.tsx:118-158 | a publish error is `Failed to create post: <message>`; no `raw` gives `Invalid transaction format received` and no signer call |
| CreatePost.Signer | app/components/CreatePost.tsx:123-135 | the signer is called only for a published `raw` operation, with the exact values of its decimal fee fields |
| CreatePost.TransactionOutcome | app/components/CreatePost.tsx:123-158 | after `raw` every failure is `Transaction failed: ...`, the timer and indexing errors in particular; success exactly when every step succeeds |
| CreatePost.Composer.constructor | app/components/CreatePost.tsx:33-40 | not posting, no messages, empty content, no media |
| CreatePost.Composer.HandleInputChange | app/components/CreatePost.tsx:43-48 | only the content changes |
| CreatePost.Composer.HandleFileChange | app/components/CreatePost.tsx:51-57 | only the media changes |
| CreatePost.Composer.HandleCreatePost | app/components/CreatePost.tsx:73-172 | nothing past a failed guard; `isPosting` ends false; success resets the form with `Post created successfully!` and `onSuccess`; failure keeps the form and gives `error` and `onError` the same message |
| SendBeam.WithField | app/components/SendBeam.tsx:45-51 | only the named field takes the value |
| SendBeam.Submit | app/components/SendBeam.tsx:78-134 | the workflow's calls begin with the publish chain's, and a failure there ends it |
| SendBeam.LoginError | app/components/SendBeam.tsx:90-92 | a login error is `Failed to authenticate` with no other call |
| SendBeam.PublishOutcomes | app/components/SendBeam.tsx:113-117 | a publish error is `Failed to create beam: <message>`; no `raw` is a success with no further call |
| SendBeam.NoTimer | app/components/SendBeam.tsx:127-134 | no timer is ever started |
| SendBeam.Signer | app/components/SendBeam.tsx:117-126 | the signer is called only after a `raw` publish, with the exact fee values |
| SendBeam.TransactionOutcome | app/components/SendBeam.tsx:117-134 | send and indexing failures are not wrapped; an indexing error is `Failed to index transaction: <message>`; success exactly when every step succeeds |
| SendBeam.Beam.constructor | app/components/SendBeam.tsx:26-37 | not posting, no messages, the empty form with `ethereum` |
| SendBeam.Beam.HandleInputChange | app/components/SendBeam.tsx:45-51 | only the named field of the form changes |
| SendBeam.Beam.HandleFileChange | app/components/SendBeam.tsx:53-59 | only the media changes |
| SendBeam.Beam.HandleCreateBeam | app/components/SendBeam.tsx:74-147 | nothing past a failed guard; `isPosting` ends false; success resets the whole form with `Beam sent successfully!`; failure keeps the form and reports one message twice |
| CreateBeacon.ScenePageShape | app/components/CreateBeacon.tsx:38-60 | the page begins with the head, opens the module script, holds exactly the script text, then closes it |
| CreateBeacon.ScenePageInjective | app/components/CreateBeacon.tsx:38-60 | different scripts give different pages |
| CreateBeacon.SceneFileShape | app/components/CreateBeacon.tsx:83-86 | the scene file is `scene.html` of type `text/html`, stamped with the clock, and its content is the page head followed by the module script holding exactly the script text |
| CreateBeacon.SceneFileInjective | app/components/CreateBeacon.tsx:83-86 | equal scene files come from the same script and the same clock reading |
| CreateBeacon.Submit | app/components/CreateBeacon.tsx:65-139 | the login comes first |
| CreateBeacon.LoginError | app/components/CreateBeacon.tsx:78-80 | a login error is `Failed to authenticate` with no upload |
| CreateBeacon.UploadOrder | app/components/CreateBeacon.tsx:83-106 | after login the scene file always uploads first with no ACL, then the embed metadata of its URI and the description with no ACL, then the post; a rejected scene or metadata upload ends the run right after it with its own error |
| CreateBeacon.PublishOutcomes | app/components/CreateBeacon.tsx:100-108 | a publish error is `Failed to create post: <message>`; no `raw` is a success with exactly four calls |
| CreateBeacon.TransactionOutcome | app/components/CreateBeacon.tsx:108-139 | after `raw` every failure is `Transaction failed: ...`, the timer in particular; the signer gets the exact fees; success exactly when every step succeeds |
| CreateBeacon.Beacon.constructor | app/components/CreateBeacon.tsx:20-24 | not posting, no messages, empty description |
| CreateBeacon.Beacon.SetDescription | app/components/CreateBeacon.tsx:164 | only the description changes |
| CreateBeacon.Beacon.HandleCreateBeacon | app/components/CreateBeacon.tsx:62-152 | nothing past a failed guard; the workflow runs with the generated scene file; success clears the description with `Beacon created successfully!`; failure keeps it and reports one message twice |
| EditLensProfile.ProfileMetadata | app/components/EditLensProfile.tsx:75-79 | account metadata with an empty name, bio or picture URI dropped |
| EditLensProfile.PictureStage | app/components/EditLensProfile.tsx:69-73 | no call without a picture; with one, one upload with no ACL, and a rejection propagates |
| EditLensProfile.Update | app/components/EditLensProfile.tsx:51-92 | the owner login of the current profile comes first; only login, upload and update calls; success exactly when everything is stored and the update succeeds; a rejected metadata upload ends the chain right after it with its own error and no update call |
| EditLensProfile.Submit | app/components/EditLensProfile.tsx:51-133 | the workflow's calls begin with the update chain's, and a failure there ends it |
| EditLensProfile.SubmitCalls | app/components/EditLensProfile.tsx:97-133 | after a successful update the transaction's calls follow the chain's |
| EditLensProfile.LoginError | app/components/EditLensProfile.tsx:62-64 | a login error is `Failed to authenticate` with no upload |
| EditLensProfile.PictureUpload | app/components/EditLensProfile.tsx:69-73 | the picture uploads right after the login exactly when picked; a failed upload aborts the update with its own error |
| EditLensProfile.UpdateMetadata | app/components/EditLensProfile.tsx:75-82 | up to the update the only JSON upload is the form's account metadata, with no ACL |
| EditLensProfile.MetadataUpload | app/components/EditLensProfile.tsx:75-82 | the metadata upload has no ACL and drops an empty name, bio or picture URI |
| EditLensProfile.UpdateOutcomes | app/components/EditLensProfile.tsx:90-133 | an update error is `Failed to update profile: <message>`; no `raw` gives `Invalid transaction format received` with no signer call |
| EditLensProfile.TransactionOutcome | app/components/EditLensProfile.tsx:98-130 | after `raw` every failure is `Transaction failed: ...`, the timer in particular; exact fees; success exactly when every step succeeds |
| EditLensProfile.Editor.constructor | app/components/EditLensProfile.tsx:35-40 | the form starts from the current name and bio (`''` when missing), empty handle, no picture |
| EditLensProfile.Editor.HandleFormChange | app/components/EditLensProfile.tsx:42-44 | the form becomes the new data |
| EditLensProfile.Editor.HandleUpdateProfile | app/components/EditLensProfile.tsx:46-144 | the guard does not check the profile; `isUpdating` ends false; the form is never reset; success calls `onSuccess`; failure reports one message twice |
| CreateLensProfile.PictureStage | app/components/CreateLensProfile.tsx:55-64 | never fails; a picture is uploaded with no ACL when picked; the URI is kept, even empty, exactly when the upload resolved |
| CreateLensProfile.ProfileMetadata | app/components/CreateLensProfile.tsx:67-71 | an empty name or bio is dropped; the picture URI passes unchanged |
| CreateLensProfile.Submit | app/components/CreateLensProfile.tsx:38-102 | the onboarding login of the app comes first |
| CreateLensProfile.LoginError | app/components/CreateLensProfile.tsx:40-50 | a login error is `Failed to login as onboarding user` with no other call |
| CreateLensProfile.PictureFailureIgnored | app/components/CreateLensProfile.tsx:56-64 | a rejected picture upload leaves the rest of the workflow as if no picture had been picked |
| CreateLensProfile.AccountRequest | app/components/CreateLensProfile.tsx:67-87 | the metadata upload has no ACL; the account is created with the form's handle and the metadata URI, and only once the metadata is stored |
| CreateLensProfile.Outcomes | app/components/CreateLensProfile.tsx:74-101 | a rejected metadata upload gives its own error and no create call; creation, `handleWith` and indexing errors give their three texts, rejections propagate; no timer and no direct signer call; success exactly when every step succeeds |
| CreateLensProfile.Creator.constructor | app/components/CreateLensProfile.tsx:20-27 | not creating, no error, the empty form |
| CreateLensProfile.Creator.HandleFormChange | app/components/CreateLensProfile.tsx:29-31 | the form becomes the new data |
| CreateLensProfile.Creator.HandleCreateAccount | app/components/CreateLensProfile.tsx:33-112 | nothing past a failed guard; `isCreating` ends false; success calls `onSuccess`; failure reports one message twice |
| PostActions.CreatePost | utils/postActions.ts:7-48 | resume first; a missing session throws before any upload; text-only metadata with no ACL; the publish and transaction errors with their prefixes; the exact calls on every path, each failure ending the trace; the indexing result is returned as it is; rejections propagate unchanged |
| PostActions.IndexingErrorReturned | utils/postActions.ts:41-43 | an indexing error is returned, not thrown |

## Left out

- 3D rendering (`BeaconPreview.tsx`, `TestBeacon.tsx`): animation over floating point, with no logic to state.
- `utils/sceneConverter.ts`: the text it returns is an input (`Context.script`) of `CreateBeacon`.
- `helpers/getPrivateKey.js`: a command-line tool whose key derivation is done by foreign libraries.
- Wiring and configuration: `providers.tsx`, the pages, `layout.tsx`, `config.ts`, `lensClient.ts`, `siweClient.ts` and `next.config.js`. The `chain` argument of `sendTransaction` is not modelled.
- `ProfileFormFields.tsx`: markup. It hands the whole form to `handleFormChange`, which is modelled.
- Timers: the 5000 ms success-message timers and real-time behaviour. The indexing race is the three-way outcome `Race`, and the timer's start is recorded as a call.
- SendBeam's essence estimate: `parseFloat` and `Math.floor` on floating point.
- `formatTimestamp` in the post feed: date and locale formatting.
- SDK internals are collaborators whose outcomes are inputs:
  - login and message signing;
  - the storage node;
  - GraphQL actions;
  - `sendTransaction` and `handleWith`.
- The metadata builders (`textOnly`, `embed`, `account`) are uninterpreted constructors of `Metadata`.
- `evmAddress` and the signer callback are not modelled; the address is passed as it is.
- BigInt.BigIntOf: only plain decimal digit strings are modelled. Every non-decimal form `BigInt` accepts is treated as a throw: the `0x`, `0o` and `0b` prefixes, a sign, and surrounding whitespace. The reason is that the publish response always carries decimal strings.
- SendBeam.Beam.HandleInputChange: only the three named inputs exist in the markup, so the field name is a `Field` rather than an arbitrary key.
- LensAuth: the effect wiring (`useEffect` dependencies that run `checkAccounts` and `resumeSession`) is not modelled; each is a method the caller invokes.
- JSX rendering and disabled-button conditions, such as the `handle.trim()` check on the create-profile button.
- `console` logging.
- The `onSuccess` and `onError` props are optional. The handlers always record the call, as when the parent passes both. A throwing `onSuccess` would land in the handler's `catch`; that is not modelled, and the callbacks are assumed not to throw.
