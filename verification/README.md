# RepoMesh control plane: verified models

This project models the parts of the RepoMesh Go control plane that are protocols or algorithms, and proves
what they keep over every run and every input.

| Component | Files |
|---|---|
| Login, sessions, credentials, discovery worker, secret collector (`internal/access`): what every run keeps | `AccessModel`, `LoginSafety`, `SecretSafety`, `CredentialSafety`, `DiscoverySafety`, `AccessDatabase`, `AccessService` |
| The same: what each transaction answers and what an undisturbed operation achieves | `LoginIdentity`, `LoginAnswers`, `CredentialAnswers`, `DiscoveryRounds`, `SecretCollection` |
| Decision chain, Matrix token session, migration ledger | `DecisionChain`, `MatrixTokens`, `Migrations` |
| Discovery chain of one issue (`internal/discovery`) | `ScopeChain`, `ScopeSafety`, `ScopeApproval`, `ScopeAnswers`, `ScopeService`, `RepoDag`, `DependencyMeaning`, `GraphRefine`, `JsonRecovery`, `RecoveryFallbacks` |
| Plan revision and task migration (`internal/tasks`) | `TaskRevision` |
| Command line between coordinator and host executor | `CommandLine`, `CommandWords`, `Dependencies` |
| Autohost circuit breaker | `CircuitBreaker` |
| Trimming, optional values | `Text` |

A SQL transaction is one atomic step under its locks. Network calls, seals in the secret store and every other
gap between two transactions of one operation are points where any other step may run; what an operation holds in
memory across a gap is part of the state. Provider replies, random identifiers, lost commits, crashes and the
passing of time are parameters of the steps, so a statement over all lists of steps is a statement over all
interleavings of any number of operations. The loops and objects of the source are methods and classes
(`AccessDatabase.Database`, `DecisionChain.Session`, `MatrixTokens.Session`, `ScopeService.Discovery`,
`TaskRevision.PlanRows`, `CircuitBreaker.Automator` and the loop methods); each is proved equal to the function or
step that the lemmas are about. What a step answers is stated a second time without the terms it is written in: its
guards and the rows it leaves are spelled out (the modules named in the second row, `ScopeApproval`, `ScopeAnswers`,
`DependencyMeaning`, `RecoveryFallbacks`, `CommandWords` and the lemmas beside the other models).
`dafny verify dfyconfig.toml` checks everything.

Some fields are history only and change no branch: the attempt that minted a session (`mintedBy`), the operation
that sealed a secret version (`sealer`), the access reference a batch was created under (`token`), the refresh
references claimed and presented, the confirmed scope and approved tiers at the time a task row was written, and the
confirmed repositories at the time a plan was revised.

Where the code differs from what is written about it, the model follows the code:

* `Start` offers an account switch (`internal/access/start.go:35-51`), but the `CHECK` on `attempts.purpose`
  (`internal/database/migrations/0003_authentication.sql:47`) allows only `login` and `reconnect`: no switch attempt
  is ever inserted (`LoginSafety.SwitchNeverStarts`).
* `Materialize` and the replan artifact store dependency edges in opposite directions, but not always the same
  edges: `Materialize` remembers an edge by the text `from->to`, and two edges can print the same text
  (`RepoDag.ConverseFails`: whenever four such repositories are confirmed, a run from an empty document gets them
  approved and planned, and the plan is accepted and loses an edge). They are converses exactly when that does not
  happen (`RepoDag.ConverseIff`). The names GitHub hands out contain no `>`, and for those they always are
  (`RepoDag.PlainNamesAreConverse`).
* The comment on the entry list says a repository name cannot contain a colon; `safeRepoFullName` allows one, and
  `#` and `~` at the start, which bash reads. The loop goes over exactly the filtered dependencies when no name has
  a colon, starts with `#`, or starts with `~` and a user whose home directory bash puts there
  (`Dependencies.ListRoundTrip`; `ColonBreaksList` is an input where it does not).
* A plan revision is documented to continue a task in place under the same uid. The code lets an earlier snapshot
  with a new uid take the row by repository and title (`TaskRevision.NameTakesRow`);
  `TaskRevision.SameUidSameRow` is the exact condition.
* Two repositories share a checkout directory exactly when the slash of one stands at an underscore of the other
  (`Dependencies.SameSlug`), so `depSlug` is injective on owners without an underscore, and not on all
  (`Dependencies.UnderscoresCollide`).
* Nothing checks that a reference is stored within 15 minutes of its seal, which the orphan sweep relies on. Only
  `SecretSafety` assumes it, as `TimelyRun`, for what it says about live and destroyed versions, and it needs it
  there (`SecretSafety.LateStoreLosesSecret`). The theorems about logins, sessions, credentials and batches hold
  without it.

## Model

| member | source | states |
|---|---|---|
| LoginSafety.OneLiveAttempt | internal/access/start.go:105-158 | In every reachable state a browser has at most one attempt in pending, exchanging, identity_pending or unknown, and a live attempt carries the binding's current identity and attempt generations, so the live state alone implies the generation guards |
| LoginSafety.OneSession | internal/access/callback.go:160-224 | In every reachable state an attempt has minted at most one session although callback and worker race to confirm it, only a confirmed attempt has minted one, and a binding has at most one unrevoked session |
| LoginSafety.EndedNeverMints | internal/access/callback.go:176-178 | An attempt that ended otherwise than confirmed mints no session in any continuation |
| LoginSafety.StartEndsOthers | internal/access/start.go:151-158 | Once a newer Start of the browser commits, no unconfirmed older attempt ever mints a session, however far its exchange or confirmation got |
| LoginSafety.LogoutEndsAttempts | internal/access/session.go:93-121 | Logout of a current session ends it for good, and no unconfirmed attempt of its browser ever mints a session afterwards |
| LoginSafety.DeadSessionStaysDead | internal/access/session.go:21-25 | A session that was revoked or left behind by a generation change is never valid again |
| LoginSafety.SwitchNeverStarts | internal/database/migrations/0003_authentication.sql:45-60 | Side fact: no reachable state holds a switch attempt, because the schema rejects the purpose |
| LoginSafety.RunKeeps | internal/access/callback.go:20-229 | Every interleaving of callbacks, workers, Start, Logout and maintenance keeps the login invariant, and attempts, generations and sessions only move forward |
| LoginIdentity.SessionNamesIdentity | internal/access/callback.go:110-218 | In every reachable state each session is of the account the provider returned, somewhere in that run, to an operation of the attempt that minted it; that attempt is confirmed with this account, and for a reconnect the account is the expected one |
| LoginIdentity.ConfirmOpensSession | internal/access/callback.go:160-224 | A confirmation opens a session exactly when the attempt is still the browser's current one, waits for its identity and is not over, no newer credential is there, the account is enabled and the commit is not lost; the session is valid at once, of the account sealed for, on the attempt's browser, for twelve hours and half an hour of idleness |
| LoginIdentity.ConfirmInstalls | internal/access/callback.go:201-204 | Exactly then the connection of that account serves the two sealed references under the given revision and expiry times and a later epoch; no other connection changes |
| LoginIdentity.ConfirmEndsOthers | internal/access/callback.go:208-213 | Exactly then the other sessions of the browser end for good; those of other browsers stay as they are |
| LoginIdentity.ConfirmRefused | internal/access/callback.go:147-199 | A refused confirmation gives up both seals and changes no row, except that an untimely one supersedes its attempt; only a lost commit keeps the seals |
| LoginIdentity.LoginSucceeds | internal/access/start.go:95-171 | From any state in which the browser may start and the references are fresh, Start, callback, exchange, identity and confirmation one after the other, with any waits within the attempt's ten minutes, end in a valid session of the identity and a serving connection |
| LoginAnswers.StartSeals | internal/access/start.go:24-93 | Start seals its material exactly when a login finds nobody signed in, any other purpose a valid session of the same browser, and a known browser is neither expired nor repeating itself |
| LoginAnswers.StartIsAllowed | internal/access/start.go:99-149 | Start opens its attempt exactly when the binding is as it was found, the attempt is new, fewer than five attempts of the browser and ten of the account are a minute old, a reconnect still finds its session in use and its connection, and the schema takes the purpose |
| LoginAnswers.StartOpens | internal/access/start.go:150-163 | Then the attempt is pending for ten minutes under new generations, with the account and revision a reconnect is for, exactly the browser's other live attempts are superseded, and nothing else changes |
| LoginAnswers.StartRefused | internal/access/start.go:86-93 | A refused Start changes no row and gives up its material; a lost commit keeps it |
| LoginAnswers.CallbackAnswers | internal/access/callback.go:25-68 | A callback takes effect exactly for the browser's current attempt while it is pending: a code starts the exchange of its material, a refusal by the user cancels, any other error leaves the end unknown |
| LoginAnswers.ExchangeAnswers | internal/access/callback.go:69-89 | The code is exchanged exactly when the material can be opened and the provider answers; the tokens are sealed for this attempt |
| LoginAnswers.StoreAnswers | internal/access/callback.go:90-96 | The token is stored exactly while the attempt is exchanging and not over; otherwise its seal is given up unless the commit was lost |
| LoginAnswers.FailuresEnd | internal/access/callback.go:104-125 | A failed exchange turns an exchanging attempt unknown, a different identity rejects a reconnect that waits for one, and neither touches any other attempt state |
| LoginAnswers.LookupAnswers | internal/access/callback.go:108-159 | What the identity leads to: nothing for an attempt that no longer waits, rejection of a reconnect for another account, otherwise seals for exactly this account; without the second seal the first is given up |
| LoginAnswers.WorkerTakesUp | internal/access/worker.go:23-38 | The worker takes up an attempt exactly while it is the browser's current one, waits for its identity and its token can be opened |
| LoginAnswers.LogoutAnswers | internal/access/session.go:93-121 | Logout revokes its session once; while it is of the current generation both generations move on and exactly the live attempts of that generation are superseded; nothing else changes |
| LoginAnswers.TouchExtends | internal/access/session.go:21-57 | A session in use is valid for another half hour, within its twelve hours and its browser binding, and not a second longer |
| LoginAnswers.ExpiryAnswers | internal/access/worker.go:159-161 | An attempt that is over expires when nothing was sent for it, is unknown when something was, and is left alone otherwise |
| SecretSafety.LiveSecretsSurvive | internal/access/cleanup.go:10-53 | In every state reached by storing every reference within 15 minutes of its seal, the material of a pending or exchanging attempt, the token of an identity_pending attempt and both references of every connection exist and are not destroyed |
| SecretSafety.ListedIsNotLive | internal/access/worker.go:165-202 | In every such state nothing on the remaining list of any discard, orphan sweep or maintenance run is a live secret, so the collectors may stop and resume anywhere |
| SecretSafety.LateStoreLosesSecret | internal/access/cleanup.go:20-29 | The 15 minutes are needed: in a concrete run Start stores its material after the orphan sweep has listed it, and the pending attempt ends with a destroyed secret |
| SecretSafety.SelectedIsDoomed | internal/access/worker.go:165-166 | What maintenance selects can never become live again; this needs the invariant that a pending attempt has no token reference |
| SecretSafety.DoomedStays | internal/access/cleanup.go:20-29 | A version that no column uses and no operation can still store in time stays unusable under every step that stores in time |
| SecretSafety.RunKeeps | internal/access/worker.go:155-204 | Every interleaving of sealing, storing, discarding and collecting keeps who owns which version and what each operation holds; every timely one also keeps that only unusable versions are destroyed or listed |
| SecretCollection.MaintenanceCollects | internal/access/worker.go:165-202 | Maintenance takes a list of rows exactly when each holds a material whose exchange is over or a token whose identity step is; carried out, its plan clears exactly what these rows hold, a waiting token excepted, destroys exactly the versions they named and changes nothing else |
| SecretCollection.OrphansAreDestroyed | internal/access/cleanup.go:20-53 | The orphan sweep takes a list of versions exactly when each is undestroyed, older than 15 minutes and named by no attempt and no connection, and then destroys exactly those |
| SecretCollection.NothingIsForgotten | internal/access/worker.go:155-204 | A version still there after 15 minutes serves a connection, belongs to an attempt that is not over, or is taken by one of the two collectors once expired attempts are marked |
| SecretCollection.PlanIsCarriedOut | internal/access/cleanup.go:10-18 | Carrying out any plan to its end destroys exactly the listed versions and clears exactly the listed columns that still hold what was listed |
| CredentialSafety.PresentedOnce | internal/access/credential.go:31-89 | Over every run each stored refresh token is presented to the provider at most once |
| CredentialSafety.RevisionNamesCredential | internal/access/callback.go:201-204 | If revision and access_epoch of an account read the same at two moments of a run, the access and refresh references are the same too: no other credential ever carries that pair |
| CredentialSafety.ClaimIsFirst | internal/access/credential.go:39-45 | When the guarded claim succeeds, the refresh reference read earlier is still the row's, is owned by the account and was never claimed before |
| CredentialSafety.LostRefreshServesNothing | internal/access/credential.go:46-100 | From any reachable state with a refresh under way, over any steps in which neither it nor a login replaces the credential: once the operation can no longer commit, whatever ended it, the connection serves no credential and keeps its revision in every continuation until a login of that account replaces it |
| CredentialSafety.ClaimSettles | internal/access/credential.go:39-89 | As long as the credential of a claimed connection is not replaced, the connection serves nothing, only the claiming operation could change that, and it is stranded exactly when that operation can no longer commit |
| CredentialSafety.RejectStrands | internal/access/credential.go:184-186 | Rejecting the current revision and epoch strands the connection under the same revision, whatever refresh is in flight |
| CredentialSafety.RejectedServesNothing | internal/access/credential.go:184-186 | After a rejection of the current pair in any reachable state the connection serves nothing and keeps its revision in every continuation without a login that replaces its credential |
| CredentialSafety.RefusalsLoseRefresh | internal/access/credential.go:46-89 | The steps that end a refresh without replacing the credential are exactly these: the operation dies, the stored reference cannot be opened, the provider or the first seal fails, the second seal fails, the commit is lost or finds its claim gone, or anyone rejects the current revision and epoch |
| CredentialSafety.LostIsStranded | internal/access/credential.go:98-100 | Right after such a step the connection serves nothing under the same revision and no operation is left that could commit a refresh for its epoch |
| CredentialSafety.RunLeavesStranded | internal/access/credential.go:98-100 | A connection without a serving credential and without a refresh in flight stays so over every run in which no login of its account replaces the credential |
| CredentialSafety.RunKeeps | internal/access/credential.go:31-89 | The refresh protocol's invariant is kept over every run, and every connection row only evolves to a later epoch or along idle, claimed, unknown |
| CredentialAnswers.RefreshInstalls | internal/access/credential.go:78-88 | A refresh commits exactly when it finds the row as it claimed it; then the connection serves the answered references, revision and both expiry times under the next epoch, otherwise both seals are given up |
| CredentialAnswers.RefreshDecidesReads | internal/access/credential.go:31-42 | After such a commit in any reachable state and for every later moment of the same epoch: the credential is the answered one, and a read starts the next refresh if and only if the answered access expiry is at most 30 seconds away, a refresh reference was answered and its expiry is absent or later |
| CredentialAnswers.LoginDecidesReads | internal/access/credential.go:31-42 | The same for the credential a login installs |
| CredentialAnswers.InstalledStays | internal/access/credential.go:20-42 | As long as the epoch of an installed credential stays, its references, revision and expiry times do |
| CredentialAnswers.ReadStartsRefresh | internal/access/credential.go:23-38 | A read starts a refresh exactly for a connected, idle and due credential, of the stored reference |
| CredentialAnswers.WorkerGetsToken | internal/access/worker.go:72-76 | The worker gets the token exactly when the connection serves, the token is good for more than 30 seconds and its secret can be opened; otherwise the batch is put off |
| CredentialAnswers.ClaimAnswers | internal/access/credential.go:39-45 | The claim succeeds exactly when the connection is still the one read and nobody refreshes it |
| CredentialAnswers.SendAnswers | internal/access/credential.go:46-58 | A refresh token that can be opened is presented once, otherwise the refresh has failed |
| CredentialAnswers.ReplySeals | internal/access/credential.go:59-77 | The answered tokens are sealed for the account; without the second seal the first becomes a leftover |
| CredentialAnswers.GiveUpAnswers | internal/access/credential.go:66-100 | A failed refresh leaves exactly its own claimed credential unknown and gives up its leftovers |
| CredentialAnswers.RejectAnswers | internal/access/credential.go:184-186 | A rejection takes exactly the credential of its revision and epoch out of service, under a new epoch |
| CredentialAnswers.RefreshSucceeds | internal/access/credential.go:31-88 | Undisturbed, a read of a due credential whose secret can be opened ends in the answered credential, and the old reference was presented once |
| DiscoverySafety.BatchHoldsItsPages | internal/access/worker.go:53-149 | In every reachable state the repositories stored for a batch are exactly the items of the pages before its cursor, of the whole listing once complete, as seen by the one access token of its revision and epoch |
| DiscoverySafety.CommittedWithOwnToken | internal/access/worker.go:108-131 | Every commit that changes a batch finds the connection still serving at the revision and epoch of the batch, and wrote pages fetched with the token that connection holds |
| DiscoverySafety.CommitExtends | internal/access/worker.go:112-142 | A commit that passes the fences extends the stored pages by exactly the fetched stretch and moves the cursor to the next page |
| DiscoverySafety.OthersAreFenced | internal/access/worker.go:121-131 | Every other worker of the batch works under an older claim_version when a commit passes |
| DiscoverySafety.ChainSplits | internal/access/worker.go:84-100 | The items of n + k pages are those of n pages and then those of the k pages after them |
| DiscoveryRounds.ClaimTakes | internal/access/worker.go:53-64 | A claim succeeds exactly for an unfinished, unexpired, due batch without a running lease whose revision and epoch are the connection's, and gives a lease of 15 seconds under the next claim_version |
| DiscoveryRounds.LeaseExcludes | internal/access/worker.go:54-56 | While the lease runs and is not given back no other worker claims the batch |
| DiscoveryRounds.UpsertsMerge | internal/access/worker.go:132-137 | After the insert loop an id holds the last item fetched for it, or what it held before |
| DiscoveryRounds.CommitAnswers | internal/access/worker.go:108-148 | A commit takes effect exactly behind both fences, adds the items, moves the cursor or completes, gives the lease back and sets the next run |
| DiscoveryRounds.DeferAnswers | internal/access/worker.go:101-107 | Without a page the lease is given back unless somebody claimed the batch since |
| DiscoveryRounds.PageAnswers | internal/access/worker.go:84-100 | Up to two pages are fetched one after the other; a failed first one puts the batch off, a failed second one keeps the first |
| DiscoveryRounds.RoundAdvances | internal/access/worker.go:53-149 | An undisturbed round moves the batch over exactly one or two pages of the listing and changes nothing else |
| DiscoveryRounds.RoundsFinish | internal/access/worker.go:53-149 | While the connection keeps serving, a listing that ends is complete after finitely many rounds, at most one per page, if the batch lives long enough for them |
| AccessDatabase.PlanSweep | internal/access/worker.go:185-202 | The loop over the selected rows lists exactly the destroys and guarded clears of each row, in order |
| AccessDatabase.UpsertAll | internal/access/worker.go:132-137 | The insert loop ends with the last item of each repository id |
| AccessDatabase.FetchPages | internal/access/worker.go:79-100 | At most two pages are fetched, up to the end or the first error, and what is collected is a stretch of the token's chain of pages |
| AccessDatabase.Database.Start | internal/access/start.go:95-172 | The whole new state of Start's transaction: superseded attempts, bumped generation, inserted attempt, or rollback with the material discarded |
| AccessDatabase.Database.BeginCallback | internal/access/callback.go:25-68 | The whole new state of the callback's first transaction, for a code, a cancellation and a provider error |
| AccessDatabase.Database.StoreExchange | internal/access/callback.go:90-96 | The guarded update stores the token reference, or the reference is discarded |
| AccessDatabase.Database.Confirm | internal/access/callback.go:160-228 | The whole new state of the confirmation: connection, generation, sessions and attempt, or superseded or refused with both seals discarded |
| AccessDatabase.Database.Logout | internal/access/session.go:93-121 | The whole new state of Logout |
| AccessDatabase.Database.RunSweep | internal/access/worker.go:185-202 | Destroying and clearing a whole list equals performing its operations one by one |
| AccessDatabase.Database.ClaimRefresh | internal/access/credential.go:39-45 | The guarded claim of a refresh, or nothing when the row has moved on |
| AccessDatabase.Database.CommitRefresh | internal/access/credential.go:78-88 | The compare-and-swap that installs the refreshed credential under a new revision and the next epoch, or discards both seals |
| AccessDatabase.Database.GiveUpRefresh | internal/access/credential.go:98-100 | Only a row still claimed for this credential becomes unknown |
| AccessDatabase.Database.Reject | internal/access/credential.go:184-186 | A credential of this revision and epoch is marked missing and its epoch retired |
| AccessDatabase.Database.ClaimBatch | internal/access/worker.go:53-64 | A due, unleased batch whose credential is still the connection's is leased under the next claim_version |
| AccessDatabase.Database.CommitBatch | internal/access/worker.go:108-148 | The whole new state of a page commit under its two fences |
| AccessDatabase.Database.DeferBatch | internal/access/worker.go:151-153 | The lease is given back unless a later claim exists |
| AccessService.StepKeeps | internal/access/callback.go:160-228 | Every step of the state machine keeps the invariants of logins, secrets, credentials and batches together |
| AccessService.ReachableIsSound | internal/access/callback.go:20-229 | All four invariants hold in every reachable state, the one about destroyed secrets in every timely one |
| AccessService.Perform | internal/access/worker.go:108-153 | Each transaction method of the database object is one action of the state machine |
| AccessService.Serve | internal/access/credential.go:78-100 | Every transaction on a sound database object leaves it sound: all four invariants, with the one about destroyed secrets for timely stores |
| AccessService.Sweep | internal/access/worker.go:185-202 | So does performing a whole list of a collector |
| DecisionChain.VersionsAreContiguous | internal/decisionchain/postgres_store.go:96-153 | Under every interleaving of transactions with commits and rollbacks the committed nodes of a requirement key and step carry exactly the versions 1..n, in order |
| DecisionChain.EventStoredOnce | internal/decisionchain/postgres_store.go:125-136 | Each event id is stored at most once, and committed nodes stay as they are |
| DecisionChain.RedeliveryReturnsOriginal | internal/decisionchain/postgres_store.go:141-147 | Recording a committed event again inserts nothing and returns the stored node whatever the second write says |
| DecisionChain.BackstopNeverFires | internal/decisionchain/postgres_store.go:75-81 | The unique index on versions is never violated, neither by visible nor by uncommitted rows, because the lock covers maximum and insert |
| DecisionChain.MaxIsCount | internal/decisionchain/postgres_store.go:104-110 | In every table that arises the maximum version of a chain is its number of nodes |
| DecisionChain.Session.NextVersion | internal/decisionchain/postgres_store.go:104-110 | The scan for the maximum returns the next version of the chain |
| DecisionChain.Session.Record | internal/decisionchain/postgres_store.go:96-153 | A first delivery appends the next version of its chain; a redelivery returns the stored node and changes nothing |
| DecisionChain.RecordIsThreeSteps | internal/decisionchain/postgres_store.go:96-153 | When nobody else holds the chain's lock or has inserted the event, the call is exactly the lock, the maximum and the insert of the state machine in sequence, so all its theorems are about it |
| DecisionChain.DeliveryIsStored | internal/decisionchain/postgres_store.go:96-153 | From any reachable state, an unopposed delivery in a transaction of its own stores a new event with what was delivered as the next version of its chain, changes nothing for a known one, and leaves no lock behind |
| DecisionChain.ResultsAreStored | internal/decisionchain/postgres_store.go:125-147 | Once a transaction has committed, every node its calls returned is stored, in every continuation |
| DecisionChain.OnlyCommitsStore | internal/decisionchain/postgres_store.go:96-153 | Only a commit between two calls changes the table, by exactly the rows of its transaction; a rollback leaves no row and no lock |
| MatrixTokens.RotationsAreNeeded | internal/agentteams/matrix.go:244-305 | Any number of concurrent callers rotate at most 1 + k times, k being how often the cached token was invalidated from outside, and the cached token is always the latest one issued |
| MatrixTokens.RotationsAreExact | internal/agentteams/matrix.go:263-280 | The rotations fall behind 1 + k by exactly the one invalidation nobody has run into yet |
| MatrixTokens.ReplacedTokenNeverRotates | internal/agentteams/matrix.go:286-305 | A 401 on a token that was already replaced does not rotate; the caller gets the current token |
| MatrixTokens.DeadTokenIsReplaced | internal/agentteams/matrix.go:263-280 | In every reachable state a caller refused with the session's latest token, or with the configured one before any, gets the controller's token: cache, caller and homeserver hold it, the refused one is not accepted, the rotations grow by it alone. Exactly without a controller or its answer the call fails and nothing else changes |
| MatrixTokens.CallStartsWith | internal/agentteams/matrix.go:244-254 | A call starts with the configured token, else the latest, else a first one of the controller, and fails at once exactly when there is none of the three |
| MatrixTokens.RefusedCallRecovers | internal/agentteams/matrix.go:286-305 | With a controller that answers, a refused call goes on with the session's token whichever it was refused with; it is a new accepted one exactly when the refused one was the latest |
| MatrixTokens.AnsweredCall | internal/agentteams/matrix.go:286-305 | A whole call that is answered leaves the session with a token, a new one only when it had none, and all else as it was |
| MatrixTokens.Session.Refresh | internal/agentteams/matrix.go:263-280 | refreshLocked: the token returned and the cached token afterwards |
| MatrixTokens.Session.Current | internal/agentteams/matrix.go:244-254 | accessToken: the configured, the cached or a freshly rotated token |
| MatrixTokens.Session.Turn | internal/agentteams/matrix.go:286-305 | A caller's turn under the mutex is one action of the state machine and keeps its invariant; the token returned is the one its next request uses, and without one the caller leaves |
| Migrations.LoadMigrations | internal/database/migrations.go:32-56 | The manifest is accepted exactly when its file names are numbered 1..n without a gap and no file is blank, and it lists every file with its content and checksum |
| Migrations.ReadHistory | internal/database/migrations.go:58-101 | The ledger is accepted exactly when it is absent or a non-empty prefix of the manifest, and the result is its length |
| Migrations.Migrate | internal/database/migrations.go:103-134 | The whole effect of a call, including a failing migration, a lost commit and an unconfirmed one |
| Migrations.LedgerIsPrefix | internal/database/migrations.go:103-134 | After any calls by binaries whose manifests extend one another, however they end, the ledger is a prefix of the newest manifest and its migrations were each executed once, in order |
| Migrations.NextCall | internal/database/migrations.go:81-88 | An older binary meeting a newer ledger fails before executing anything; a call that reports success leaves exactly its manifest on record and executed |
| Migrations.CallAnswers | internal/database/migrations.go:58-134 | A call takes effect exactly when the ledger starts the manifest row by row, no missing migration breaks and the commit is not lost; then it executes exactly the missing ones and records the whole manifest, and it reports success exactly when it also saw the commit |
| Migrations.NextCallFinishes | internal/database/migrations.go:103-134 | Whatever went wrong in earlier calls, an undisturbed call of the newest release leaves exactly its manifest, each migration executed once |
| Migrations.VersionIsPrinted | internal/database/migrations.go:23-46 | A file name carries a version exactly when it is that version in four digits, an underscore, a stem and .sql |
| Migrations.DivergedChangesNothing | internal/database/migrations.go:84-90 | Side fact: a binary whose manifest disagrees with the ledger anywhere changes nothing |
| JsonRecovery.ExtractJSONObject | internal/discovery/planning.go:921-949 | The one-pass scanner returns the text from the first brace to where the scan closes the outermost object, or nothing |
| JsonRecovery.ExtractRoundTrip | internal/discovery/planning.go:921-949 | For every object value in every layout (RFC 8259, sections 4 and 7), every prefix without an opening brace and every suffix, exactly the printed object comes back, with braces, quotes and escapes inside strings |
| JsonRecovery.ObjectCloses | internal/discovery/planning.go:926-946 | Scanning a printed object, whatever follows it, stops exactly at its closing brace |
| JsonRecovery.ValuePasses | internal/discovery/planning.go:930-939 | Inside an object a whole value leaves depth, string and escape flags where they were |
| JsonRecovery.CutBlocks | internal/discovery/planning.go:902-917 | The cutting loop terminates and takes out one block at a time, searching from the start again |
| JsonRecovery.StripReasoning | internal/discovery/planning.go:902-917 | The same loop for the think marks |
| JsonRecovery.StrippedIsClean | internal/discovery/planning.go:904-908 | Whatever the text, no opening think mark is left, not even one joined by a cut |
| JsonRecovery.StrippedIsSubsequence | internal/discovery/planning.go:909-915 | The result is a subsequence of the input |
| JsonRecovery.StripRoundTrip | internal/discovery/planning.go:902-917 | Taking closed blocks out of prose without a think mark leaves exactly the prose |
| JsonRecovery.RecoverArtifact | internal/discovery/planning.go:193-211 | The text handed to the JSON decoder, and the empty-file error |
| JsonRecovery.RecoveryRoundTrip | internal/discovery/planning.go:193-211 | Think blocks anywhere, prose without an opening brace or mark before the object, anything at all after it, code fences and whitespace around it: the decoder gets exactly the printed object if and only if the object holds no opening think mark |
| JsonRecovery.CandidateIsClean | internal/discovery/planning.go:193-211 | Whatever the raw text, what the decoder gets holds no opening think mark, so an object with one in a string never comes back whole |
| JsonRecovery.CutBehind | internal/discovery/planning.go:902-917 | Cutting goes on behind a clean head that ends in no character of the mark as if the head were not there |
| RecoveryFallbacks.TruncatedIsNotFound | internal/discovery/planning.go:921-949 | A printed object that was cut off anywhere is not found, behind any brace-free prefix |
| RecoveryFallbacks.ExtractStays | internal/discovery/planning.go:921-949 | What follows a found object does not matter |
| RecoveryFallbacks.FoundMeans | internal/discovery/planning.go:921-949 | What is found reaches from the first opening brace to a closing one and is found again in itself |
| RecoveryFallbacks.UnclosedIsCut | internal/discovery/planning.go:909-915 | A reasoning block that never closes is cut to the end; the prose before it stays without the closed blocks |
| RecoveryFallbacks.FencedTextComesBack | internal/discovery/planning.go:193-211 | A text without an object comes back exactly, without the space and the code fence around it |
| RecoveryFallbacks.EmptyMeans | internal/discovery/planning.go:193-197 | The empty-file error is given exactly for a text of whitespace only |
| ScopeSafety.RunKeeps | internal/discovery/plan.go:332-430 | After any sequence of classifications, approvals with any adjustments, agent plans and scope changes, every task row ever written names a repository that was in the confirmed scope and in the approved tiers when it was written |
| ScopeSafety.NewRowIsConfirmed | internal/discovery/plan.go:425-430 | Only materialization writes rows, only while approved, and each new row names a repository of the current confirmed scope and of the approved tiers |
| ScopeSafety.MaterializeNeeds | internal/discovery/plan.go:332-368 | Materialization succeeds exactly when the plan's repositories are duplicate-free, in the confirmed scope and equal to the approved tiers as a set, the approval stands and every task names one of them |
| ScopeSafety.SetOfDistinct | internal/discovery/plan.go:357-368 | A duplicate-free list has as many members as entries, which turns the length check into set equality |
| ScopeSafety.RunKeepsRow | internal/discovery/plan.go:534-543 | A task row is never rewritten or lost by later steps of this chain; what a plan revision does to it is stated in TaskRevision |
| ScopeSafety.MaterializeAgain | internal/discovery/plan.go:293-295 | Materializing the same plan again succeeds and writes nothing new |
| ScopeSafety.BucketsByScope | internal/discovery/classify.go:54-138 | Which candidates each of the four lists names, in terms of the confirmed scope and the judgement |
| ScopeSafety.ExactlyOneBucket | internal/discovery/classify.go:107-138 | Distinct candidates are each in exactly one of required, maybe, excluded and gap |
| ScopeSafety.ClassificationSucceeds | internal/discovery/classify.go:144-157 | With no audit open, classification succeeds exactly when no confirmed repository is named by two candidates |
| ScopeSafety.IncludedMeans | internal/discovery/classify.go:114-120 | Required and maybe together name exactly the candidates inside the confirmed scope |
| ScopeSafety.UnadjustedApproval | internal/discovery/plan.go:143-153 | Approval of a fresh classification as it is succeeds exactly when some candidate is in the confirmed scope |
| ScopeSafety.PlanSelectsScope | internal/discovery/plan.go:54-67 | The plan made after it selects exactly the candidates inside the confirmed scope |
| ScopeSafety.LastAdjustmentDecides | internal/discovery/plan.go:266-291 | The last adjustment of a repository is its tier whether or not it was classified, and every other repository keeps its tier |
| ScopeSafety.IncludedWithin | internal/discovery/plan.go:198-215 | The two readings of the included tiers differ only in empty names |
| ScopeApproval.DecisionIsStored | internal/discovery/plan.go:101-169 | A decision that is no replay is accepted exactly for the current evidence version, as changes_requested, or as approved with fitting adjustments that leave a confirmed, duplicate-free selection; then it is stored as made, with the adjusted tiers, and otherwise nothing changes |
| ScopeApproval.ApprovalIsLastDecision | internal/discovery/plan.go:125-155 | After any run the stored approval is the last accepted decision |
| ScopeApproval.ApprovedBySomebody | internal/discovery/plan.go:114-155 | A document that became approved was approved by a request of the run that was accepted anew, for the evidence then current, and no other decision was accepted after it |
| ScopeApproval.RefusalHolds | internal/discovery/plan.go:125-126 | After changes_requested, whatever happens since: until an approval is accepted no plan and no materialization but a repeated one is accepted, and no row is written |
| ScopeApproval.UnapprovedDoesNothing | internal/discovery/plan.go:46-49 | Without an approval a new plan or materialization is refused and writes nothing |
| ScopeApproval.RepeatedRequest | internal/discovery/plan.go:114-117 | A request with a key answers the same whenever it comes again, and changes nothing then |
| ScopeApproval.PlannedMeans | internal/discovery/plan.go:384-422 | The usable agent tasks are planned; only without any one the repositories get a default task each |
| ScopeApproval.MaterializedRows | internal/discovery/plan.go:425-572 | An accepted materialization writes for every planned task, under plan, repository and place, its title and work, writes no other row and rewrites none; the receipt lists exactly these rows in order |
| ScopeAnswers.JudgedMeans | internal/discovery/classify.go:54-106 | A candidate is judged by the agent's label, without one by the graph's marks, and without those by its score: required from 0.7, maybe from 0.4 |
| ScopeAnswers.EntriesAreCandidates | internal/discovery/classify.go:107-138 | Every list entry is a candidate with its own score and marks under the status of its list |
| ScopeAnswers.ClassificationStores | internal/discovery/classify.go:140-190 | A classification is stored exactly when there are candidates, no audit is open and confirmed repositories are named once; it replaces the tiers and keeps the approval |
| ScopeAnswers.SelectedAre | internal/discovery/scope.go:46-66 | The repositories taken in are those with a tier that says required or maybe |
| ScopeAnswers.PlanAnswers | internal/discovery/plan.go:33-96 | A plan is made exactly of an approved classification whose tiers all say one of the three words and take in at least one repository, each confirmed and once; it names them in order |
| ScopeAnswers.AdjustmentRemembers | internal/discovery/plan.go:266-291 | An adjusted tier says the new word and remembers the one it had; tiers of other repositories are as they were |
| ScopeAnswers.TaskRepositoriesAre | internal/discovery/planning.go:393-406 | The repositories of a task list are the non-empty names of its tasks, each once |
| ScopeAnswers.AgentPlanIsStored | internal/discovery/planning.go:390-428 | An agent plan is stored with its tasks and its repositories, or those of its tasks when it lists none |
| ScopeAnswers.MaterializeRefused | internal/discovery/plan.go:320-368 | A refused materialization writes nothing; only one whose plan names no repository is marked as failed |
| TaskRevision.RunKeeps | internal/tasks/revision.go:84-245 | Over any attempts, repeated, stale or contradictory: the history only grows, every key was applied once and to the version before it, no row is lost, live uids are unique, and the live rows are the tasks of the last revision, one row each, in repositories that the scope confirmed then reads in one way |
| TaskRevision.RepeatedIsReplayed | internal/tasks/revision.go:132-148 | Applying a revision again, whatever was revised since, returns its entry and changes nothing |
| TaskRevision.RevisionAnswers | internal/tasks/revision.go:84-245 | A revision applies exactly with an unused key, to the version it expects, as a sound list whose names the scope reads in one way and whose uids no other plan has; it is recorded under the next version. A sound repetition of a known command is answered with its entry, and in every other case nothing changes |
| TaskRevision.KeyNames | internal/tasks/revision.go:285-305 | The fallback key stands for repository and title as long as repository names do not hold its separator |
| TaskRevision.MigrationIsExact | internal/tasks/revision.go:312-389 | After the migration the live rows of the plan are exactly the snapshots, one row each, in whatever order the query lists the old rows; superseded rows stay as they are |
| TaskRevision.SameUidSameRow | internal/tasks/revision.go:343-372 | A snapshot goes on in the row of its uid if and only if no earlier snapshot, of no or an unknown uid, names that row by repository and title |
| TaskRevision.NameTakesRow | internal/tasks/revision.go:343-372 | For any task: a snapshot with a new uid and its names before one with its uid passes the gate and takes its row |
| TaskRevision.IndexNeverFires | internal/database/migrations/0021_replan_protocol.sql:16-18 | After every statement of the migration the uids of the plan's live rows are unique, in whatever order the snapshots come, so only other plans of the project can make the index fire |
| TaskRevision.OneReading | internal/tasks/scope.go:29-48 | A name that is counted once stands for exactly one repository of the scope |
| TaskRevision.ValidateTaskSnapshots | internal/tasks/revision.go:285-305 | The one pass with two sets accepts exactly the lists where every snapshot has a repository, no uid is repeated and none without a uid repeats the names of an earlier one |
| TaskRevision.BuildIndex | internal/tasks/revision.go:333-341 | The two maps hold the last listed row of each uid and of each pair of names |
| TaskRevision.PlanRows.Migrate | internal/tasks/revision.go:312-389 | The rows after the migration; live rows before plus created ones are snapshots plus superseded ones |
| ScopeService.ValidateRepositories | internal/discovery/scope.go:36-43 | The loop accepts exactly the duplicate-free lists inside the confirmed scope |
| ScopeService.SelectTierNames | internal/discovery/scope.go:46-66 | The included names in order, or the malformed or the empty error |
| ScopeService.IncludedTierNames | internal/discovery/plan.go:198-215 | The non-empty included names in order |
| ScopeService.ApplyAdjustment | internal/discovery/plan.go:266-291 | Every tier of the repository is overwritten, or one is appended |
| ScopeService.ApplyAdjustments | internal/discovery/plan.go:127-140 | The adjustments are refused exactly when one of them is not allowed, and otherwise all applied in order |
| ScopeService.SortCandidates | internal/discovery/classify.go:54-138 | The loop fills the four lists as one function of candidates and scope |
| ScopeService.RepositoriesOfTasks | internal/discovery/planning.go:393-406 | The repositories of the tasks in order of first occurrence |
| ScopeService.PlanTasks | internal/discovery/plan.go:384-422 | The usable agent tasks, or one default task for each repository |
| ScopeService.Discovery.Classification | internal/discovery/classify.go:17-190 | The whole new state and reply of a classification |
| ScopeService.Discovery.Approval | internal/discovery/plan.go:101-169 | The whole new state and reply of an approval; nothing is stored before every check passed |
| ScopeService.Discovery.Plan | internal/discovery/plan.go:33-96 | The whole new state and reply of a plan |
| ScopeService.Discovery.ApplyPlan | internal/discovery/planning.go:390-428 | An agent plan replaces the plan unchecked |
| ScopeService.Discovery.Materialize | internal/discovery/plan.go:296-572 | The whole new state and reply of a materialization, its rows included |
| ScopeService.Perform | internal/discovery/plan.go:296-572 | Each method of the discovery object is one action of a run |
| ScopeService.Serve | internal/discovery/plan.go:425-430 | Whatever action is performed on the object, its task rows name repositories that were confirmed and approved when written |
| RepoDag.BuildPlanDag | internal/discovery/plan.go:450-472 | The two nested loops build the map of the resolved edges, keyed as text |
| RepoDag.ReplanTasksFromArtifact | internal/discovery/replan.go:136-195 | The two passes reject nameless tasks and build the map of upstreams |
| RepoDag.ConverseIff | internal/discovery/plan.go:459-472 | On a well-formed task list the two maps hold converse edges if and only if no two resolved edges print the same key |
| RepoDag.ConverseFails | internal/discovery/plan.go:459-472 | For any three names: when the four repositories built from them with `->` are confirmed, the run that classifies, approves and plans them from an empty document ends in a plan that Materialize accepts, and its map loses an edge that the replan artifact keeps |
| RepoDag.CollidingNamesExist | internal/discovery/scope.go:12-43 | Four distinct names of the shape owner/name of that kind |
| RepoDag.PlanIsAccepted | internal/discovery/plan.go:332-430 | Any well-formed task list within confirmed repositories is reached by such a run, passes every check of Materialize and is planned as it is |
| RepoDag.PlainNamesAreConverse | internal/discovery/replan.go:166-189 | For repository names without `>` the two maps are always converses |
| RepoDag.PlanMapMeans | internal/discovery/plan.go:458-472 | The plan's map holds an edge exactly when it is the first with its key |
| RepoDag.ReplanMapMeans | internal/discovery/replan.go:151-190 | The replan map holds exactly the resolved edges |
| RepoDag.PlanDagIsSimple | internal/discovery/plan.go:462-468 | No repository depends on itself and no dependency is listed twice in the plan's map |
| RepoDag.ReplanDagIsSimple | internal/discovery/replan.go:176-188 | The same for the replan map |
| RepoDag.LastTitleWins | internal/discovery/replan.go:149 | A repeated title means its last task, in both maps |
| DependencyMeaning.PlanDagMeans | internal/discovery/plan.go:450-472 | For repository names without `>` the planned map lists b under a exactly when a task of b depends on a title whose last task is of a, and a is not b; whatever the names, it lists nothing else |
| DependencyMeaning.ReplanDagMeans | internal/discovery/replan.go:136-190 | The replanned map lists a under b exactly in that case, with the text trimmed, and is refused exactly when a task is nameless or none is left |
| DependencyMeaning.PlanDagLists | internal/discovery/plan.go:450-457 | Every repository of the plan has an entry, any other one only for those that depend on it |
| DependencyMeaning.ReplanDagLists | internal/discovery/replan.go:151-165 | The replanned map has an entry for exactly the repositories of the tasks |
| GraphRefine.GraphAdjust | internal/discovery/graph.go:21-112 | For some visiting order of the adjacent ids, the verdicts, supplements and conflicts are the specified ones |
| GraphRefine.MissingNeighboursOnce | internal/discovery/graph.go:88-108 | Whatever the map order, every named neighbour of a required repository that no verdict mentions is appended exactly once, and nothing else is |
| GraphRefine.VerdictsKept | internal/discovery/graph.go:70-86 | The input verdicts come out in order, changed in at most one flag, and a verdict at or above 0.7 is never excluded |
| GraphRefine.FlagsMean | internal/discovery/graph.go:70-86 | A verdict is a conflict exactly when it is of a required repository no edge touches while others are required, and excluded exactly when it is of one that is not required, has no edge to a required one and scores below 0.7 |
| GraphRefine.RequiredMeans | internal/discovery/graph.go:37-48 | The required ids are those of the known names judged at 0.7 or more |
| GraphRefine.SupplementsAre | internal/discovery/graph.go:88-108 | Behind the verdicts come the missing neighbours as supplements from the graph, at 0.4 and without a flag |
| GraphRefine.ConflictsMean | internal/discovery/graph.go:73-79 | The conflicts reported are the names of the conflicting verdicts, in their order |
| GraphRefine.MoreEdgesOnlyHelp | internal/discovery/graph.go:53-67 | Adding edges never adds an exclusion or a conflict and never removes a supplement, for any two visiting orders |
| GraphRefine.BuildNeighbours | internal/discovery/graph.go:52-62 | The neighbour map is symmetric and holds exactly the edges |
| GraphRefine.FindAdjacent | internal/discovery/graph.go:63-67 | The double loop collects exactly the ids that touch a required one |
| CommandLine.SplitIntoWords | cmd/repomesh-host-executor/executor.go:255-290 | The splitter loop equals the step function, unmatched quotes included |
| CommandLine.SplitRoundTrip | cmd/repomesh-host-executor/executor.go:255-290 | Every list of words without a single quote, the empty word included, comes back from single-quoted printing in any whitespace layout |
| CommandLine.BashRoundTrip | cmd/repomesh-coordinator/ledger.go:448 | The stored command splits into bash, -c and the script if and only if the script has no single quote |
| CommandLine.CommandRoundTrip | cmd/repomesh-coordinator/ledger.go:271-448 | For the codex and claude kinds and every instruction, title, skill text and dependency list, the executor gets exactly bash, -c and the script if and only if model, repository, attempt and issue have no single quote (the four long stretches of fixed script text are taken to have none) |
| CommandLine.CommandSays | cmd/repomesh-coordinator/ledger.go:271-448 | What the executor gets as third word, without the functions that built it: repository and attempt are assigned to R and B, the loop over the filtered dependencies stands there exactly when there are any, the program of the kind gets the model behind its flag and one double-quoted argument that nothing closes, made of the sanitized skill text when there is one, the contract and the sanitized trimmed instruction or, exactly when that is blank, the fixed sentence; issue and the title cut to 60 follow in commit and pull request |
| CommandLine.FixedPieces | cmd/repomesh-coordinator/ledger.go:296-336 | The fixed pieces around the ids are the two assignments and the programs with their model and prompt flags |
| CommandWords.SplitReadsWords | cmd/repomesh-host-executor/executor.go:255-290 | Every line of words, each put together of bare pieces and pieces in single or double quotes, is read back as these words whatever whitespace is around them |
| CommandWords.UnclosedIsRefused | cmd/repomesh-host-executor/executor.go:286-290 | A quote that is not closed, alone or behind words, is refused |
| CommandLine.CheckoutUnquoted | cmd/repomesh-coordinator/ledger.go:218-269 | The dependency part never brings a single quote into the script |
| CommandLine.Sanitized | cmd/repomesh-coordinator/ledger.go:47-54 | Length is kept, the five characters are gone and nothing else changes |
| Dependencies.FilteredDependencies | cmd/repomesh-coordinator/ledger.go:132-152 | The in-place loop with its index map equals the plain specification |
| Dependencies.KeptNamesMean | cmd/repomesh-coordinator/ledger.go:135-138 | The kept names are exactly the safe names given, without the task's own repository |
| Dependencies.KeptNamesDistinct | cmd/repomesh-coordinator/ledger.go:142-149 | No name is kept twice |
| Dependencies.FirstRefMeans | cmd/repomesh-coordinator/ledger.go:139-147 | The ref of a kept name is the first safe non-empty one given for it, or empty when there is none |
| Dependencies.SafeNameMeans | cmd/repomesh-coordinator/ledger.go:102-108 | A name is safe exactly when it is an owner, one slash and a repository, neither empty, with nothing the shell reads |
| Dependencies.SafeRefMeans | cmd/repomesh-coordinator/ledger.go:115-126 | A ref is safe exactly when it is the delivery prefix and at most 106 letters, digits, hyphens, underscores and slashes |
| Dependencies.KeptInOrder | cmd/repomesh-coordinator/ledger.go:132-152 | The kept names come in the order in which they were first given |
| Dependencies.ListRoundTrip | cmd/repomesh-coordinator/ledger.go:223-234 | The loop over the space-joined name:ref words, with comments and tilde prefixes as bash reads them and each word cut at its first colon, goes over exactly the filtered list if and only if no repository name has a colon, starts with `#`, or starts with `~` and a user whose home directory is written differently |
| Dependencies.ColonBreaksList | cmd/repomesh-coordinator/ledger.go:226-227 | A name with a colon that passes the filter and is not read back |
| Dependencies.SameSlug | cmd/repomesh-coordinator/ledger.go:66-68 | Exactly when two repositories get the same directory name |
| Dependencies.SlugInjective | cmd/repomesh-coordinator/ledger.go:66-68 | Owners without an underscore never share one |
| Dependencies.UnderscoresCollide | cmd/repomesh-coordinator/ledger.go:66-68 | Two different names that pass the filter and share a directory |
| Dependencies.DeliveryRefIsSafe | cmd/repomesh-coordinator/ledger.go:115-126 | The loop accepts exactly the delivery branch shape |
| CircuitBreaker.RateBound | cmd/repomesh-coordinator/discovery_auto.go:117-225 | Whatever the maps held before and whatever other issues do, an issue that stays on one counted step is executed at most 5 + T / 300 times in any T seconds |
| CircuitBreaker.LongWaitsAddUp | cmd/repomesh-coordinator/discovery_auto.go:141-207 | n executions need five minutes for each wait beyond the two short error waits and two short success waits |
| CircuitBreaker.ExecutionRests | cmd/repomesh-coordinator/discovery_auto.go:171-207 | An execution uses up one short wait or rests the issue for five minutes |
| CircuitBreaker.OthersRest | cmd/repomesh-coordinator/discovery_auto.go:117-128 | Executing another issue changes no counter and no wait of this one |
| CircuitBreaker.StepsMatchBranches | cmd/repomesh-coordinator/discovery_auto.go:365-393 | Two issues get the same step number exactly when they take the same branch of the main switch |
| CircuitBreaker.BranchMeans | cmd/repomesh-coordinator/discovery_auto.go:129-344 | For each branch the exact prerequisites: the first one an issue misses, the gate's answers included |
| CircuitBreaker.FirstAwakeIsPicked | cmd/repomesh-coordinator/discovery_auto.go:105-128 | A poll executes the first candidate without a running wait, and nobody exactly when all are waiting |
| CircuitBreaker.WaitIsExact | cmd/repomesh-coordinator/discovery_auto.go:141-207 | While an issue stays on one step the n-th success in a row is followed by three seconds for n < 3 and then five minutes, the n-th failure by ten seconds and then five minutes, whatever other issues do |
| CircuitBreaker.UncountedIs | cmd/repomesh-coordinator/discovery_auto.go:214-225 | A waiting branch and a reopening approval only drop the wait; a suggestion waits three seconds and ends its streak, or is put off like any failure |
| CircuitBreaker.Automator.Step | cmd/repomesh-coordinator/discovery_auto.go:105-344 | The whole effect of a poll on backoff, attempts and last step |
| CircuitBreaker.Automator.Execute | cmd/repomesh-coordinator/discovery_auto.go:129-344 | The whole effect of advancing one issue on the three maps |
| CircuitBreaker.Automator.Done | cmd/repomesh-coordinator/discovery_auto.go:171-207 | The counters and the wait after a counted step |
| CircuitBreaker.Automator.Working | cmd/repomesh-coordinator/discovery_auto.go:214-225 | The counters and the wait after an uncounted step |

## Left out

- SQL text, isolation levels and lock waits: a transaction is one atomic step, except that decision-chain transactions are opened step by step with their advisory locks.
- GitHub, Matrix and controller calls, token contents, hashing and encryption: a call returns a fresh value or fails. Digests are names, so two cookies or states never collide.
- Organization assignment, display names, destinations, reason codes, `observed_at` and the result page of an attempt: they guard no transition that is modelled.
- `accounts.disabled` is a parameter of the confirmation; elsewhere it only refuses service.
- `next_run_at` of an attempt: the worker may pick any identity_pending attempt at any time, which allows more runs than the code.
- The session touch is not throttled and Logout may use any session row, which allows more runs than the code.
- References of app credentials and their purposes are not part of the secret store model.
- Reuse of an open batch, cursors handed to the browser and the verification of observed repositories: reading only.
- `Rewrap` in `RunOne` changes how a secret is wrapped, not which reference exists.
- Search, embeddings, HTTP surface and query builders of the decision chain.
- The JSON decoder after recovery and the per-step key checks.
- Invalid UTF-8: a character is a code point.
- Selection gate, its deadlines and audit writes: confirmed scope and open audit change by steps of their own.
- The agent's tier label is taken as parsed; trimming and upper-casing it is not modelled, nor are the reason texts of an entry.
- A classification's approval is not cleared when classification runs again; the model keeps that, and scope safety comes from materialization.
- Collaboration rooms, plan steps and the plans row of a materialization: they are written with the task rows under the same keys.
- The replan port: of the replan artifact only the task and edge reading is modelled, of `ApplyRevision` not the batch validation (a parameter), the diff of repositories, the decision-chain hook and the closing of a superseded task's attempts.
- Between two revisions of a plan the model changes no task status and inserts no task by other ways.
- Scan graph builder and alias registry: the edge list is an input. The two name lists of the refinement are sorted by the library afterwards; the model returns them unsorted.
- Meaning of the generated scripts for bash, git and curl: only argv splitting and the words of the dependency loop are modelled. The dependency section of the prompt is a parameter and is sanitized with the prompt.
- CommandRoundTrip: takes four long stretches of fixed script text (the clone, the body of the dependency loop, the cleanup after the agent, the push) as parameters without a single quote, because only that matters for the splitter; the short pieces are the real ones.
- The `dsh` agent kind: its command template comes from the environment.
- Persisted backoff of the autohost loop: it only delays an issue further, and the bound is for one process. Counter keys are pairs, so issue ids with a colon are not shown to be kept apart.
- Branch validation, per-account start limit as a window bound, frontend, notices, observability.
