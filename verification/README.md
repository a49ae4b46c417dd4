# tempogate, modelled in Dafny

tempogate is an OIDC issuer for Temporal: it signs people in, rotates refresh
tokens, runs the device grant, publishes signing keys, denylists revoked
tokens and throttles logins. This project models the parts whose correctness
depends on interleaving, time or accumulated state, and proves what the
repository's code and documentation promise of them.

`dafny verify dfyconfig.toml` checks everything. Times are integer
microseconds (nanoseconds on the device client's side), except in the rate
limiter, where times and token counts are real numbers.

## How it is organised

- **Refresh-token sessions.** `RefreshSessions` is a machine of atomic store
  calls made by any number of concurrent grants; `RefreshInvariants` is what
  every step keeps; `RefreshTheorems` is what follows for whole runs.
  `RefreshAdmission` keeps a chronicle beside the machine and says which
  refreshes are answered with tokens in any run; `RefreshOutcome` and
  `SignInOutcome` say what one refresh and one redemption get, from their first
  statement to their answer.
  `RefreshTransactions` puts the Postgres statements underneath: READ COMMITTED
  transactions taking row locks one by one, each commit proved to be one atomic
  step; `RefreshCalls` shows that one that finds its locks free runs through,
  and `RefreshDeadlock` that they never wait for each other in a circle.
  `RefreshSweep` plays a schedule with and without its sweeps side by side;
  `RefreshReplay` adds that a replay in time is recognised alike in both;
  `RefreshDeadness` and `RefreshLateSweep` add sweeps that find dead families
  first and delete them later. `RefreshStore` and `SqliteSweep` are the tables
  and both reapers as mutable objects with their loops, the SQLite one with
  others at work between its statements. `TokenFile` is the CLI: any number of
  processes renewing one token file; `TokenRenewal` is when they do.
- **Device grant.** `DeviceCodes` is one device code under polls and decisions,
  with the row-locked poll and the read-then-swap poll; `DevicePacing` is the
  polling interval; `DeviceRace` is polls that arrive together; `DeviceStore`
  is the table and the grant as methods, tied to the machine; `DeviceClient` is
  the CLI's polling loop composed with a server.
- **Signing keys.** `SigningKeys` is the backward scan and the key aggregate;
  `KeyStore` is retirement under ordered row locks, the guarded update and the
  bootstrap lock; `KeyStoreCalls` is what one such call does; `KeyRotation` adds
  the clock, replicas and relying parties.
- **Denylist.** `DenylistCache` is the cache in place; `DenylistStaleness`
  interleaves its lookups, hydrations and revocations; `DenylistLooks` traces
  each answer to a look at the store.
- **Rate limiter.** `RateLimiter` is the limiter in place; `RateLimits` bounds
  what a key can get and `RateExact` shows that it gets all of that; `RateCap`
  and `RateCalm` say when the cap is invisible.
- **Permissions.** `Permissions` is the role lattice against the ORed bitmask;
  `PermissionClaims` is the wire form.

## What turned out not to hold as stated

Each has a lemma with a concrete case and one with the exact condition.

- A sweep of a revoked family can be undone. The row lock does not keep the
  reaper away from a grant that has consumed its token and not yet saved the
  next: the family row is gone, and the save creates a fresh one
  (`SweepRaceIsReachable`). Revocation stays final exactly when no such grant is
  in flight (`ReapKeepsRevocationIff`); the machine's sweeps carry that
  hypothesis.
- The SQLite poll's compare-and-swap compares stamps, so when a stamp comes
  back a poll that judged by an older interval gets through
  (`EqualStampsDefeatTheSwap`). A swap that goes through judged by a stale
  interval exactly when a slow_down was recorded after its read
  (`SwapIsStaleIff`), and the next well-paced poll is sure to have kept the
  stored interval exactly when the last stamp had not been recorded before
  (`NextIsSpacedIff`).
- A publish delay equal to save lag plus reload interval plus fetch interval is
  one instant too short, and so is a grace equal to save lag plus reload
  interval (`ShortDelayFails`, `ShortGraceFails`); both must exceed it
  (`SafeExactlyWhenCovered`).
- A freshly revoked token can be accepted for one TTL plus one lookup, not one
  TTL: the expiry is stamped after the lookup (`WorstCaseHappens`). Those are
  the bounds that hold, exactly (`StalenessIsTtlPlusLatency`).
- Hydrating is not always immediate: a lookup in flight that read the token as
  active overwrites it (`StaleCallOverwrites`). A hydration sticks exactly when
  there is none (`HydrateSticksIff`).
- `ParseClaim` undoes `ToClaim` exactly for non-empty namespaces with one of
  the four roles (`RoundTripIff`); nothing stops a grant from holding others
  (`EmptyNamespaceIsLost`).

One loop is right because of an invariant its file does not mention. The
Postgres family sweep limits a batch by families and goes on as long as it
deletes that many tokens; when that is sure to finish the sweep is
`SweepCompletesIff`. It holds of every reachable store, where each family has a
token (`StoreStaysPopulated`, `PopulatedSweepsComplete`).

## Model

| member | source | states |
|---|---|---|
| `RefreshInvariants.StepKeeps` | oidc/token.go:587-820 | every store call a grant makes, in any interleaving with the others, keeps the session invariant: one owner per family, children tied to the grant that minted them, sign-in inherited, revoked families without live tokens |
| `RefreshInvariants.RunKeeps` | state/doc.go:67-97 | the invariant holds throughout every run |
| `RefreshInvariants.ConsumeKeeps` | state/postgres/refresh.go:94-129 | consuming hands the family from the token to exactly one grant, whatever the policy then decides |
| `RefreshInvariants.SaveKeeps` | state/postgres/refresh.go:35-69 | saving hands the family from the grant to exactly the child it minted, or does nothing if the family is revoked |
| `RefreshInvariants.RevokeKeeps` | state/postgres/refresh.go:131-162 | revoking families leaves none of their tokens live and no grant able to save into them |
| `RefreshInvariants.ReapKeeps` | state/postgres/reaper.go:172-200 | sweeping dead families no grant is saving into keeps the invariant |
| `RefreshTheorems.AtMostOneHolder` | state/postgres/refresh.go:94-129 | a family's live tokens and its grants between consume and save number at most one |
| `RefreshTheorems.CredentialPaysOnce` | oidc/token.go:728-820 | two token responses never come from the same code or refresh token |
| `RefreshTheorems.SessionsAreExclusive` | state/postgres/authcode.go:48-81 | both of these in every state reachable from an empty store |
| `RefreshTheorems.SaveAfterRevocation` | state/postgres/refresh.go:41-69 | a save after its family's revocation stores nothing and answers nothing |
| `RefreshTheorems.OnlySaveSaves` | oidc/token.go:728-807 | a grant comes to hold a stored child only by its own save |
| `RefreshTheorems.AnswersAfterRevocation` | oidc/token.go:604-678 | after a revocation the only token responses still to come for the family belong to grants that had saved before it |
| `RefreshTheorems.RevocationIsFinal` | state/postgres/refresh.go:131-162 | once a revocation has committed no token of the family is ever live again, and no request that starts later gets a token response for the family or for any token ever minted into it |
| `RefreshTheorems.SignInsNeverChange` | oidc/token.go:738-801 | a family's client, identity and sign-in time are fixed at its sign-in |
| `RefreshTheorems.LifetimeIsAbsolute` | oidc/token.go:626-634 | through any number of rotations each token carries its family's sign-in and expires within the maximum lifetime of it, and no refresh at or past that bound was answered |
| `RefreshTheorems.ReapKeepsRevocationIff` | state/postgres/reaper.go:172-200 | reaping a revoked family keeps its revocation final if and only if no grant sits between consume and save on it |
| `RefreshTheorems.SweepRaceIsReachable` | state/postgres/reaper.go:176-178 | a run from the empty store after which a sweep lets a save revive a revoked family |
| `RefreshAdmission.RefreshesAreAdmissible` | oidc/token.go:604-678 | in every run from an empty store, a token response paid for with a refresh token was asked for by the token's own client, not after its expiry, inside the session's lifetime, with a subject, the connector and the domain allowed when it was consumed; and every stored token expires at the earlier of its idle window and its session's end |
| `RefreshAdmission.StepRight` | oidc/token.go:738-801 | every step, in any interleaving, keeps that of all grants, answers and rows |
| `RefreshOutcome.RefreshGetsWhatItDeserves` | oidc/token.go:587-713 | run from start to answer on any reachable state, a refresh gets new tokens, ends its session or gets nothing exactly as the row's fields, the clock, the policy and the permissions say; and what each leaves of the tables |
| `RefreshOutcome.RefusalRevokes` | oidc/token.go:638-658 | a consume of a row in time that connector or domain refuses leaves the request about to revoke that family |
| `RefreshOutcome.RevokingEndsWheneverItRuns` | oidc/token.go:696-713 | whenever that revocation runs, whatever ran in between, it ends the family if its row exists and says so |
| `SignInOutcome.RedemptionGetsWhatItDeserves` | oidc/token.go:434-572 | run from start to answer on any reachable state, a code already redeemed ends the session its first redemption saved; an unspent one, in time, with a subject, presented by its client as bound, for a person granted anything, starts a session of one live token for that identity and sign-in time; any other gets nothing and ends nothing |
| `SignInOutcome.DeviceSignsIn` | oidc/device_token.go:118-128 | an approved device code starts a session of one token in the same way, or none for a person granted nothing |
| `RefreshTransactions.CommitSaveIsSave` | state/postgres/refresh.go:35-92 | a saving transaction's commit is the atomic save, however it was interleaved after locking the family |
| `RefreshTransactions.CommitRevokeIsRevoke` | state/postgres/refresh.go:136-230 | a revoking transaction's commit revokes every token of its families: its snapshot missed none |
| `RefreshTransactions.StepRefines` | state/postgres/refresh.go:35-230 | each lock, statement or commit step is one atomic step of the session machine or changes nothing committed |
| `RefreshTransactions.StepKeepsLocks` | state/postgres/refresh.go:71-92 | the share and update locks on family rows and the locks on token rows keep what the commits rely on |
| `RefreshTransactions.TransactionsAreAtomic` | state/postgres/refresh.go:35-230 | every interleaving of locks, statements and commits is a run of atomic store methods |
| `RefreshTransactions.CommittedRevocationIsFinal` | state/postgres/refresh.go:131-230 | once a revoking transaction commits, no token of its families is live in any later interleaving, and later token answers for them belong to children committed before |
| `RefreshTransactions.InterleavedSessionsAreExclusive` | state/postgres/refresh.go:35-129 | from an empty database, in every interleaving of locks, statements and commits, one holder per family and one token response per code or token |
| `RefreshDeadlock.SomeTransactionCanMove` | state/postgres/refresh.go:178-181 | whatever rotations and revocations over overlapping families hold and wait for, one of them can take its next lock, write or commit |
| `RefreshDeadlock.NoDeadlock` | state/postgres/refresh.go:178-181 | so in every state an empty database can get to |
| `RefreshCalls.SaveAlone` | state/postgres/refresh.go:35-92 | a save whose family nobody is revoking or inserting runs from its first statement to its commit and does to the database exactly what the atomic save does, a refusal included |
| `RefreshCalls.RevokeOwnAlone` | state/postgres/refresh.go:136-162 | so does a grant's revocation of a family nobody else holds a row of, the unknown family included |
| `RefreshCalls.RevokeManyAlone` | state/postgres/refresh.go:178-230 | so does a revocation of any matched set: it locks in order those that exist, stamps every unrevoked token of theirs and commits |
| `RefreshSweep.ReapSim` | state/postgres/reaper.go:172-200 | a sweep of dead families keeps the swept and the unswept store answering alike |
| `RefreshSweep.StepSim` | oidc/token.go:587-820 | every step does the same on both, up to requests that can no longer be answered with tokens |
| `RefreshSweep.SweepsAreUnobservable` | state/postgres/reaper.go:172-200 | from an empty store, any schedule whose sweeps are uncontended and whose clocks do not run behind them yields the same token responses with its sweeps as without |
| `RefreshReplay.StepIsFaithful` | oidc/token.go:604-634 | every step but a sweep keeps each request whose clock is in time standing and answered alike with and without the sweeps |
| `RefreshReplay.SweepIsFaithful` | state/postgres/reaper.go:172-200 | so does a sweep: a row it deletes is past its lifetime, or spent and expired, by every clock that may still ask for it |
| `RefreshReplay.TimelyReplaysAreSeen` | state/sqlite/reaper.go:180-195 | from an empty store, after any orderly schedule, a refresh asked for not after its token's expiry and inside its session's lifetime, that no sweep caught half-way behind its clock, stands and has been answered as without the sweeps: a replayed token is on its way to ending the session in one play exactly when it is in the other |
| `RefreshDeadness.DeadStaysDead` | state/sqlite/reaper.go:187-195 | a family found dead, when nobody holding it could save a row that is not, is dead in every later state, whatever the requests' clocks |
| `RefreshDeadness.RowsOnlyAge` | state/postgres/refresh.go:35-230 | between sweeps a token row is never lost or altered except by a first consumed and a first revoked stamp |
| `RefreshDeadness.StepSettles` | oidc/token.go:604-634 | by clocks not behind the sweep's, no step lets anyone come to hold, or add a row to, a family found dead and unheld |
| `RefreshLateSweep.ChunkIsStillDead` | state/sqlite/reaper.go:222-238 | however long after the scan a chunk is deleted, every family in it is still dead and nobody is between consume and save on it |
| `RefreshLateSweep.LateSweepsAreUnobservable` | state/sqlite/reaper.go:187-239 | from an empty store, with chunks deleted however long after the scan that found them and anything running in between, the same token responses as with no sweep |
| `RefreshStore.Tables.SaveRefresh` | state/postgres/refresh.go:41-69 | refuses a revoked family and a duplicate token, otherwise adds the row and, if need be, the family; nothing else changes |
| `RefreshStore.Tables.ConsumeRefresh` | state/postgres/refresh.go:94-129 | stamps an unconsumed, unrevoked token of that client and no other; tells reuse from not found; the token is not consumable afterwards |
| `RefreshStore.Tables.RevokeRefreshFamily` | state/postgres/refresh.go:136-162 | stamps the family and every token of it not yet revoked, alters nothing else and no earlier stamp, counts the live ones it ended, and errs without change on an unknown family |
| `RefreshStore.Tables.ConsumeAuthCode` | state/postgres/authcode.go:48-81 | redeems a code once, stamping it with the family; a second try gets the first one's family |
| `RefreshStore.SavePromiseIsTheStep` | state/postgres/refresh.go:41-69 | what SaveRefresh promises of the tables determines the session machine's save step |
| `RefreshStore.ConsumePromiseIsTheStep` | state/postgres/refresh.go:100-129 | any tables and answer that meet what ConsumeRefresh promises are the machine's: the tables of its consume step, and the grant ended, held or revoking as the row's expiry, lifetime, subject and the policy say, or as a replay or an unknown token |
| `RefreshStore.RedeemPromiseIsTheStep` | state/postgres/authcode.go:48-81 | the same for ConsumeAuthCode: redeemed once, and a replay turned to revoking the first redemption's family |
| `RefreshStore.RevokedStaysPopulated` | state/postgres/refresh.go:136-162 | a revocation leaves every family with a token, as saving and sweeping do |
| `RefreshStore.StoreStaysPopulated` | state/postgres/refresh.go:41-162 | in every reachable store each token has its family's row and each family a token |
| `RefreshStore.FamiliesDeletedAtMostTokens` | state/postgres/reaper.go:202-219 | with a token in every family a batch deletes at least as many rows as families |
| `RefreshStore.SweepCompletesIff` | state/postgres/reaper.go:202-219 | whichever families the database picks, the batch loop is sure to end with every dead family gone if and only if no full batch of them, short of all, has fewer rows than the limit |
| `RefreshStore.PopulatedSweepsComplete` | state/postgres/reaper.go:202-219 | so it is in every store with a token in each family |
| `RefreshStore.DeadAfterBatch` | state/postgres/reaper.go:179-200 | deleting some families neither kills nor revives another |
| `RefreshStore.Tables.PickDead` | state/postgres/reaper.go:186-196 | a batch takes at most its size of families, none with a row that is within its session's lifetime and unspent or unexpired; if fewer than its size, every family left has such a row |
| `RefreshStore.Tables.DeleteBatches` | state/postgres/reaper.go:202-219 | the loop stops at the first batch that deletes fewer rows than its size; what is left is the tables without all that was picked, and the rows deleted are counted |
| `RefreshStore.Tables.ReapRefreshFamilies` | state/postgres/reaper.go:179-219 | whole families go, none with a row that is within its lifetime and unspent or unexpired, and all else stays as it was; with a token in every family, each family left has such a row; the tokens deleted are counted |
| `RefreshStore.EmptyFamilyStopsTheSweep` | state/postgres/reaper.go:202-219 | in any store, a dead family without tokens beside another dead one can end a loop with batches of one early |
| `SqliteSweep.PageIsNext` | state/sqlite/reaper.go:276-312 | a page from the cursor is the next stretch of rows, none skipped, none twice |
| `SqliteSweep.ScanPage` | state/sqlite/reaper.go:196-217 | after a page the `seen` map says, for exactly the families met so far, whether a row of theirs was not dead when read |
| `SqliteSweep.DeadWhenReadIsDead` | state/sqlite/reaper.go:187-195 | families all of whose rows were dead when read, at different times, are dead when the last page is read |
| `SqliteSweep.Reaper.Scan` | state/sqlite/reaper.go:196-227 | with others stamping and adding rows between pages: no family found has, when the last page is read, a row within its lifetime and unspent or unexpired; and every family without one from the start that gained no row is found |
| `SqliteSweep.Reaper.ReapRefreshFamilies` | state/sqlite/reaper.go:187-239 | with others at work between any two statements: what is found is dead by the end of the scan; afterwards a found family has a row only if one was added since, and every other row is there; undisturbed, exactly the rows of families with a row within its lifetime and unspent or unexpired are left |
| `SqliteSweep.Reaper.DeleteFamilies` | state/sqlite/reaper.go:228-238 | the chunks together delete exactly the given families' rows, save those others add meanwhile, and the count balances |
| `TokenFile.StepKeeps` | cli/refresh.go:91-154 | every step of every process, the server's handling and a concurrent login keep the lock and presentation invariant |
| `TokenFile.InitInv` | cli/refresh.go:91-97 | that invariant holds before the first login, with no file and no process |
| `TokenFile.ReuseNeedsTrouble` | cli/refresh.go:58-154 | however many processes share the file, a refresh token is presented twice only if an earlier presentation was refused, lost its answer, could not be saved or brought no new token; so the server detects reuse only then |
| `TokenRenewal.PresentedOnlyWhenDue` | cli/refresh.go:105-130 | in every interleaving from before the first login, each presentation is of the refresh token then in the file, with at most five minutes left by the presenter's clock |
| `TokenRenewal.ReadsDecide` | cli/refresh.go:91-123 | the first read goes on to the lock exactly for a file that is due, and the second presents exactly one that is still due and names a refresh token and a client |
| `TokenRenewal.HandleDecides` | oidc/token.go:604-634 | the server's side: a presented token that was consumed is recorded as reuse and changes nothing else; a live one is answered and replaced, answered and kept, or refused and consumed |
| `TokenRenewal.DueIsRenewed` | cli/refresh.go:91-154 | a call nobody interrupts, on a due file and a live token, presents it once, leaves the new refresh token in the file, or the old if the answer has none, and frees the lock |
| `TokenRenewal.FreshIsReturned` | cli/refresh.go:91-97 | a call on a file that is not due changes nothing |
| `DeviceCodes.StepKeeps` | oidc/device_token.go:55-121 | polls, decisions and consumes of either store keep: one decision before expiry, no row once minted, grants holding only what the row truthfully said |
| `DeviceCodes.MintsOnceAsApproved` | state/sqlite/device_codes.go:183-292 | over any run a code is decided at most once and never both ways, and mints at most once, at a poll not after expiry, after an approval committed before expiry, with exactly the approved identity |
| `DevicePacing.RunKeepsBooks` | state/sqlite/device_codes.go:123-181 | by any clocks, in every interleaving of both poll implementations, row, history and the polls that have read agree on stamps and intervals |
| `DevicePacing.SwapIsStaleIff` | state/sqlite/device_codes.go:147-165 | in every reachable state, a poll whose swap would go through judged by an interval no longer stored if and only if a slow_down was recorded after its read, and the stamp it read is then the last one again |
| `DevicePacing.DistinctStampsSpace` | state/sqlite/device_codes.go:123-181 | if no recorded stamp repeats, in whatever order, every well-paced poll is the stored interval after the poll recorded before it |
| `DevicePacing.NextIsSpacedIff` | state/sqlite/device_codes.go:123-181 | for any stamps recorded so far, the next poll found well paced is sure to have kept the stored interval if and only if the last stamp is a new one |
| `DevicePacing.WellPacedPollsAreApart` | state/postgres/device_codes.go:88-130 | a well-paced poll is at least the stored interval after every earlier one, and the stored interval is the issued one plus five per slow_down |
| `DevicePacing.UninterruptedSwapIsLockedPoll` | state/sqlite/device_codes.go:131-181 | an uninterrupted read-then-swap poll leaves exactly what the row-locked poll leaves |
| `DeviceRace.OneOfARaceIsWellPaced` | state/doc.go:83-85 | of any number of concurrent polls of a code not polled within its interval (all past their read of it, or with clock readings within the interval of each other), row-locked or compare-and-swap, with tied or disordered clocks and however interleaved, exactly the first recorded is well paced and each other is slow_down and adds five |
| `DevicePacing.EqualStampsDefeatTheSwap` | state/sqlite/device_codes.go:147-165 | a run in which equal stamps let a poll through sooner than the stored interval |
| `DeviceStore.Devices.PollDeviceCode` | state/postgres/device_codes.go:93-130 | stamps the poll, says slow exactly if the interval has not passed since the last, and lengthens it by five seconds then and only then |
| `DeviceStore.Devices.DecideDeviceCode` | state/postgres/device_codes.go:132-168 | decides exactly a pending unexpired code, once, and changes no other row |
| `DeviceStore.DecisionIsTheMachine` | state/postgres/device_codes.go:132-168 | the machine's decision stamps exactly a pending unexpired row, approved for whom it was approved, and records it |
| `DeviceStore.CheckThenApplyDecides` | state/sqlite/device_codes.go:189-250 | the SQLite store's check and then update, uninterrupted, come to the same |
| `DeviceStore.Devices.ConsumeDeviceCode` | state/postgres/device_codes.go:170-188 | returns and deletes the row |
| `DeviceStore.Devices.DeviceCodeGrant` | oidc/device_token.go:34-129 | each outcome, exactly when the row's fields, the clock and the permissions call for it: too fast, expired, denied, undecided, no subject, not permitted, or issued for the identity approved; and what each leaves of the row |
| `DeviceStore.GrantIsTheMachine` | oidc/device_token.go:55-129 | whatever outcome meets that, the machine's lookup, poll of either store, answer and claim, run without interruption, mint exactly if it is an issue, that identity at that time, and leave or delete the row alike |
| `DeviceClient.ReactKeepsSteady` | cli/device.go:376-416 | pending, slow_down and transient answers keep interval ≤ backoff ≤ 4 × interval, never shorten the interval, and sleep at least the interval |
| `DeviceClient.IntervalIs` | cli/device.go:398-401 | after any answers the interval is the first one plus five seconds per slow_down |
| `DeviceClient.BackoffIs` | cli/device.go:402-407 | the backoff is that interval, doubled once per failure in a row and at most twice |
| `DeviceClient.SleepIs` | cli/device.go:395-412 | it sleeps the new interval, after the n-th failure in a row once, twice or four times that |
| `DeviceClient.TripsAreSpaced` | cli/device.go:358-416 | the k-th poll is sent at least k minimum sleeps after the start |
| `DeviceClient.PollLoop` | cli/device.go:358-416 | stops at the first token, fatal answer or cancellation, or before the first poll past the deadline, so it polls at most deadline / minSleep + 1 times; its interval and backoff are those of the slow_downs and the failures in a row so far |
| `DeviceClient.TruncationKeepsGaps` | state/postgres/device_codes.go:93-130 | a gap of whole seconds between instants survives truncation to microseconds |
| `DeviceClient.NeverSlowedDown` | cli/device.go:358-416 | a lone client that starts from the advertised interval is never answered slow_down, lost answers included, and the stored interval never moves |
| `SigningKeys.SortByCreatedAt` | keys/keys.go:158-165 | the sorted list is a permutation in strict creation-and-kid order |
| `SigningKeys.SortedIsUnique` | keys/keys.go:158-165 | that order determines the list |
| `SigningKeys.SignerIsUnique` | keys/publish.go:50-69 | at most one key satisfies the signing rule |
| `SigningKeys.OthersSorted` | keys/retire.go:141-146 | the keys without kid keep their order, so the scan over them finds the key that signs next |
| `SigningKeys.Scan` | keys/publish.go:54-69 | the backward scan returns the newest active key past its delay, else the oldest active one, and none only if none is active |
| `SigningKeys.ChoiceOnlyMovesLater` | keys/publish.go:50-69 | on a fixed set the choice only moves to later keys as time passes |
| `SigningKeys.NewKeyWaits` | keys/publish.go:36-48 | adding a newest key to a set with an active one changes nothing until its delay has passed |
| `SigningKeys.ActivatesAtIsExact` | keys/publish.go:77-109 | before the moment reported an earlier key signs, at it this key or one with the same stamp, and never an earlier one again |
| `SigningKeys.Statuses` | keys/publish.go:91-109 | exactly the signer is marked signing, and a moment is reported exactly for active keys that are inside their delay and not signing |
| `SigningKeys.Keys.Latest` | keys/keys.go:86-98 | returns the key the rule names for the cached set |
| `SigningKeys.Keys.Generate` | keys/keys.go:103-144 | adds one key only if forced or none is stored, and caches the new set |
| `SigningKeys.Keys.CheckReplacementPublished` | keys/retire.go:128-155 | refuses exactly if kid is the signer and the signer of the others, which it names, is still inside its delay; if it does not refuse and a signer past its delay existed, one past its delay is left among the others |
| `SigningKeys.Keys.Retire` | keys/retire.go:94-126 | refuses exactly an unforced retirement of a signer whose named successor is inside its delay, then a kid not stored, then the only active key; otherwise stamps kid if it was active and nothing else; unforced, a set with a signer past its delay still has one |
| `SigningKeys.Keys.RetireKeypair` | state/sqlite/keypair.go:87-123 | the guarded update and the read after it: not found, last active or retired exactly as the table says, kid stamped only in the last case and only if it was active |
| `SigningKeys.RetireLeavesMature` | keys/retire.go:101-155 | the store update after a passed check leaves a signer past its delay |
| `SigningKeys.RetireLeavesActive` | state/sqlite/keypair.go:87-123 | the store update never retires the last active key |
| `KeyStore.TwoHeldLeaveOne` | state/postgres/keypair.go:89-132 | a retirement that holds two active rows leaves one active at commit, whatever ran beside it |
| `KeyStore.GuardedKeeps` | state/sqlite/keypair.go:87-123 | the guarded update leaves an active key if there was one |
| `KeyStore.StepKeeps` | state/postgres/keypair.go:89-155 | saves, retirements of either kind, boots and reloads keep the lock invariant and an active key |
| `KeyStore.AlwaysAKeyToSignWith` | keys/keys.go:86-98 | in every interleaving an active key remains once there is one, and every booted replica's cache has one to sign with |
| `KeyStore.SomeRetirementCanMove` | state/postgres/keypair.go:95-118 | locking rows in kid order, retirements in progress never deadlock |
| `KeyStore.BootTogetherOneKey` | keys/init.go:22-53 | replicas booting together on an empty store under the bootstrap lock create one key and all cache exactly it, even if some die half-way |
| `KeyStore.EmptyStoreBoots` | keys/init.go:22-53 | an empty store with nothing booting is where these invariants start |
| `KeyStoreCalls.GuardedRetiresIff` | state/sqlite/keypair.go:95-100 | the guarded update stamps exactly an active key with another active beside it |
| `KeyStoreCalls.CommitRetiresIff` | state/postgres/keypair.go:111-119 | a retirement's commit stamps exactly a kid it holds beside another key |
| `KeyStoreCalls.AloneIsTheGuardedUpdate` | state/postgres/keypair.go:89-132 | with no other holding an active row, the transaction runs to its commit and does to the table what the guarded update does |
| `KeyStoreCalls.BootAlone` | keys/init.go:32-53 | a boot nobody interrupts generates a key only if none is active, caches the table with it and frees the lock |
| `KeyRotation.ScanSignsWith` | keys/publish.go:54-69 | the scan over a sorted cache picks the key the rotation model says the replica signs with |
| `KeyRotation.StepKeeps` | keys/retire.go:38-68 | saves, retirements, reloads and fetches keep what caches and held key sets are known to contain |
| `KeyRotation.CoveredIsAccepted` | keys/publish.go:36-48 | under the two strict bounds every relying party holds whatever key any replica signs with past its delay |
| `KeyRotation.ShortDelayFails` | keys/publish.go:10-14 | for every shorter delay, a run, of replicas that all have a key to sign with, in which a relying party lacks the signing key |
| `KeyRotation.ShortGraceFails` | keys/retire.go:38-52 | for every shorter grace, the same |
| `KeyRotation.SafeExactlyWhenCovered` | config/cfg.go:112-127 | the configurations safe in every run are exactly those with delay > save lag + reload + fetch and grace > save lag + reload |
| `DenylistCache.Cache.Probe` | keys/denylist_cache.go:110-116 | answers exactly if there is an entry that has not expired, and then what it says |
| `DenylistCache.Cache.EvictOne` | keys/denylist_cache.go:163-178 | drops exactly one entry, a revoked one only if no active one is left, the empty key included |
| `DenylistCache.Cache.Sweep` | keys/denylist_cache.go:149-154 | leaves exactly the unexpired entries |
| `DenylistCache.Cache.Store` | keys/denylist_cache.go:143-161 | the map never exceeds its cap, the answer is stored, other entries are dropped but never altered, and which may be dropped |
| `DenylistCache.Cache.Hydrate` | keys/denylist_cache.go:131-141 | stores a revocation, except for the empty key |
| `DenylistStaleness.StepKeeps` | keys/denylist_cache.go:107-161 | lookups, hydrations, revocations and deletions in any interleaving keep every entry, call and answer as fresh as the bound says |
| `DenylistStaleness.StalenessIsTtlPlusLatency` | keys/denylist_cache.go:11-18 | the bounds on accepting a revoked token that hold in every run are exactly those of at least one TTL plus one lookup |
| `DenylistStaleness.RevokedAnswersAreTrue` | keys/denylist_cache.go:107-129 | a "revoked" answer was once true in the store |
| `DenylistLooks.AnswersRepeatALook` | keys/denylist_cache.go:107-129 | in every run each answer, either way, is what the store said of that token at an earlier moment, or a hydration did, and an "active" one is younger than a TTL plus a lookup |
| `DenylistLooks.ProbeAnswers` | keys/denylist_cache.go:110-116 | an unexpired entry is the answer and the store is not asked; otherwise it is |
| `DenylistLooks.MissAsksTheStore` | keys/denylist_cache.go:118-128 | a miss nobody interrupts answers what the store says and stores it for a TTL |
| `DenylistLooks.HydrationStores` | keys/denylist_cache.go:131-161 | a hydration nobody interrupts stores the revocation for a TTL and answers nobody |
| `DenylistStaleness.StaleCallOverwrites` | keys/denylist_cache.go:122-128 | a lookup that read "active" overwrites a hydrated revocation, and the next caller is answered from it |
| `DenylistStaleness.HydrateSticksIff` | keys/denylist_cache.go:131-141 | a hydrated token is rejected ever after, while on the denylist, if and only if no such lookup is in flight |
| `RateLimiter.TouchedOk` | ratelimit/ratelimit.go:121-142 | list and map hold the same keys, at most the cap, with no bucket over- or underfull |
| `RateLimiter.Limiter.Evict` | ratelimit/ratelimit.go:134-138 | the loop keeps exactly the most recently used keys that leave room for one |
| `RateLimiter.Limiter.Touch` | ratelimit/ratelimit.go:123-142 | the bucket holds what it held plus the elapsed time's tokens up to the burst, or is new and full, and is in front; only the back of the list is dropped |
| `RateLimiter.Limiter.Allow` | ratelimit/ratelimit.go:87-97 | spends a token exactly if the refilled bucket holds one |
| `RateLimiter.Limiter.GiveBack` | ratelimit/ratelimit.go:99-112 | adds one up to the burst, and nothing for an untracked key |
| `RateLimits.AttemptsAreBounded` | ratelimit/ratelimit.go:88-132 | over any stretch from any state a key's allowed attempts are at most a burst plus its refills and refunds, plus a burst per eviction of it |
| `RateLimits.RefillsAreElapsed` | ratelimit/ratelimit.go:121-132 | with a clock that does not run backwards those refills are the rate times the time from its first to its last use |
| `RateLimits.AttemptsWithinBurstAndRate` | ratelimit/ratelimit.go:88-132 | over any stretch in which a key is not evicted, its allowed attempts are at most burst + rate × (time from first to last use) + refunds |
| `RateExact.RefillComposes` | ratelimit/ratelimit.go:127-131 | refilling at one moment and then at a later one is refilling once |
| `RateExact.KeepsAccount` | ratelimit/ratelimit.go:88-142 | over any history a key's tokens go up by what each event brings, capped at the burst, and down by the attempts allowed |
| `RateExact.RefusedExactlyWhenSpent` | ratelimit/ratelimit.go:88-132 | an attempt is refused if and only if, since the start or since some earlier event at which the bucket were full, the attempts allowed leave less than one of that, the refills and the refunds since |
| `RateExact.OverdrawnByTheClock` | ratelimit/ratelimit.go:121-132 | by a clock that does not run backwards, since a use at t that is: the attempts allowed from then on, with this one, exceed burst + rate × (now - t) + refunds |
| `RateCap.StepSim` | ratelimit/ratelimit.go:88-142 | a call that evicts only full buckets answers as the uncapped limiter does and keeps the two indistinguishable |
| `RateCap.EvictingFullLosesNothing` | ratelimit/ratelimit.go:21-25 | if every evicted bucket had refilled, the capped limiter gives the uncapped one's answers on the whole sequence, refunds to evicted keys included |
| `RateCalm.CapTraced` | ratelimit/ratelimit.go:32-41 | the list is in order of last use |
| `RateCalm.CalmTrafficNeverSeesTheCap` | ratelimit/ratelimit.go:21-25 | if no refill window sees more distinct keys than the cap, the cap changes no answer |
| `RateCalm.UnnoticedIffFull` | ratelimit/ratelimit.go:21-25 | dropping a bucket can go unnoticed by every later sequence of calls if and only if, refilled, it is full |
| `Permissions.BuiltIs` | perms/perms.go:175-185 | a grant names exactly the namespaces given, each at the first of its highest roles |
| `Permissions.OrderDoesNotMatter` | perms/perms.go:36-47 | for the four roles neither order nor repetition of entries matters |
| `Permissions.GrantDecidesAsMask` | perms/perms.go:90-100 | comparing the ORed bits of target and system namespace with the required bit decides as the one-role-per-namespace grant does |
| `Permissions.ReadingsAgree` | perms/perms.go:36-47 | with one entry per namespace, ORing and overriding repeated entries mean the same |
| `Permissions.MergeGrantsWhatAnyGrants` | perms/perms.go:187-201 | a merge grants exactly what one of its parts grants |
| `Permissions.MergedIs` | perms/perms.go:187-201 | a merge names what any part names, each at the highest role a part gives it |
| `Permissions.MergeIsConcatenation` | perms/perms.go:187-201 | merging grants is building one from everything that went into them |
| `Permissions.MergeInAnyOrder` | perms/perms.go:187-201 | for the four roles the parts may be merged in any order and repeated |
| `Permissions.Merge` | perms/perms.go:190-201 | the nested loops compute that merge in whatever order maps are walked, skipping nil grants |
| `PermissionClaims.Namespaces` | perms/perms.go:228-241 | lists exactly the grant's pairs in strict lexicographic order |
| `PermissionClaims.LessIs` | perms/perms.go:228-241 | that order is the lexicographic one: at the first place two namespaces differ the smaller ends or has the smaller character |
| `PermissionClaims.ListingIsUnique` | perms/perms.go:243-248 | a grant has one listing, so its claim is deterministic |
| `PermissionClaims.ListingMeansGrant` | perms/perms.go:36-47 | the authorizer decides from a grant's listing as from the grant, under either reading of repeated entries |
| `PermissionClaims.ToClaim` | perms/perms.go:249-256 | renders that listing entry by entry |
| `PermissionClaims.ParseRendered` | perms/perms.go:258-283 | a rendered entry with a real role parses back, colons in the namespace included; an empty namespace is reported |
| `PermissionClaims.ParseClaim` | perms/perms.go:265-283 | the loop with its early exits computes the specification the lemmas are about |
| `PermissionClaims.FirstErrorIsNamed` | perms/perms.go:265-283 | a claim whose first text that says no entry has no colon, nothing before its only colon, or no role after its last, fails there with that error |
| `PermissionClaims.ParsesExactlyWhenSpelt` | perms/perms.go:265-283 | a claim parses if and only if each text is a non-empty namespace, a colon and one of the four role names, and then into the grant built from those |
| `PermissionClaims.ParsedMeansClaim` | perms/perms.go:258-264 | what a parsed claim grants is what the ORed bits of the entries its texts say decide, duplicates included |
| `PermissionClaims.RoundTripIff` | perms/perms.go:258-283 | parsing a grant's claim gives the grant back if and only if its namespaces are non-empty and its roles real |
| `PermissionClaims.EmptyNamespaceIsLost` | perms/perms.go:265-283 | a grant on the empty namespace renders to a claim that does not parse |

## Left out

- HTTP handlers, pages, cookies, redirects, configuration and wiring.
- Cryptography, JWTs, PEM and random generation: tokens, codes and kids are opaque fresh values, identities opaque records.
- SQL text and drivers: only atomic effects, row locks and READ COMMITTED visibility are modelled; transactions that fail half-way are rolled back and so leave no trace.
- The SQLite refresh store: sessions are modelled on the Postgres one, and of SQLite only the family sweep.
- Clock readings, the policy checks on a refresh (allowed domain, permissions), PKCE and the redirect check are parameters of the steps that use them.
- Sweeps of expiring tables other than refresh families and codes, and of the denylist table: easy members beside the family sweep.
- The token-file lock's polling loop and its timeout: modelled as one acquiring step; platforms without file locks are not modelled.
- The change feed (`Follow`): a revocation it reports is a hydration, which the denylist machine allows at any time.
- A denylist cache without a checker, which answers "not revoked" to everything.
- The fallback signer used when no key is past its delay: the repository promises relying parties nothing about it, and neither does the rotation theorem.
- Floating-point rounding in the rate limiter: tokens and times are real numbers.
- `ClientKey`, `Grantable` and `ParseConfig`: address parsing and one-branch checks.
- RefreshLateSweep.LateSweepsAreUnobservable: supposes, as RefreshSweep.SweepsAreUnobservable does, that no grant is between consume and save on a family when it is found and that requests' clocks do not run behind the sweep's; RefreshTheorems.ReapKeepsRevocationIff is what happens otherwise.
- RefreshReplay.TimelyReplaysAreSeen: supposes the same of the schedule, and leaves out a request that a sweep overtakes between its consume and its lookup or revocation with a later clock than the request's: such a replay finds the family gone and ends nothing.
- RateCap.EvictingFullLosesNothing: supposes a clock that does not run backwards, as Go's monotonic clock does not; RateLimits.AttemptsAreBounded does not need that.
