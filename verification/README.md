# PureConnect, verified

PureConnect lets members of a community forum register OAuth clients. It keeps three things in agreement
without a transaction across them: a local application record, an outbox of provisioning work, and a client on
a remote Hydra authorization server. Around that protocol it keeps time-limited stores (sessions, replay
windows, one-shot sign-on nonces, a progress cache), an index of users, and the path of scopes from an
authorization request to the claims a token yields. This project models those parts in Dafny 4.11 and proves
what they are for.

## How the model is laid out

**The provisioning protocol.** `Domain` holds the records, `Repositories` and `Hydra` the stores as classes
whose maps are updated in place, and `Services` the three services that work on them. `Protocol` states each
public call as a function from the old state, one clock reading, the outside answers and the set of dependency
calls that fail to the new state and reply; every service method is proved equal to its function. `Effects` says
of each function, field by field, when it goes through, what it writes, and that a refused call writes nothing;
`Records` who can change what in a record over whole runs.
`Lifecycle` turns the calls into one state machine in which every step may fail at any of eighteen places.
`Invariant` states what holds in every reachable state and the three agreements of an application: its client
is live, client and record have one content, and its work is queued while it is provisioning. `Steps` gives
what a step can do to each record, event, client and cached credential, `Runs` what holds in all runs,
`Tearing` which steps break which agreement, and the theorems over whole runs follow: `Agreement` (clients,
contents, work), `Drain` (delivery to the end), `Delivery` (the outbox), `Governance` (review and the limit on
open applications). `Failures` holds a concrete run for each way an agreement fails.

*Torn steps.* Inside a worker pass the agreements survive whatever fails. Elsewhere a call that has already
changed the remote server, or entered Provisioning, and then fails to write the other side leaves the two
apart. `Tearing` names these cases, application by application, by what a caller could see before the call and
which dependency fails: client tears (Revoke, Delete), content tears (UpdateDraft, RotateSecret) and work tears
(CreateDraft, Submit, Approve). One equivalence per agreement says that a step breaks it for an application
exactly if it is that kind of tear of that application, so a tear of one application costs no other anything
and a tear of one kind leaves the other agreements standing.

**Time-dependent stores.** `Sessions`, `Replay`, `Sso` and `ProgressCache` each hold the source's classes, the
step function they implement, and a closed form over the history of calls that the answers are proved equal to.

**Identity and scopes.** `Users` is the two-map index and its three writers, `LevelProgress` the contract
between the Ruby serializer and the Go validator, `Scopes` filtering and comparison, `Consents` consent
decisions and the claims of a token.

## Where the code does less than one would expect

Each of these is proved, with the exact condition under which the property does hold.

- A failing `Save`, `Enqueue`, `Transition`, audit or encryption call outside the worker can leave record and
  client apart (`Tearing.ClientStep`, `Tearing.StrandedStep`; runs in `Failures.WorkTear`, `Failures.ClientTear`
  and `Failures.ContentTear`). A lost client and lost work stay lost while the record stays as it is; contents
  stay apart exactly until the next write of the client that is no tear (`Agreement.ApprovedMatches`).
- "Provisioning if and only if exactly one uncompleted event" fails after an approval whose `Complete` call
  fails (`Drain.BalanceStep`, `Failures.LeavesOver`), until the event is delivered again
  (`Drain.ProvisioningIffOneEvent`, `Drain.RedeliverySettles`).
- Draining is impossible when an application was deleted while its event was still uncompleted, or when the
  remote server returned incomplete credentials, which stay cached (`Drain.DrainsExactly`, `Failures.StuckRun`,
  `Failures.IncompleteGrant`).
- A rotation sends no token strategy or lifespans, so the client lacks them exactly while its last write was a
  rotation (`Agreement.ContentsExactly`).
- With review on, an approval whose `Save` fails leaves an application provisioning with the reviewer and note
  of whatever decision came before, or none (`Governance.ReviewTrail`, `Governance.MisattributedReview`).
- With review on, resubmitting or editing a rejected application passes the limit on open applications
  (`Governance.LimitPassedExactly`, `Governance.LimitPassedWithReview`).
- The in-process nonce store accepts a replay at the closing instant (`Replay.MemoryReplayExactly`); the Redis
  store does when a call waits for the server past the eviction of the nonce, which no call served within the
  request's window does (`Replay.RedisReplayExactly`, `Replay.AcceptedOnce`).
- A stored consent is not an accepted one when the authorization server refuses and the rollback fails too
  (`Consents.ConsentsBacked`, `Consents.StrandedConsent`).
- `Upsert` alone does not keep the two user maps inverse (`Users.UpsertKeepsExactly`).

## Model

| member | source | states |
|---|---|---|
| Domain.AssociatedDataInjective | internal/apps/service.go:543-545 | the associated data of a sealed secret determines application and client, as drawn identifiers hold no colon |
| Domain.ProvisionKeyInjective | internal/apps/service.go:266-277 | idempotency keys of distinct applications are distinct texts |
| Domain.OpensByText | internal/apps/service.go:543-545 | opening a sealed secret by its associated text is opening it by application and client: no other pair fits |
| Domain.LeadsTrans | internal/domain/application.go:58-73 | paths of valid transitions compose |
| Domain.LifecycleEdges | internal/domain/application.go:58-82 | the ten edges of the lifecycle and the four open statuses, by name |
| Common.SpacePoints | internal/oauth/login.go:91-97 | what counts as white space, by code point |
| Common.BlankMeaning | internal/domain/application.go:109-126 | a text counts as blank exactly if it holds nothing but white space |
| Common.DecimalValue | internal/identity/discourseconnect.go:119-122 | a number's rendering is its digits, behind a minus sign if it is negative |
| Repositories.ApplicationRepository.Create | internal/store/memory/memory.go:22-40 | refuses a taken identifier and changes nothing; otherwise stores exactly the record with missing dates filled in |
| Repositories.ApplicationRepository.GetByClientID | internal/store/memory/memory.go:52-61 | finds a record with that client, and reports not-found exactly when there is none |
| Repositories.ApplicationRepository.CountOpenByOwner | internal/store/memory/memory.go:89-99 | the loop counts exactly the owner's open applications |
| Repositories.ApplicationRepository.Transition | internal/store/memory/memory.go:101-116 | moves the one record when it has the expected status and the edge is valid, else changes nothing and says why |
| Repositories.OutboxRepository.Enqueue | internal/store/memory/memory.go:225-244 | refuses a taken idempotency key; otherwise adds event and index entry together |
| Repositories.OutboxRepository.ClaimNext | internal/store/memory/memory.go:246-268 | claims one eligible event and touches no other; reports not-found exactly when none is eligible |
| Repositories.EligibleExactly | internal/store/memory/memory.go:246-268 | an event can be claimed exactly when due, not completed, and not held for less than ten minutes |
| Repositories.OutboxRepository.Complete | internal/store/memory/memory.go:270-281 | marks exactly that event completed |
| Repositories.OutboxRepository.Retry | internal/store/memory/memory.go:283-294 | releases exactly that event until the given instant |
| Hydra.Server.UpdateClient | internal/hydra/client.go:5-17 | replaces registration and secret of an existing client only |
| Protocol.GetOwned | internal/apps/service.go:428-440 | answers with the record exactly when it is stored and owned by the caller |
| Protocol.SyncApprovedClient | internal/apps/service.go:175-202 | touches nothing but the live client's content, never which clients exist |
| Protocol.PrepareReview | internal/reviews/service.go:117-141 | passes only a pending application, a named reviewer and a note; an owner reviewing his own only as admin |
| Effects.CreateDraftExactly | internal/apps/service.go:82-125 | when a draft is created and by whom, the record with every field, its audit record, and that a refused call writes nothing |
| Effects.StartExactly | internal/apps/service.go:246-277 | starting a draft leaves it provisioning with its event due at once and one audit record, or rolled back |
| Effects.UpdateDraftExactly | internal/apps/service.go:127-202 | when an edit goes through, the record and the registration it sends field by field, and what a failure leaves |
| Effects.SubmitExactly | internal/apps/service.go:213-244 | when a submission goes through, the reopened, queued or started record, and what a failure leaves |
| Effects.ViewSecretExactly | internal/apps/service.go:290-312 | the secret is shown exactly to the owner of an approved record who confirmed at most the window ago, and is the sealed one |
| Effects.RotateSecretExactly | internal/apps/service.go:314-360 | under the same confirmation, the registration sent, the sealed secret stored, and what a failure leaves |
| Effects.RevokeExactly | internal/apps/service.go:362-380 | the client goes first, then the status, by the owner only |
| Effects.DeleteExactly | internal/apps/service.go:382-412 | client, audit record and record go in this order, by the owner only, never while provisioning |
| Effects.PrepareReviewExactly | internal/reviews/service.go:117-162 | a review passes exactly for a reviewer or administrator, with a note, of a pending application, his own only as administrator; and exactly when each refusal is given |
| Effects.ApproveExactly | internal/reviews/service.go:62-89 | an approval's record, event and audit record field by field, and what each failure leaves |
| Effects.DecideExactly | internal/reviews/service.go:91-115 | a rejection's or change request's record and audit record, and what each failure leaves |
| Effects.RunOnceExactly | internal/apps/provisioner.go:55-137 | a pass's records, client, cached credentials, event, audit record and answer field by field; approval changes client, secret, version and status only |
| Effects.OtherPass | internal/apps/provisioner.go:61-72 | a pass without an event does nothing, one with an event of another kind completes it |
| Records.DescriptionStep | internal/apps/service.go:127-166 | in every reachable state a record's name, description, logo, addresses, domains and PKCE flag change only as an edit saved by its owner |
| Records.DescriptionKept | internal/apps/service.go:127-166 | in every run they stay until the owner's next saved edit |
| Records.BornAsDescribed | internal/apps/service.go:82-125 | a record that appears is the draft its owner described, possibly already provisioning |
| Services.Service.CreateDraft | internal/apps/service.go:82-125 | new stores and reply as `Protocol.CreateDraft` states, a failure of each dependency call included, the two audit writes apart |
| Services.Service.StartProvisioning | internal/apps/service.go:246-264 | transition, enqueue and the rollback of a failed enqueue as `Protocol.StartProvisioning` states |
| Services.Service.UpdateDraft | internal/apps/service.go:127-166 | remote client first, then the record, as `Protocol.UpdateDraft` states |
| Services.Service.SyncApprovedClient | internal/apps/service.go:175-202 | sends the edited registration with the unsealed secret and checks the echo |
| Services.Service.Submit | internal/apps/service.go:213-244 | reopening, review queue or direct provisioning as `Protocol.Submit` states |
| Services.Service.ViewSecret | internal/apps/service.go:290-312 | shows the secret only to the confirmed owner of an approved application |
| Services.Service.RotateSecret | internal/apps/service.go:314-360 | remote secret first, then sealing and record, as `Protocol.RotateSecret` states |
| Services.Service.Revoke | internal/apps/service.go:362-380 | removes the client, then transitions, as `Protocol.Revoke` states |
| Services.Service.Delete | internal/apps/service.go:382-412 | client, audit and record in that order, refusing a provisioning application |
| Services.ReviewService.PrepareReview | internal/reviews/service.go:117-162 | the refusals of a review in the source's order |
| Services.ReviewService.Approve | internal/reviews/service.go:62-89 | transition, save, enqueue and audit as `Protocol.Approve` states |
| Services.ReviewService.Decide | internal/reviews/service.go:91-115 | rejection and change request as `Protocol.Decide` states |
| Services.Provisioner.RunOnce | internal/apps/provisioner.go:55-130 | a worker pass over stores and credentials cache as `Protocol.RunOnce` states, every early exit included |
| Services.Provisioner.Conclude | internal/apps/provisioner.go:97-130 | the pass once credentials are known: seal, save, complete, audit |
| Services.Provisioner.GiveBack | internal/apps/provisioner.go:132-137 | the event is due again after the retry delay, or stays claimed when that write fails |
| Tearing.StepKeeps | internal/apps/service.go:82-412 | every call keeps the whole invariant if and only if it is torn on no application |
| Tearing.ClientStep | internal/apps/service.go:127-412 | in every reachable state a step takes an application's client away exactly if it is a client tear of it; a step that writes the client, or finds it alike, leaves client and record alike exactly if it is no content tear of it |
| Tearing.QuietStep | internal/apps/service.go:82-412 | while an application stays approved, a step that neither writes nor loses its client changes nothing about either |
| Tearing.StrandedStep | internal/apps/service.go:246-277 | in every reachable state an application is provisioning without an event after a step exactly if it was before or the step is a work tear of it |
| Tearing.OpView | internal/apps/service.go:82-412 | a call on one application leaves record, credentials and client of every other as they are |
| Tearing.MissingStays | internal/apps/service.go:362-412 | a lost client is missed exactly as long as the record stays approved |
| Tearing.ResendMends | internal/apps/service.go:127-202 | an edit or rotation that goes through mends what a content tear left, whatever the state before |
| Tearing.RunOnceKeeps | internal/apps/provisioner.go:55-130 | a worker pass keeps the invariant under any mix of remote, encryption, save, complete, retry and audit failures |
| Tearing.PassKeeps | internal/apps/provisioner.go:73-119 | in every reachable state a pass keeps the client and content agreements of the application it works on |
| Tearing.StartKeeps | internal/apps/service.go:246-277 | starting a draft leaves it provisioning without an event exactly when enqueue and rollback both fail |
| Tearing.UpdateDraftKeeps | internal/apps/service.go:127-202 | from any reachable state, an edit that reaches the client leaves content alike unless the client took a different registration and the record was not saved, the stored secret live and the standard token policy; any other changes nothing |
| Tearing.RotateSecretKeeps | internal/apps/service.go:314-360 | a rotation that reaches the client leaves both alike unless the client took a different secret that was not stored, and no token policy |
| Tearing.RevokeKeeps | internal/apps/service.go:362-380 | a revocation leaves no approved record without client unless the transition after the deletion fails |
| Tearing.DeleteKeeps | internal/apps/service.go:382-412 | a deletion does not unless the audit or the removal after the deletion of the client fails |
| Tearing.ApproveKeeps | internal/reviews/service.go:62-89 | an approval leaves the application provisioning without an event exactly when the save or the enqueue fails |
| Steps.AppStep | internal/apps/service.go:82-412 | what one step, torn or not, can do to one record: its moves, credentials, version, review fields, birth and end |
| Steps.EventStep | internal/store/memory/memory.go:225-294 | what one step can do to one event: enqueued fresh, claimed, completed, given back or untouched |
| Steps.CacheStep | internal/apps/provisioner.go:73-119 | a step adds a cached credential only by creating a client and drops it only with the approval or a settled record |
| Steps.PassShape | internal/apps/provisioner.go:55-130 | records, clients, cache and outbox after a worker pass in closed form |
| Steps.OpTouches | internal/apps/service.go:82-412 | any other call writes one record and at most that application's own client, creates none, and gives up an approved status only with the client |
| Runs.RunBase | internal/store/memory/memory.go:225-281 | in every run, torn or not: key index and event map are inverse, only started applications have events, credentials are set and sealed only in Approved or Revoked, no two applications name one client and no live client is without an application |
| Runs.StatusPath | internal/domain/application.go:58-73 | in every run, writes through Save and rollbacks included, an application moves along valid transitions only |
| Runs.ForwardOnly | internal/domain/application.go:58-73 | once provisioning has started there is no way back, and Revoked is final |
| Runs.ProvisioningOnce | internal/apps/service.go:213-264 | an application enters Provisioning at most once |
| Runs.CreatesOnce | internal/apps/provisioner.go:78-119 | in every run, with any failures and re-delivery, a client is created at most once per application |
| Runs.SecretVersions | internal/apps/service.go:314-360 | the secret version is one plus the rotations stored so far, and zero before approval |
| Runs.GoneForever | internal/store/memory/memory.go:128-136 | a deleted identifier never names a record again |
| Delivery.ClaimsApart | internal/store/memory/memory.go:246-294 | two claims of an event are at least the shorter of retry delay and ten minutes apart |
| Delivery.CompletedForGood | internal/store/memory/memory.go:270-281 | a completed event stays so and is never claimed again |
| Delivery.AttemptsCountClaims | internal/store/memory/memory.go:246-268 | an event's attempts equal the claims it has seen |
| Agreement.RunInv | internal/apps/provisioner.go:55-130 | the whole invariant holds in every run up to the first torn step |
| Agreement.TornBreaks | internal/apps/service.go:127-412 | the first torn step breaks it at once |
| Agreement.PresentExactly | internal/apps/service.go:362-412 | in every run an application's client is missing exactly while it is approved after a client tear of its own |
| Agreement.Conservation | internal/apps/provisioner.go:73-119 | in every run the clients answered for are distinct and no live client is orphaned; live clients are exactly those of approved records and cached credentials if and only if no approved application lost its own to a client tear |
| Agreement.ContentsExactly | internal/apps/service.go:127-360 | in every run, for an approved application with its client: contents are alike exactly unless the last write of the client was a content tear, the stored secret is live exactly unless that was a rotation, token strategy and lifespans are missing exactly if the last write was a rotation |
| Agreement.ApprovedMatches | internal/apps/service.go:175-202 | in every run an approved record's client has its name, logo, addresses, owner and secret if and only if no client tear hit this application and the last write of its client was no content tear; the version always counts its rotations |
| Agreement.MatchesSince | internal/apps/service.go:127-202 | client and record, once alike, stay so until a content tear of this application, whatever happens to others |
| Agreement.MatchesAgain | internal/apps/service.go:127-202 | after a tear, any write that is no tear restores the agreement until the next one |
| Agreement.ViewedSecretIsLive | internal/apps/service.go:290-312 | in every run a secret shown to its owner, who confirmed at most the window ago, is the one the remote server accepts if and only if the client is not lost and its last write was no rotation that was not stored |
| Agreement.SecretChanges | internal/apps/service.go:314-360 | in every reachable state only the owner's rotation, confirmed at most the window ago, changes a live client's secret, or the owner's edit putting the stored one back where it was not live |
| Agreement.StrandedExactly | internal/apps/service.go:246-277 | in every run an application is provisioning without an event if and only if some step was a work tear of it |
| Agreement.OneEventPerApplication | internal/apps/service.go:246-277 | in every run at most one uncompleted event carries a key; a provisioning application has exactly one if and only if no work tear hit it |
| Agreement.NoDuplicateKey | internal/store/memory/memory.go:225-244 | in every run, torn or not, no CreateDraft, Submit or Approve is answered with a conflict: neither identifier nor idempotency key is ever taken |
| Drain.BalanceStep | internal/apps/provisioner.go:103-119 | "provisioning if and only if an uncompleted event" survives a step exactly if it is neither a work tear nor an unacknowledged approval of this application |
| Drain.LeftOverStep | internal/apps/provisioner.go:78-119 | an approved or revoked application has an uncompleted event after a step exactly if the step is its unacknowledged approval, or it had one and the step does not redeliver it |
| Drain.RedeliverySettles | internal/apps/provisioner.go:78-82 | after an unacknowledged approval one delivery with working load and complete settles the application for good |
| Drain.ProvisioningIffOneEvent | internal/apps/service.go:246-277 | in every run a stored application is provisioning if and only if exactly one uncompleted event carries its key, precisely when no work tear hit it and no approval of it went unacknowledged without a later redelivery |
| Drain.Drains | internal/apps/provisioner.go:55-130 | from any reachable state with nothing stuck, n working passes over n due events complete them all and approve every provisioning application that has one |
| Drain.StuckStays | internal/apps/provisioner.go:73-102 | an event without application or with unusable cached credentials stays uncompleted forever |
| Drain.DrainsExactly | internal/apps/provisioner.go:55-130 | from any reachable state the passes empty the outbox if and only if no event is stuck at the start, and approve every provisioning application that is not stranded |
| Governance.ReviewTrail | internal/reviews/service.go:62-162 | with review on, an application past review carries reviewer and note of an earlier approval, by a reviewer or admin, by an admin if by the owner, if and only if no lost approval of it differed from what its record already said |
| Governance.NoteNotBlank | internal/reviews/service.go:117-141 | that note is not white space only |
| Governance.OnlyReviewersDecide | internal/reviews/service.go:62-162 | in every reachable state an application leaves the review queue only by the decision of a reviewer or administrator, an administrator if it is his own |
| Governance.RecordedExactly | internal/reviews/service.go:62-89 | an approval is recorded exactly when its save succeeds or the record already said the same; a lost one leaves reviewer and note of the decision before |
| Governance.MisattributedReview | internal/reviews/service.go:62-115 | a concrete run of five steps ends provisioning under the review of someone who only asked for changes |
| Governance.LimitPassedExactly | internal/apps/service.go:82-244 | a step takes an owner past the limit exactly when it reopens a rejected application at the limit |
| Governance.OpenLimitHolds | internal/apps/service.go:82-125 | without review no application is ever rejected and no owner passes the limit |
| Governance.LimitPassedWithReview | internal/apps/service.go:213-231 | with review a concrete run of five steps gives an owner two open applications under a limit of one |
| Failures.WorkTear | internal/apps/service.go:246-264 | creating with failing enqueue and rollback is allowed, torn, and strands the application |
| Failures.LeavesOver | internal/apps/provisioner.go:112-119 | a pass whose Complete fails leaves an approved application with an uncompleted event |
| Failures.LeavesStuck | internal/apps/service.go:382-412 | deleting that application leaves its event stuck |
| Failures.IncompleteGrant | internal/apps/provisioner.go:97-102 | credentials without a secret leave a stuck event |
| Failures.ClientTear | internal/apps/service.go:362-380 | a revocation whose transition fails leaves an approved application without client |
| Failures.ContentTear | internal/apps/service.go:314-360 | a rotation whose save fails leaves the client with a secret no record holds |
| Failures.StuckRun | internal/apps/provisioner.go:55-130 | create, a pass whose Complete fails, delete: a valid run that ends with a stuck event |
| Sessions.Expiry | internal/session/store.go:29-36 | the earlier of the two lifetimes |
| Sessions.MemoryStore.Create | internal/session/memory.go:28-50 | table and answer as `Sessions.MemoryStep` states |
| Sessions.MemoryStore.Get | internal/session/memory.go:52-69 | table and answer as `Sessions.MemoryStep` states, with lazy deletion |
| Sessions.MemoryStore.Refresh | internal/session/memory.go:71-126 | the shared body of Touch and MarkHomeVerified |
| Sessions.RedisStore.Create | internal/session/redis.go:27-45 | keys and answer as `Sessions.RedisStep` states |
| Sessions.RedisStore.Get | internal/session/redis.go:47-68 | keys and answer as `Sessions.RedisStep` states, after the server's own eviction |
| Sessions.RedisStore.Touch | internal/session/redis.go:70-85 | get, slide and save with the remaining time to live |
| Sessions.RedisStore.MarkHomeVerified | internal/session/redis.go:87-103 | the same, marking the session |
| Sessions.RedisStore.Save | internal/session/redis.go:116-126 | stores with the time left, or refuses when there is none |
| Sessions.MemoryMeetsClosedForm | internal/session/memory.go:28-141 | over any history the in-process store answers by the closed form: gaps below the sliding and total below the absolute lifetime, not deleted, and the full record |
| Sessions.RedisMeetsClosedForm | internal/session/redis.go:27-126 | over any history the evicting Redis store answers by the same closed form |
| Sessions.Lockstep | internal/session/redis.go:27-126 | the two stores answer alike and stay alike, call by call |
| Sessions.TimeLeft | internal/session/memory.go:82-95 | the early exits for no remaining time are never taken |
| Replay.CanonicalInjective | internal/identity/discourseconnect.go:119-122 | the signed text is equal exactly for equal requests, up to the letter case of the method |
| Replay.CheckExactly | internal/identity/discourseconnect.go:84-108 | a request passes exactly within the skew, with a nonce of 1 to 128 characters and the MAC of its own text, and what its ticket says |
| Replay.RefusedExactly | internal/identity/discourseconnect.go:84-108 | exactly when a request is refused as expired rather than invalid |
| Replay.CanonicalLines | internal/identity/discourseconnect.go:119-122 | the signed text reads back as upper-cased method, address, timestamp and nonce on a line each, then the body |
| Replay.SignatureBinds | internal/identity/discourseconnect.go:78-122 | one signature fits one request only |
| Replay.MemoryNonceStore.CheckAndStore | internal/identity/discourseconnect.go:37-51 | the pruning loop and the insertion as `Replay.MemoryCheck` states |
| Replay.RedisNonceStore.CheckAndStore | internal/identity/redis_nonce.go:29-39 | set-if-absent with the time left as `Replay.RedisCheck` states |
| Replay.Verifier.Verify | internal/identity/discourseconnect.go:84-117 | checks, then the nonce store; a failed check leaves the store alone |
| Replay.AcceptedOnce | internal/identity/redis_nonce.go:29-39 | with the Redis store no timestamp and nonce is accepted twice in any run, as long as the second is served within its window |
| Replay.AcceptedTwice | internal/identity/redis_nonce.go:29-39 | with server delays, a second acceptance needs a longer wait than the first had |
| Replay.RedisReplayExactly | internal/identity/redis_nonce.go:29-39 | the next replay passes exactly when read in time and served after the eviction |
| Replay.MemoryReplayExactly | internal/identity/discourseconnect.go:37-51 | the next replay passes exactly when the store reads the clock at or after the closing instant |
| Replay.RedisExactly | internal/identity/redis_nonce.go:29-39 | over whole runs: accepted exactly if it passes, is read before its window closes, and no accepted request with its nonce is still on record |
| Replay.MemoryExactly | internal/identity/discourseconnect.go:37-51 | over whole runs: accepted exactly if it passes and no accepted request with its nonce has a window still open |
| Replay.MemoryAcceptsTwice | internal/identity/discourseconnect.go:37-51 | any request valid at its closing instant is accepted twice there |
| Replay.RedisAcceptsLate | internal/identity/redis_nonce.go:29-39 | a late-served replay of any valid request is accepted |
| Sso.CheckCallbackExactly | internal/identity/sso.go:110-132 | a callback passes exactly if signed, decodable, for this portal, with one nonce in state and payload, and then makes a claim for the user the forum names |
| Sso.BeginsExactly | internal/identity/sso.go:72-102 | exactly when beginning fails, and that it then changes nothing |
| Sso.SSOProvider.Cleanup | internal/identity/sso.go:241-247 | the loop keeps exactly the unexpired entries |
| Sso.SSOProvider.Begin | internal/identity/sso.go:72-102 | refuses a non-relative path, else adds the pending entry after cleanup |
| Sso.SSOProvider.Complete | internal/identity/sso.go:110-148 | table and answer as `Sso.Step` states; a failed check changes nothing |
| Sso.CompletesExactly | internal/identity/sso.go:110-148 | over any history a callback signs on, as the user the payload names, exactly when its nonce was issued, not presented since and still in its window, with the issuing call's path and challenge; never an expired state |
| Sso.SignsOnOnce | internal/identity/sso.go:133-147 | a nonce that signed someone on is a replay ever after |
| Users.UserRepository.Upsert | internal/store/memory/memory.go:148-154 | writes both maps |
| Users.UserRepository.GetByDiscourseID | internal/store/memory/memory.go:166-174 | follows both maps, with the zero user for a dangling subject |
| Users.EnsureShadowUser | internal/identity/sso.go:152-189 | index and reply as `Users.Ensured` states |
| Users.CurrentStatus | internal/identity/status.go:25-62 | index and reply as `Users.Refreshed` states |
| Users.ServeEvent | internal/identity/events.go:62-98 | index and reply as `Users.EventServed` states |
| Users.UpsertKeepsExactly | internal/store/memory/memory.go:148-154 | Upsert keeps the maps inverse exactly for records that fit them |
| Users.UpsertAloneBreaks | internal/store/memory/memory.go:148-154 | a concrete second subject for one Discourse identifier breaks them |
| Users.WritesFit | internal/identity/sso.go:163-189 | every writer stores nothing or one fitting record with the date of the one it replaces |
| Users.EnsureExactly | internal/identity/sso.go:152-189 | exactly when a login goes through, and the record it stores and answers field by field |
| Users.RefreshExactly | internal/identity/status.go:25-62 | exactly when a refresh goes through, and the record it stores and profile it answers |
| Users.EventExactly | internal/identity/events.go:62-98 | exactly when a status event is taken, and that the record then shows its profile |
| Users.MappingStable | internal/identity/sso.go:152-189 | in any interleaving the maps stay inverse and a Discourse identifier keeps subject and creation date |
| Users.ProfileFollowsBridge | internal/identity/status.go:25-62 | a successful refresh stores the bridge's profile for that user and touches no other |
| LevelProgress.ValidateFor | internal/identity/level_progress.go:110-241 | accepts exactly the valid snapshots, loops included |
| LevelProgress.ValidExactly | internal/identity/level_progress.go:110-241 | all that a snapshot must meet: schema, user, level, mode, at most 64 rows, known scopes, operators and units, nothing negative or blank |
| LevelProgress.SerializedAccepted | discourse-plugin/connect-identity/lib/connect_identity/level_progress_serializer.rb:10-78 | the portal accepts what the plugin builds exactly for levels 0 to 4 with non-negative figures, locked or not |
| LevelProgress.Level3Valid | discourse-plugin/connect-identity/lib/connect_identity/level_progress_serializer.rb:182-285 | the twelve level-3 requirements are valid exactly when figures and period are non-negative |
| LevelProgress.MetMeansQualified | discourse-plugin/connect-identity/lib/connect_identity/level_progress_serializer.rb:36-78 | requirements_met is present exactly in automatic mode and is then the promotion rule over the raw figures |
| LevelProgress.Level1Rows | discourse-plugin/connect-identity/lib/connect_identity/level_progress_serializer.rb:80-113 | the four rows for level 1: key, figure, threshold, unit and whether met |
| LevelProgress.Level2Rows | discourse-plugin/connect-identity/lib/connect_identity/level_progress_serializer.rb:115-180 | the eight rows for level 2 |
| LevelProgress.Level3Rows | discourse-plugin/connect-identity/lib/connect_identity/level_progress_serializer.rb:182-285 | the twelve rows for level 3, the last two upper bounds |
| LevelProgress.SerializedExactly | discourse-plugin/connect-identity/lib/connect_identity/level_progress_serializer.rb:10-78 | levels, mode, rows and blocking conditions of the snapshot |
| ProgressCache.KeyTextInjective | internal/identity/level_progress_cache.go:83-85 | distinct users have distinct cache keys |
| ProgressCache.RedisLevelProgressCache.Get | internal/identity/level_progress_cache.go:41-57 | what the server still holds |
| ProgressCache.RedisLevelProgressCache.Set | internal/identity/level_progress_cache.go:59-74 | stored for the lifetime asked, configured or default |
| ProgressCache.CurrentLevelProgress | internal/identity/level_progress.go:75-108 | cache and reply as `ProgressCache.Looked` states |
| ProgressCache.ServeEvent | internal/identity/events.go:62-106 | a taken event invalidates the user's entry, a refused one does not |
| ProgressCache.CachedAlwaysValid | internal/identity/level_progress.go:88-93 | a cached entry is always valid, so none is ever discarded |
| ProgressCache.HeldExactly | internal/identity/level_progress_cache.go:41-81 | over whole runs the cache holds a user's snapshot exactly while a stored fetch covers the instant and was not dropped since |
| ProgressCache.LookExactly | internal/identity/level_progress.go:75-108 | over whole runs, exactly when a look-up succeeds and exactly when the provider is asked |
| ProgressCache.ReturnedIsRecent | internal/identity/level_progress.go:75-108 | what is returned is valid and a provider answer for that user, younger than the lifetime, with no successful invalidation since |
| Scopes.FilterScopes | internal/oauth/login.go:91-112 | the loop computes `Scopes.Filter`, naming the first scope that is not allowed |
| Scopes.FilterMeaning | internal/oauth/login.go:91-112 | succeeds exactly when openid and only allowed scopes are asked for; keeps each once in first-asked order |
| Scopes.FilterIdempotent | internal/oauth/login.go:91-112 | filtering twice is filtering once |
| Scopes.SameScopes | internal/oauth/login.go:114-125 | the loop decides `Scopes.SameStrings` |
| Scopes.SameDecidesSets | internal/oauth/login.go:114-125 | on a filtered left side the comparison is equality of sets |
| Scopes.Contains | internal/oauth/login.go:127-134 | membership |
| Scopes.FieldsSplit | internal/oauth/login.go:53 | the words are what stands between white space: nothing lost, cut or joined |
| Scopes.ValidLoginMeaning | internal/oauth/login.go:34-65 | a login request passes exactly when URL and server agree on client, address and set of scopes, with PKCE and nonce where required |
| Scopes.FieldsJoin | internal/oauth/userinfo.go:70-73 | splitting joined words gives them back |
| Scopes.TextKeepsScopes | internal/oauth/userinfo.go:70-73 | order and repetition in a token's scope text do not change its scopes |
| Consents.KeyTextInjective | internal/store/memory/memory.go:185-187 | the consent key determines user and application, as subjects hold no zero character |
| Consents.ConsentService.Accept | internal/oauth/consent.go:61-118 | consents, accepted grants and reply as `Consents.Accepted` states, rollback included |
| Consents.SelectedExactly | internal/oauth/consent.go:40-103 | exactly when Accept gets as far as storing a consent, and every field of the grant it makes |
| Consents.AcceptExactly | internal/oauth/consent.go:97-117 | the consent stored, the grant accepted, the rollback and the answer |
| Consents.SelectedLicensed | internal/oauth/consent.go:79-91 | what would be granted is filtered, within the request, and shows an e-mail only under its scope |
| Consents.AcceptKeeps | internal/oauth/consent.go:92-117 | Accept keeps every stored consent an accepted grant unless it strands one |
| Consents.AcceptKeepsExactly | internal/oauth/consent.go:92-117 | it breaks that exactly when it strands a consent that was not already granted with the same contents |
| Consents.StrandedConsent | internal/oauth/consent.go:107-117 | a concrete refused call whose rollback fails leaves a stored consent no one accepted |
| Consents.GrantedToHolder | internal/oauth/consent.go:92-103 | in a reachable state the consent goes to the one application that answers for the request's client |
| Consents.ConsentsBacked | internal/oauth/consent.go:61-118 | in every run a stored consent is exactly an accepted grant within its request if and only if the last call that stored it did not strand it or it was granted before, whatever other users and applications do |
| Consents.GrantsLicensed | internal/oauth/consent.go:79-106 | in every run every accepted grant is filtered and within its request |
| Consents.Claims | internal/oauth/userinfo.go:50-89 | users and claims as `Consents.ClaimsOf` states, for the record the token's client identifies and with the bridge's current values |
| Consents.ClaimsExactly | internal/oauth/userinfo.go:50-89 | exactly when a token yields claims; sub under openid, name, preferred_username and picture under profile, a non-blank e-mail under email, trust level, active and silenced under community, with the values just fetched |
| Consents.ClaimsFor | internal/oauth/userinfo.go:74-88 | the conditional writes of the claims map, claim by claim |
| Consents.ClaimsWithinRequest | internal/oauth/userinfo.go:70-88 | a token carrying a grant, in any order and repetition, holds exactly the granted scopes, all requested |
| Consents.ClaimsLicensedInRun | internal/oauth/userinfo.go:50-89 | over every run of consents, a token with a grant's scopes yields profile, e-mail and community claims only if profile, email and community were granted out of a request for them, even after the stored consent is gone |

## Left out

- HTTP handlers, routing, cookies, forms, templates, static assets, configuration and deployment: input, output and user interface.
- internal/hydra/ory.go and the other network clients: the remote server is an environment that fails without effect or succeeds, refuses an update of a missing client, ignores a delete of one, and echoes the secret it is given.
- internal/store/postgres and the migrations: the memory repositories' semantics are modelled; Postgres differs on duplicate events, stale claims and cascading deletes.
- Concurrency below one public call and several worker processes: one call is one step, and there is one provisioner lifetime, since the credentials cache lives in the process.
- Several clock readings within one call of the provisioning services: one reading per call; `Replay` does model the separate readings of verifier, store and server.
- Identifiers of applications, events, clients, subjects and nonces are assumed fresh, those of applications and clients never to be used again (so the remote server leaves the client identifier empty at most once), and clocks do not run backwards.
- validateInput and normalizeDomains: their results are parameters of `Protocol.CreateDraft` and `Protocol.UpdateDraft`.
- Trimming in `Protocol`, `Replay` and `Sso` is a function parameter; `Governance.NoteNotBlank` instantiates it, and `Common.Trim` defines it for scopes and labels.
- Encryption, HMAC, SHA-256, base64, hex, JSON and URL parsing: sealed values open under their binding only, digests do not collide, and the other functions are parameters.
- Audit identifiers and metadata, event payloads, the generated_at and group fields of progress snapshots, error message texts, and Redis commands that fail.
- Checks for missing dependencies and cancelled contexts: they return an error before anything is read.
- Redis rounds a time to live to milliseconds; the model evicts at the exact instant, by the same clock the portal reads.
- ListMine, ListPending, ListByOwner, ListByStatus, ListByApplication, ConsentService.Reject and ParseAuthorizationRequest: they read or forward without a rule of their own.
- The restoration of an earlier consent after a failed Accept: the source deletes the record outright, so only "stored implies accepted" is stated.
- Upper-casing in `Replay.Canonical` covers the ASCII letters, of which HTTP methods consist.
