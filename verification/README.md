# Proofs about the reverse-OTP server and its GSM gateway

A user proves control of a phone by sending an SMS to a receiver. A GSM gateway
uploads the SMS; the server matches it to a pending verification or a pending
phone binding, and tells the customer's webhook endpoints what happened. This
project models that protocol and proves what it promises, in every run.

`dafny verify dfyconfig.toml` checks everything. The files, from the centre out:

- `Schema`, `Store`: the tables, and every server transaction as one step of a
  state machine (`Store.Apply`). startVerification is split into lock, count,
  pick, insert, commit or roll back; processInbound into store, clock, claim;
  the background expiry task is a multiset of ids that may be delayed, lost or
  repeated. A run is any sequence of steps, so all interleavings are covered.
- `Columns`: conditions on rows and their columns alone, in which the operations'
  contracts are stated. No operation is defined by them; their lemmas say that
  the state machine's queries select just these rows.
- `Invariant`, `OutboxLemmas`, `ClaimLemmas`, `PendingLemmas`, `StepLemmas`: one
  inductive invariant and its preservation by every step. `Evolution`: what a
  step may change in rows that already exist. `Origins`: which request of the
  run each row goes back to. `Guarantees`: the theorems.
- `Server`: the same transactions as methods of a class that updates its tables
  in place. Each one says which run of the state machine it performs.
  `EventTypes`: the validation of an endpoint's event types. `Witness`: a run
  from empty tables that goes all the way.
- `Lease`, `LeaseSafety`, `LeaseLimits`, `WebhookWorker`, `WorkerInStore`: the
  delivery workers, as a timed protocol and as a class, and how they fit into
  the store.
- `Gateway`, `Pipeline`: the gateway's queue and uploader, and the end-to-end
  system of gateway, lossy network and server.
- `RateLimit`, `ReplayGuard`, `Heartbeat`: the time-based guards.
- `Selection`, `Messages`, `TextEvidence`, `Modem`, `Ipv4`, `Ipv6`, `Envelope`,
  with `Text` and `Bits` below them: receiver balance and the algorithms.

What is assumed: one monotone clock, fresh ids, atomic statements, and the
unique indexes of the schema and its migrations 0005 and 0006. Codes and nonces
may collide. Phone normalisation, the lock's hash, the cipher, the HMAC,
`Number`, `parseInt`, Unicode case mapping and the header regular expression of
the modem are parameters, with the few facts used of them stated as hypotheses.

Where the code and its comments disagree, the model follows the code:

- `apps/server/src/workers/webhook.ts:16-19` says that workers never deliver
  twice. They do not exactly when a whole batch fits in the lease
  (`LeaseLimits.LeaseExcludesIff`); 12 rows that all time out do not fit, 11 do.
- `apps/gsm-gateway/syrotp_gateway/service.py:113-116` says that the idempotency
  key holds the first characters of the body. It does not (`Gateway.SameKeyIff`).
- `apps/gsm-gateway/syrotp_gateway/service.py:30` counts 4xx replies; the counter
  it compares counts every failed try. And the 401 latch of lines 50-53 is looked
  at between snapshots only, so the rest of a snapshot is still uploaded.
- `apps/server/src/services/phoneBindings.ts:288-292` gives `BIND abc` and
  `BIND X` as examples that parse; nonces shorter than 8 are refused.
- `apps/server/src/services/phoneBindings.ts:183-185` calls revoking a revoked
  binding a no-op; it rewrites the revocation time.
- `apps/server/src/services/hmac.ts:86-87` says a nonce is used once within the
  skew window; its lifetime is one skew, and that covers the window only for
  timestamps behind the server's clock (`ReplayGuard.LifetimeOfOneSkew`).
- `apps/server/src/lib/ssrfGuard.ts:153-155` treats a dotted tail as handled; one
  that stands directly after `::` is not read (`Ipv6.ExpandsToAddress`).
- A verification that a read has already reported as expired may still become
  verified, by a claim that read its clock in time
  (`Guarantees.SlowClaimVerifiesExpired`).

## Model

| member | source | states |
|---|---|---|
| `Guarantees.PendingCap` | apps/server/src/services/verifications.ts:188-287 | in every reachable state no (app, phone) has more pending rows than the cap, for any lock hash, even a constant one |
| `Guarantees.VerifiedHasEvidence` | apps/server/src/services/matching.ts:179-227 | a verified row names one stored message of its receiver and phone that parses to its code, claimed before expires_at; no other row names that message |
| `Guarantees.MatchedNamesVerified` | apps/server/src/services/matching.ts:220-224 | a matched VERIFY message names a verified row, which names it back |
| `Guarantees.OneCandidate` | apps/server/src/db/schema.ts:119-133 | the claim's sub-select never has two rows, at any clock |
| `Guarantees.HomeApp` | apps/server/src/services/verifications.ts:261-276 | every verification's receiver belongs to its own app |
| `Guarantees.AtMostOneEffect` | apps/server/src/services/matching.ts:75-106 | one (receiver, key) has at most one stored row, and verifications and bindings flipped by it are at most one together |
| `Guarantees.OneRowPerKey` | apps/server/src/db/schema.ts:153 | at most one stored message for a (receiver, key) |
| `Guarantees.OneVerificationPerKey` | apps/server/src/services/matching.ts:180-227 | at most one verification flipped by a key, and only by a VERIFY message |
| `Guarantees.OneBindingPerKey` | apps/server/src/services/phoneBindings.ts:230-255 | at most one binding promoted by a key, and only by a BIND message |
| `Guarantees.NoSecondChance` | apps/server/src/services/matching.ts:85-106 | a message whose call died unmatched stays unmatched in every later run: it verifies nothing, promotes no binding it had not promoted by then, and storing its key again changes nothing |
| `Guarantees.OneEventPerOutcome` | apps/server/src/services/webhooks.ts:330-354 | no event while pending, exactly one afterwards, of the type that goes with the final status, with the row's app and timestamp |
| `Guarantees.OneDeliveryPerSubscriber` | apps/server/src/services/webhooks.ts:360-388 | an event has exactly one delivery for each endpoint it went to and that still exists, and none for any other |
| `Guarantees.EmissionFansOut` | apps/server/src/services/webhooks.ts:360-388 | the step that emits an event sends it to exactly the app's endpoints that are enabled and have its type at that moment, by one new delivery each, pending, unattempted and due at once |
| `Guarantees.FinalForever` | apps/server/src/services/verifications.ts:423-435 | a finished row, its event and its fan-out are unchanged by every later run |
| `Guarantees.NeverExpiresEarly` | apps/server/src/services/verifications.ts:31-58 | an expired row and its event are never earlier than expires_at, though the UPDATE does not test it |
| `Guarantees.ReportedExpiredBindsClaims` | apps/server/src/services/verifications.ts:384-390 | once a read reports expired, a later verification was claimed by a clock from before that time |
| `Guarantees.ClaimVerifiesExactlyWhen` | apps/server/src/services/matching.ts:179-202 | a claim verifies a pending row if and only if receiver, sender and code match and the call's clock, not the current time, is before expires_at |
| `Guarantees.SlowClaimVerifiesExpired` | apps/server/src/services/matching.ts:179-202 | after any wait past expires_at, a matching claim with a timely clock verifies a row that reads report as expired |
| `Witness.ReportedExpiredThenVerified` | apps/server/src/services/verifications.ts:384-390 | every deployment that works at all has a run from empty tables, through binding and start, to a row reported expired and then verified |
| `Witness.SomeDeploymentWorks` | apps/server/src/services/verifications.ts:161-305 | such deployments exist, with a cap of one and a constant lock hash |
| `Guarantees.OneActiveBinding` | apps/server/src/services/phoneBindings.ts:79-83 | at most one verified binding for an (app, phone) in every run, with colliding nonces and the unlocked check |
| `Guarantees.BindVerifiesExactlyWhen` | apps/server/src/services/phoneBindings.ts:230-250 | a BIND call verifies a pending binding if and only if receiver, sender and nonce match, the call's clock is before expires_at, and no two bindings of one app and phone would be verified |
| `Guarantees.BoundHasEvidence` | apps/server/src/services/phoneBindings.ts:235-250 | a binding that was ever verified was so by its phone, on its receiver, with its nonce, in time; it is never pending again and revoked is final |
| `Guarantees.PromotesOne` | apps/server/src/services/phoneBindings.ts:238-255 | the multi-row UPDATE never promotes two rows: all that match share app and phone, so the index would refuse |
| `Guarantees.VerificationNeedsBinding` | apps/server/src/services/verifications.ts:164-186 | every verification's (app, phone) had a binding verified by a BIND message from that phone |
| `Guarantees.ReachableInv` | apps/server/src/db/schema.ts:84-356 | every state of every run satisfies the whole invariant: index uniqueness, locks, evidence, times, outbox |
| `StepLemmas.StepKeeps` | apps/server/src/services/verifications.ts:161-305 | every step of the state machine keeps the invariant |
| `StepLemmas.RunKeeps` | apps/server/src/services/matching.ts:53-240 | so does every run, in any interleaving |
| `Evolution.RunEvolves` | apps/server/src/services/matching.ts:180-227 | over any run rows keep their fixed columns, final rows and matched messages are frozen, and no key or event is forgotten |
| `Evolution.RunPromotes` | apps/server/src/services/phoneBindings.ts:235-250 | over any run a message that no call is processing promotes no further binding |
| `Origins.VerificationBegan` | apps/server/src/services/verifications.ts:216-218 | in every run a verification goes back to one start of its app and phone, which was bound at that moment; its deadline is verificationTtl after it, and until then, and no longer, a pending row is reported pending |
| `Origins.BindingBegan` | apps/server/src/services/phoneBindings.ts:87-146 | in every run a binding goes back to one request for its phone on an enabled receiver of its app, not bound at that moment; its deadline is bindingTtl after it |
| `Origins.MessageCame` | apps/server/src/services/matching.ts:57-85 | in every run a stored message goes back to one request: its sender in normal form, or its first 32 characters, its text and key as they came, the key new to the receiver |
| `Columns.RoutesByOneOrder` | apps/server/src/services/verifications.ts:110-159 | asking the preferred operator's receivers first and all of them afterwards is asking once in one order: preferred operator, fewest pending rows, oldest; and finds none only if none is routable |
| `Columns.RefusedIff` | apps/server/src/services/phoneBindings.ts:238-250 | the index refuses a promotion if and only if two bindings of one app and phone would be verified |
| `Server.Database.StartVerification` | apps/server/src/services/verifications.ts:161-305 | each refusal if and only if its cause holds; success adds one pending row with every column as asked, a fresh id, the first routable receiver and a code that clashes with none, pending until exactly verificationTtl from now |
| `Server.Database.RetryOnCollision` | apps/server/src/services/verifications.ts:330-353 | gives up only when each of the three codes clashes on a receiver the router may pick |
| `Server.Database.TryStart` | apps/server/src/services/verifications.ts:222-287 | one transaction ends full, without receiver, rolled back or committed, each with its condition and effect |
| `Server.Database.HealthyReceiver` | apps/server/src/services/verifications.ts:136-159 | returns a receiver that is enabled and heard from in time, with the fewest pending rows, then the oldest, and none only if there is none |
| `Server.Database.PickHealthy` | apps/server/src/services/verifications.ts:117-134 | the same among the preferred operator's receivers when one is healthy, otherwise among all |
| `Server.Database.GetVerification` | apps/server/src/services/verifications.ts:371-413 | reports a due pending row as expired, leaves the row alone and queues the transition |
| `Server.Database.LazyExpireAndEmit` | apps/server/src/services/verifications.ts:31-58 | expires the row and emits if and only if it is still pending |
| `Server.Database.CancelVerification` | apps/server/src/services/verifications.ts:415-456 | not found, not pending or cancelled, each exactly when; only the last changes anything |
| `Server.Database.FinishRow` | apps/server/src/services/webhooks.ts:330-388 | the row's update, its event with all columns, and one fresh delivery for each endpoint of the app that is enabled and has the type, as one transaction |
| `Server.Database.FanOutQuery` | apps/server/src/services/webhooks.ts:360-388 | lists every endpoint of the app that is enabled and has the type exactly once, each with a pending, unattempted delivery due at once |
| `Server.Database.ProcessInbound` | apps/server/src/services/matching.ts:53-240 | each outcome if and only if its cause holds, told of the sender in normal form: the message row it leaves and its back-link, the row that awaited it and every column changed; a rejection or duplicate changes nothing |
| `Server.Database.MatchStored` | apps/server/src/services/matching.ts:108-239 | what a stored message decides, by what its body asks for, and nothing else changes |
| `Server.Database.StoreMessage` | apps/server/src/services/matching.ts:57-106 | stores the normal sender, whole text and key if and only if the key is new for the receiver, otherwise finds the prior row |
| `Server.Database.ClaimPending` | apps/server/src/services/matching.ts:179-227 | claims a candidate and back-links it, or there is none |
| `Server.Database.PromoteBinding` | apps/server/src/services/phoneBindings.ts:230-255 | promotes exactly one matching row, or none matches, or the index refuses and nothing changes |
| `Server.Database.StartBinding` | apps/server/src/services/phoneBindings.ts:84-163 | each refusal if and only if its cause holds; otherwise adds one pending binding with every column as asked, for bindingTtl from now |
| `Server.Database.RevokeBinding` | apps/server/src/services/phoneBindings.ts:186-203 | revokes exactly the app's own row, from any status |
| `Server.Database.CreateEndpoint` | apps/server/src/services/webhooks.ts:105-155 | refuses unknown types and an app with ten endpoints, each exactly when; otherwise adds an enabled endpoint with exactly the types named |
| `Server.Database.DeleteEndpoint` | apps/server/src/services/webhooks.ts:180-189 | removes the app's endpoint with exactly its deliveries; events stay |
| `EventTypes.UniqueValidated` | apps/server/src/services/webhooks.ts:237-253 | refuses an empty list or an unknown name, otherwise every named type exactly once, in order of first appearance |
| `LeaseLimits.LeaseExcludesIff` | apps/server/src/services/webhookWorker.ts:132-141 | workers never share a delivery, and final statuses are final, in all timed runs if and only if n rows of d ms each end before the lease |
| `LeaseLimits.FullBatchOverruns` | apps/server/src/services/webhookWorker.ts:136-141 | with the 5 s timeout a full batch of 25, or 12, breaks it; 11 rows do not |
| `LeaseLimits.SharedIsReachable` | apps/server/src/services/webhookWorker.ts:246-283 | for every batch size and row time that overrun, a run that puts one delivery in two batches |
| `LeaseLimits.SharedRegresses` | apps/server/src/services/webhookWorker.ts:427-508 | from there a delivered row becomes pending again |
| `LeaseSafety.RunSafe` | apps/server/src/services/webhookWorker.ts:246-289 | if batches fit, every run with claims, crashes and deletions keeps exclusion and each row in flight as its worker left it |
| `LeaseSafety.FinalAbsorbs` | apps/server/src/services/webhookWorker.ts:434-476 | then no later step changes a delivered, failed or abandoned row |
| `LeaseSafety.CountsReports` | apps/server/src/services/webhookWorker.ts:285-289 | then attempt_count grows by exactly one for each applied outcome |
| `LeaseSafety.FewReports` | apps/server/src/services/webhooks.ts:429-442 | then at most six outcomes are ever applied to a delivery |
| `Lease.AttemptBudget` | apps/server/src/services/webhooks.ts:437-442 | in all interleavings a pending row has had at most five attempts, any row at most six, and a pending row is due within two hours |
| `Lease.SixthAttemptWaits` | apps/server/src/services/webhooks.ts:429-435 | in all interleavings the sixth attempt is claimed at least 9750 s after the first failure |
| `Lease.AbandonsAtSixth` | apps/server/src/services/webhookWorker.ts:478-507 | a retriable failure abandons at the sixth attempt and at no other |
| `Lease.OutcomeDecides` | apps/server/src/services/webhookWorker.ts:427-508 | in all interleavings a report turns its row delivered, failed, abandoned or due again after 30, 120, 600, 1800 or 7200 s, each exactly when, and touches no other |
| `WebhookWorker.Deliver` | apps/server/src/services/webhookWorker.ts:295-420 | which replies are accepted, retried, refused or disabled, by status class |
| `WebhookWorker.SelectDue` | apps/server/src/services/webhookWorker.ts:248-267 | the soonest pending rows whose time has come, in order, all of them unless 25 cut |
| `WebhookWorker.WebhookWorker.ClaimBatch` | apps/server/src/services/webhookWorker.ts:246-283 | leases exactly those rows and remembers each as it was |
| `WebhookWorker.WebhookWorker.ApplyOutcome` | apps/server/src/services/webhookWorker.ts:427-508 | the row's status, count and next time by the outcome and the attempt, if it still exists, and no other row |
| `WebhookWorker.WebhookWorker.RunOnce` | apps/server/src/services/webhookWorker.ts:211-289 | performs a run of the protocol; each claimed row before a database error ends delivered, failed, abandoned or due again exactly as its answer and its attempt say, later ones stay leased, all others are untouched; a failed claim, or a call while another runs, changes nothing |
| `WebhookWorker.WebhookWorker.OnTimer` | apps/server/src/services/webhookWorker.ts:223-231 | one tick, and the timer is set again unless stopped |
| `WebhookWorker.WebhookWorker.Stop` | apps/server/src/services/webhookWorker.ts:195-204 | afterwards no timer is set and a tick sets none |
| `WorkerInStore.WorkersRefineStore` | apps/server/src/services/webhookWorker.ts:276-289 | any run of any number of workers, with crashes and time passing, is a run of the server's state machine that touches deliveries only |
| `Gateway.InboundQueue.Add` | apps/gsm-gateway/syrotp_gateway/queue.py:79-108 | adds a row if and only if the key is new; afterwards the key is queued |
| `Gateway.InboundQueue.Snapshot` | apps/gsm-gateway/syrotp_gateway/queue.py:110-137 | the oldest ready items in order, all of them unless the limit cuts |
| `Gateway.InboundQueue.BumpAttempts` | apps/gsm-gateway/syrotp_gateway/queue.py:139-151 | one more attempt and a later try for that row only |
| `Gateway.InboundQueue.Depth` | apps/gsm-gateway/syrotp_gateway/queue.py:157-160 | counts every queued row, ready or not |
| `Gateway.GatewayService.HandleReply` | apps/gsm-gateway/syrotp_gateway/service.py:163-196 | the row stays if and only if the POST raised, or the status is 401, an early client error, or neither success, 409 nor client error; then a 401 leaves it alone and any other failure adds a try and the schedule's wait; 401 alone latches |
| `Gateway.GatewayService.DrainOnce` | apps/gsm-gateway/syrotp_gateway/service.py:147-170 | takes the 50 oldest ready items; each before the stop stays or goes, kept or postponed, exactly as its reply says; all others are unchanged |
| `Gateway.GatewayService.WorkerTurn` | apps/gsm-gateway/syrotp_gateway/service.py:131-145 | once latched, nothing leaves the queue; until then a turn is one drain |
| `Gateway.GatewayService.ReadOnce` | apps/gsm-gateway/syrotp_gateway/service.py:107-129 | wherever the process dies, the messages whose turn had come are queued and only messages queued before are deleted; old rows are untouched and new ones come from the list |
| `Gateway.SameKeyIff` | apps/gsm-gateway/syrotp_gateway/service.py:116 | two messages share a key if and only if they share timestamp, index and the sender's last twelve characters |
| `Gateway.OneKeyTwoBodies` | apps/gsm-gateway/syrotp_gateway/service.py:112-129 | an instance: two different texts with one key, of which no queue ever holds both |
| `Pipeline.EndToEnd` | apps/gsm-gateway/syrotp_gateway/service.py:147-196 | over lost, late and repeated traffic, restarts and crashes: a queued message is still queued, given up or stored once, and flips at most one row |
| `Pipeline.DropsOnlyWhen` | apps/gsm-gateway/syrotp_gateway/service.py:172-196 | an item leaves the queue only if the server holds its key, or on a 4xx other than 401 and 409 at its fifth or a later try |
| `Pipeline.WaitsForDue` | apps/gsm-gateway/syrotp_gateway/queue.py:110-137 | in every run the worker waits only for an item whose next try was due, with the attempts and key it still has |
| `Pipeline.RunKeepsPipe` | apps/server/src/routes/inbound.ts:136-206 | in every run a handler has the row its request asked for, and so a 202, sent once its own call has returned, or a 409 implies a stored key |
| `Pipeline.CanGetThrough` | apps/gsm-gateway/syrotp_gateway/service.py:154-176 | whatever has happened, some run stores a well-formed queued message, has its call run to its end, and clears it |
| `Pipeline.MayConfirmAndNeverMatch` | apps/server/src/services/matching.ts:85-106 | any message not yet stored may be orphaned by a crash, then confirmed and dropped, and no later run matches it, verifies by it or promotes by it |
| `RateLimit.AllowedExactly` | apps/server/src/services/rateLimit.ts:17-41 | with a limit and window of its own for each key, the i-th call of an aligned window is allowed if and only if i <= limit, in any run |
| `RateLimit.SpanCapped` | apps/server/src/services/rateLimit.ts:3-9 | any span of a key's window length holds at most 2 * limit of its allowed calls, whatever other keys do |
| `RateLimit.SpanBoundMet` | apps/server/src/services/rateLimit.ts:22-26 | for every limit, a run with exactly 2 * limit allowed within two milliseconds |
| `RateLimit.Limiter.Check` | apps/server/src/services/rateLimit.ts:17-41 | count is the call's number in its window, and resetSeconds ends the window |
| `ReplayGuard.ReplayableIff` | apps/server/src/services/hmac.ts:46-51 | a request first accepted at a time can be accepted again if and only if its nonce can expire before its last chance |
| `ReplayGuard.LifetimeOfOneSkew` | apps/server/src/services/hmac.ts:86-90 | as deployed, exactly the requests stamped no earlier than the server's second can be |
| `ReplayGuard.LifetimeNeeded` | apps/server/src/services/hmac.ts:86-90 | a lifetime protects the whole skew window if and only if it exceeds twice the skew and the handler's delay |
| `ReplayGuard.KeysApart` | apps/server/src/services/hmac.ts:88-89 | two requests share a nonce key if and only if they name one receiver and one nonce |
| `ReplayGuard.HmacVerifier.Verify` | apps/server/src/services/hmac.ts:39-96 | each refusal if and only if its cause holds; accepts if and only if well shaped, genuine, in skew and unused; only then is a nonce spent, for its lifetime |
| `Heartbeat.StoredTracksLast` | apps/server/src/routes/inbound.ts:280-301 | the stored time never leads the newest answered heartbeat and lags it by at most a quarter of the timeout or the handlers' overlap |
| `Heartbeat.PunctualFreshIff` | apps/server/src/services/verifications.ts:150-155 | a gateway answered within the advertised interval is always selectable if and only if interval and handler delay together are under the timeout |
| `Heartbeat.FreshIsRecent` | apps/server/src/services/verifications.ts:152-153 | what selection calls fresh was answered within the timeout |
| `Heartbeat.Receiver.Beat` | apps/server/src/routes/inbound.ts:280-308 | writes if and only if the stored time is missing or older than a quarter of the timeout, and asks for the next beat after half of it |
| `Selection.StaysBalanced` | apps/server/src/services/verifications.ts:91-107 | over any sequence of committed starts the load gap stays within the initial one, or one row |
| `Selection.StartIsWellRouted` | apps/server/src/services/verifications.ts:141-158 | a committed start without preference is such a step |
| `Selection.PickIsRouted` | apps/server/src/services/verifications.ts:261-264 | in any interleaving the pick takes a receiver that is first in the router's order, and gives up exactly when none is routable |
| `Selection.GapOverRuns` | apps/server/src/services/verifications.ts:91-107 | over any interleaving, with at most k starts of the app holding a receiver at once, the gap stays within the larger of k and the initial one, plus one for each pending row that ended |
| `Selection.GapFromIdle` | apps/server/src/services/verifications.ts:261-284 | the same from any state without starts in flight |
| `Selection.CompleteAndHonours` | apps/server/src/services/verifications.ts:117-134 | selection fails only if no receiver is healthy, and has the preferred operator if and only if a healthy receiver has it |
| `Messages.MessagesReadBack` | apps/server/src/services/matching.ts:26-44 | both messages, in any letter case and with any white space, read back as exactly the code or nonce |
| `Messages.PrintedReadsBack` | apps/server/src/services/verifications.ts:298 | both messages as they are printed read back |
| `Messages.ExtractsExactly` | apps/server/src/services/phoneBindings.ts:300-308 | for any prefix and length limits, a body carries x if and only if, without white space and in capitals, it is the prefix and x, with the prefix unbroken |
| `Messages.ParsesExactly` | apps/server/src/services/matching.ts:26-72 | a body asks to verify x if and only if its letters are VERIFY and x, of 4 to 32 capitals and digits, and to bind x if and only if they are BIND and x, of 8 to 64 |
| `Messages.NeverBoth` | apps/server/src/services/matching.ts:64-72 | no body is both a BIND and a VERIFY message |
| `Messages.GenerateCode` | apps/server/src/lib/crypto.ts:40-48 | refuses exactly the lengths outside 4 to 32, otherwise a readable code of that length from the 31-letter alphabet |
| `Messages.GenerateNonce` | apps/server/src/services/phoneBindings.ts:64-72 | a readable nonce of 24 |
| `TextEvidence.VerifiedByText` | apps/server/src/services/matching.ts:64-72 | a verified row has a stored message whose letters are VERIFY and its code and nothing else |
| `TextEvidence.BoundByText` | apps/server/src/services/matching.ts:111-135 | a binding ever verified has one whose letters are BIND and its nonce |
| `Modem.ParseCmglBlock` | apps/gsm-gateway/syrotp_gateway/modem.py:229-252 | the jumping loop yields what a look at every line would |
| `Modem.OneMessageEach` | apps/gsm-gateway/syrotp_gateway/modem.py:233-250 | exactly one message for each header line, the k-th from the k-th |
| `Modem.BodiesApart` | apps/gsm-gateway/syrotp_gateway/modem.py:237-242 | no line feeds two messages |
| `Modem.MessageReads` | apps/gsm-gateway/syrotp_gateway/modem.py:237-249 | a message has its header's index, sender and time, and as body, stripped, the text whose lines are those up to the next header |
| `Ipv4.Ipv4ToUint32` | apps/server/src/lib/ssrfGuard.ts:91-102 | reads exactly the texts of four parts of one to three characters, each a number from 0 to 255, and as the 32-bit value of those octets |
| `Ipv4.InRangeIsInterval` | apps/server/src/lib/ssrfGuard.ts:132-136 | the mask test is the prefix interval, for all addresses, networks and prefixes 0 to 32 |
| `Ipv4.BlocksReserved` | apps/server/src/lib/ssrfGuard.ts:121-130 | the seven ranges block exactly the reserved networks |
| `Ipv4.IsBlockedV4` | apps/server/src/lib/ssrfGuard.ts:138-145 | finds a range if and only if one holds the address |
| `Ipv4.BlockedDotted` | apps/server/src/lib/ssrfGuard.ts:138-145 | a dotted literal, with leading zeros or not, is blocked exactly when its octets are reserved |
| `Ipv6.Ipv6Groups` | apps/server/src/lib/ssrfGuard.ts:152-197 | the loops compute the specification |
| `Ipv6.ExpandsToAddress` | apps/server/src/lib/ssrfGuard.ts:152-197 | every legal text expands to its address, except exactly those with a dotted tail directly after "::", which are not read |
| `Ipv6.PathsAgree` | apps/server/src/lib/ssrfGuard.ts:204-210 | for every mapped literal the regular-expression path and the group path agree |
| `Ipv6.ChainIsIntervals` | apps/server/src/lib/ssrfGuard.ts:215-244 | the branch chain is the interval specification on 128-bit addresses |
| `Ipv6.BlockedIffAddress` | apps/server/src/lib/ssrfGuard.ts:199-245 | blocking depends on the address alone, not its spelling or zone, unless a dotted tail follows "::" directly |
| `Ipv6.LoopbackSpelledWithDots` | apps/server/src/lib/ssrfGuard.ts:156-165 | an instance: "::0.0.0.1" and "::1" are one address, and only the second is read and blocked |
| `Envelope.B64uReadsBack` | apps/server/src/lib/aead.ts:51-58 | b64uDecode undoes b64u for every byte string |
| `Envelope.WritesEveryGroup` | apps/server/src/lib/aead.ts:51-53 | the text is base64url: each three bytes are four symbols of its alphabet with the same 24 bits, two are three, one is two, and nothing follows |
| `Envelope.Restores` | apps/server/src/lib/aead.ts:51-58 | the stripped padding and symbols are put back exactly |
| `Envelope.FieldsRecovered` | apps/server/src/lib/aead.ts:34-44 | the four dot-separated fields and their bytes are recovered from the text |
| `Envelope.UnwrapUndoesWrap` | apps/server/src/lib/aead.ts:26-49 | wrap succeeds exactly with a 32-byte key, and unwrap gives the text back |
| `Envelope.OpensOnlySealed` | apps/server/src/lib/aead.ts:37-49 | each refusal exactly when; opens if and only if four fields of version v1 hold what sealing some text with that key, iv and binding gives |
| `Envelope.SwappedRowOpensOnlyIf` | apps/server/src/lib/aead.ts:11-13 | a value moved to another row opens there only if it could have been sealed for it |
| `Envelope.SwappedRowOpensIff` | apps/server/src/lib/aead.ts:11-13 | with a cipher that binds its data, it opens there if and only if the two bindings are the same |

## Left out

- Server.Database.StartVerification: proved with no other call in between; the
  interleavings are those of the state machine, whose run it performs.
- Server.Database.RetryOnCollision: likewise; the advisory lock is free.
- Server.Database.TryStart: likewise.
- Server.Database.ProcessInbound: likewise.
- Server.Database.ClaimPending: likewise; rows that other transactions have locked
  are skipped in the state machine only.
- Server.Database.CreateEndpoint: the cap of ten is a soft one in the source, and
  is stated for calls that do not overlap. The URL checks come before it.
- WebhookWorker.WebhookWorker.RunOnce: one worker alone; several workers are the
  lease protocol's. The status code and error text columns of a delivery are not
  kept.
- WebhookWorker.WebhookWorker.OnTimer: likewise; races of start and stop during a
  tick are out.
- Heartbeat.Receiver.Beat: one handler alone; overlapping ones are the tracker's.
- Selection.GapOverRuns: for a fixed set of healthy receivers and starts without a
  preferred operator.
- RateLimit.Limiter.Check: the window is read and the counter bumped at the same
  instant; the branch for an unreachable Redis, which lets calls pass, is out.
- ReplayGuard.HmacVerifier.Verify: a key counts as gone once its lifetime is over.
- Messages.MessagesReadBack: code units beyond the basic plane are single units.
- Ipv6.ExpandsToAddress: which texts reach the parser is decided by Node's isIP,
  which is not part of this model.
- Modem.ParseCmglBlock: the header expression is a parameter anchored at "+CMGL:";
  blank lines have been dropped before, by the reader of the serial port.
- Envelope.UnwrapUndoesWrap: UTF-8 is assumed to carry the text, and the cipher to
  authenticate; nothing is proved about AES-GCM.
- Pipeline.EndToEnd: rate limits, HMAC, body validation and server errors appear
  as refusals, which may come at any time.
- WorkerInStore.WorkersRefineStore: the fleet's rows are fixed; that an emission
  adds rows and an endpoint's deletion removes them is said by the store.
- The failure reasons that consumeBindNonce distinguishes for metrics only.
- The hosted reads, which repeat the report rule of getVerification.
- Columns that no rule reads: purpose, locale, client reference, creator address.
- WebAuthn, admin and hosted pages, audit rows, metrics, command line, clients in
  other languages and the Android gateway.
