/** The server's tables and every transaction that changes them, as one state
    machine. A step that is not enabled, or whose parameters are not ones the
    database could have produced, leaves the state as it is, so a run is any
    sequence of steps in any interleaving. */
module Store {
  import opened Wrappers
  import opened Schema

  /** Deployment constants, and the three functions the model leaves open. */
  datatype Config = Config(
    maxPendingPerPhone: nat,
    verificationTtl: nat,
    bindingTtl: nat,
    heartbeatTimeout: nat,
    lockHash: string -> int,               // hashtextextended
    normalize: string -> Option<string>,   // normalizePhone
    parse: string -> Intent)               // extractBindNonce, then extractCode

  const MAX_CODE_COLLISION_RETRIES: nat := 3
  const MAX_BODY: nat := 1600

  // ----- calls in flight ---------------------------------------------------

  /** Where a startVerification call stands. Every phase but Idle is inside the
      transaction and therefore holds the advisory lock. */
  datatype StartPhase =
    | Idle
    | Locked
    | Counted
    | Picked(receiverId: Id)
    | Inserted(row: Verification)

  datatype Start = Start(
    appId: string, phone: string, preferred: Option<string>,
    expiresAt: Time, collisions: nat, phase: StartPhase)

  /** A startBinding call between its two checks and its insert. */
  datatype BindStart = BindStart(appId: string, receiverId: Id, phone: string, expiresAt: Time)

  /** Where a processInbound call stands once its row is committed. */
  datatype CallPhase = Stored | Clocked(serverNow: Time) | Promoted(bindingId: Id)

  datatype Call = Call(receiverId: Id, from: string, intent: Intent, phase: CallPhase)

  /** The database. */
  datatype Tables = Tables(
    receivers: map<Id, Receiver>,
    verifications: map<Id, Verification>,
    inbound: map<Id, Inbound>,
    bindings: map<Id, Binding>,
    endpoints: map<Id, Endpoint>,
    events: map<Id, Event>,
    deliveries: map<Id, Delivery>)

  /** What the running processes hold: background expiry tasks and calls. */
  datatype Live = Live(
    tasks: multiset<Id>,
    starts: map<Id, Start>,
    bindStarts: map<Id, BindStart>,
    calls: map<Id, Call>)

  /** History the schema does not keep: the endpoints an event was fanned out
      to, and the inbound that promoted a binding. */
  datatype Past = Past(fanout: map<Id, set<Id>>, boundBy: map<Id, Id>)

  datatype State = State(now: Time, nextId: Id, db: Tables, live: Live, past: Past)

  const Empty: State :=
    State(0, 0, Tables(map[], map[], map[], map[], map[], map[], map[]), Live(multiset{}, map[], map[], map[]), Past(map[], map[]))

  // ----- queries -----------------------------------------------------------

  function PendingFor(vs: map<Id, Verification>, appId: string, phone: string): set<Id> {
    set v | v in vs && vs[v].appId == appId && vs[v].phone == phone && vs[v].status == VerificationStatus.Pending
  }

  function PendingOn(vs: map<Id, Verification>, receiverId: Id): set<Id> {
    set v | v in vs && vs[v].receiverId == receiverId && vs[v].status == VerificationStatus.Pending
  }

  /** The rows the matcher's sub-select may return. */
  function Candidates(vs: map<Id, Verification>, receiverId: Id, phone: string, code: string, serverNow: Time): set<Id> {
    set v | v in vs && vs[v].receiverId == receiverId && vs[v].phone == phone && vs[v].code == code
            && vs[v].status == VerificationStatus.Pending && serverNow < vs[v].expiresAt
  }

  /** The rows the UPDATE of consumeBindNonce selects. */
  function Promotable(bs: map<Id, Binding>, receiverId: Id, phone: string, nonce: string, serverNow: Time): set<Id> {
    set b | b in bs && bs[b].nonce == nonce && bs[b].status == BindingStatus.Pending
            && bs[b].receiverId == receiverId && bs[b].phone == phone && serverNow < bs[b].expiresAt
  }

  predicate IsBound(bs: map<Id, Binding>, appId: string, phone: string) {
    exists b :: b in bs && bs[b].appId == appId && bs[b].phone == phone && bs[b].status == BindingStatus.Verified
  }

  /** Partial unique index `phone_bindings_active_uq`. */
  predicate ActiveUnique(bs: map<Id, Binding>) {
    forall a, b | a in bs && b in bs && SameActive(bs[a], bs[b]) :: a == b
  }

  predicate SameActive(a: Binding, b: Binding) {
    a.status == BindingStatus.Verified == b.status && a.appId == b.appId && a.phone == b.phone
  }

  function Subscribed(es: map<Id, Endpoint>, appId: string, kind: EventType): set<Id> {
    set e | e in es && es[e].appId == appId && es[e].enabled && kind in es[e].eventTypes
  }

  function Healthy(s: State, cfg: Config, appId: string, operator: Option<string>): set<Id> {
    set r | r in s.db.receivers && s.db.receivers[r].appId == appId && s.db.receivers[r].enabled
            && Fresh(s.db.receivers[r].lastHeartbeatAt, s.now, cfg.heartbeatTimeout)
            && (operator.None? || s.db.receivers[r].operator == operator)
  }

  predicate Fresh(lastHeartbeatAt: Option<Time>, now: Time, timeout: nat) {
    lastHeartbeatAt.Some? && now - timeout < lastHeartbeatAt.value
  }

  /** ORDER BY pending_count, created_at LIMIT 1: any row nothing precedes. */
  predicate First(s: State, among: set<Id>, r: Id)
    requires among <= s.db.receivers.Keys
  {
    r in among && forall q :: q in among ==> !Precedes(s, q, r)
  }

  predicate Precedes(s: State, q: Id, r: Id)
    requires q in s.db.receivers && r in s.db.receivers
  {
    var lq, lr := |PendingOn(s.db.verifications, q)|, |PendingOn(s.db.verifications, r)|;
    lq < lr || (lq == lr && s.db.receivers[q].createdAt < s.db.receivers[r].createdAt)
  }

  /** The receivers pickReceiver chooses among: those of the preferred operator
      when one of them is healthy, otherwise every healthy one of the app. */
  function Eligible(s: State, cfg: Config, appId: string, preferred: Option<string>): (among: set<Id>)
    ensures among <= s.db.receivers.Keys
  {
    if preferred.Some? && Healthy(s, cfg, appId, preferred) != {}
    then Healthy(s, cfg, appId, preferred)
    else Healthy(s, cfg, appId, None)
  }

  function LockKey(appId: string, phone: string): string { appId + ":" + phone }

  predicate HoldsLock(start: Start) { !start.phase.Idle? }

  function KeyOf(cfg: Config, start: Start): int { cfg.lockHash(LockKey(start.appId, start.phone)) }

  predicate LockFree(starts: map<Id, Start>, cfg: Config, id: Id)
    requires id in starts
  {
    forall o :: o in starts && HoldsLock(starts[o]) ==> KeyOf(cfg, starts[o]) != KeyOf(cfg, starts[id])
  }

  /** Another pending row already has this row's (receiver, phone, code). */
  predicate SameTriple(a: Verification, b: Verification) {
    a.receiverId == b.receiverId && a.phone == b.phone && a.code == b.code
  }

  predicate Collides(vs: map<Id, Verification>, row: Verification) {
    exists v :: v in vs && vs[v].status == VerificationStatus.Pending && SameTriple(vs[v], row)
  }

  /** An uncommitted insert of the same triple makes this insert wait. */
  predicate MustWait(starts: map<Id, Start>, row: Verification) {
    exists o :: o in starts && starts[o].phase.Inserted? && SameTriple(starts[o].phase.row, row)
  }

  predicate KeyTaken(inbound: map<Id, Inbound>, receiverId: Id, key: string) {
    exists i :: i in inbound && inbound[i].receiverId == receiverId && inbound[i].idempotencyKey == key
  }

  function Truncate(s: string, n: nat): string { if |s| <= n then s else s[..n] }

  function Sender(cfg: Config, from: string): string {
    match cfg.normalize(from)
    case Some(e164) => e164
    case None => Truncate(from, 32)
  }

  // ----- emission ----------------------------------------------------------

  function FinalStatus(kind: EventType): VerificationStatus {
    match kind
    case VerificationVerified => VerificationStatus.Verified
    case VerificationExpired => VerificationStatus.Expired
    case VerificationCancelled => VerificationStatus.Cancelled
  }

  /** buildVerificationEventData. */
  function DataFor(id: Id, row: Verification, kind: EventType): EventData {
    EventData(id, FinalStatus(kind),
              match kind
              case VerificationVerified => row.verifiedAt
              case VerificationExpired => Some(row.expiresAt)
              case VerificationCancelled => row.cancelledAt)
  }

  /** `order` lists the selected endpoints, each once, in query order. */
  predicate Lists(order: seq<Id>, ids: set<Id>) {
    && (forall i :: 0 <= i < |order| ==> order[i] in ids)
    && (forall e :: e in ids ==> e in order)
    && (forall i, j :: 0 <= i < j < |order| ==> order[i] != order[j])
  }

  function Slot(order: seq<Id>, base: Id, d: Id): Id
    requires base <= d < base + |order|
  {
    order[d - base]
  }

  function FanOut(base: Id, order: seq<Id>, eventId: Id, kind: EventType, at: Time): map<Id, Delivery> {
    map d: nat | base <= d < base + |order| :: Delivery(Slot(order, base, d), eventId, kind, DeliveryStatus.Pending, 0, at)
  }

  /** Replaces a verification row and emits its event, in one transaction. */
  function Finish(s: State, id: Id, row: Verification, kind: EventType, order: seq<Id>): State {
    var eventId := s.nextId;
    s.(db := s.db.(
         verifications := s.db.verifications[id := row],
         events := s.db.events[eventId := Event(row.appId, kind, DataFor(id, row, kind), s.now)],
         deliveries := s.db.deliveries + FanOut(eventId + 1, order, eventId, kind, s.now)),
       past := s.past.(fanout := s.past.fanout[eventId := Subscribed(s.db.endpoints, row.appId, kind)]),
       nextId := eventId + 1 + |order|)
  }

  // ----- receivers, endpoints, worker writes -------------------------------

  function AddReceiver(s: State, r: Receiver): State {
    s.(db := s.db.(receivers := s.db.receivers[s.nextId := r]), nextId := s.nextId + 1)
  }

  function TouchReceiver(s: State, id: Id, enabled: bool, lastHeartbeatAt: Option<Time>): State {
    if id in s.db.receivers
    then s.(db := s.db.(receivers := s.db.receivers[id := s.db.receivers[id].(enabled := enabled, lastHeartbeatAt := lastHeartbeatAt)]))
    else s
  }

  function AddEndpoint(s: State, e: Endpoint): State {
    s.(db := s.db.(endpoints := s.db.endpoints[s.nextId := e]), nextId := s.nextId + 1)
  }

  function EnableEndpoint(s: State, id: Id, enabled: bool): State {
    if id in s.db.endpoints then s.(db := s.db.(endpoints := s.db.endpoints[id := s.db.endpoints[id].(enabled := enabled)])) else s
  }

  /** The foreign key cascades to the endpoint's deliveries; events stay. */
  function DeleteEndpoint(s: State, appId: string, id: Id): State {
    if id in s.db.endpoints && s.db.endpoints[id].appId == appId
    then s.(db := s.db.(
              endpoints := s.db.endpoints - {id},
              deliveries := map d | d in s.db.deliveries && s.db.deliveries[d].endpointId != id :: s.db.deliveries[d]))
    else s
  }

  /** Any write of the delivery worker: it owns three columns of a delivery. */
  function WorkerWrite(s: State, id: Id, status: DeliveryStatus, attempts: nat, next: Time): State {
    if id in s.db.deliveries
    then s.(db := s.db.(deliveries := s.db.deliveries[id :=
              s.db.deliveries[id].(status := status, attemptCount := attempts, nextAttemptAt := next)]))
    else s
  }

  // ----- phone bindings ----------------------------------------------------

  function BeginBind(s: State, cfg: Config, appId: string, receiverId: Id, phone: string): State {
    var e164 := cfg.normalize(phone);
    if e164.None? then s                                                             // invalid phone
    else if receiverId !in s.db.receivers || s.db.receivers[receiverId].appId != appId then s  // not_found
    else if !s.db.receivers[receiverId].enabled then s                                  // receiver_disabled
    else if IsBound(s.db.bindings, appId, e164.value) then s                            // already_bound
    else s.(live := s.live.(bindStarts := s.live.bindStarts[
                s.nextId := BindStart(appId, receiverId, e164.value, s.now + cfg.bindingTtl)]),
            nextId := s.nextId + 1)
  }

  function InsertBind(s: State, id: Id, nonce: string): State {
    if id in s.live.bindStarts
    then var b := s.live.bindStarts[id];
         s.(db := s.db.(bindings := s.db.bindings[
              id := Binding(b.appId, b.receiverId, b.phone, BindingStatus.Pending, nonce, b.expiresAt, None, None)]),
            live := s.live.(bindStarts := s.live.bindStarts - {id}))
    else s
  }

  function RevokeBind(s: State, appId: string, id: Id): State {
    if id in s.db.bindings && s.db.bindings[id].appId == appId
    then s.(db := s.db.(bindings := s.db.bindings[id := s.db.bindings[id].(status := BindingStatus.Revoked, revokedAt := Some(s.now))]))
    else s
  }

  // ----- startVerification -------------------------------------------------

  function BeginStart(s: State, cfg: Config, appId: string, phone: string, preferred: Option<string>): State {
    if IsBound(s.db.bindings, appId, phone)
    then s.(live := s.live.(starts := s.live.starts[
                s.nextId := Start(appId, phone, preferred, s.now + cfg.verificationTtl, 0, Idle)]),
            nextId := s.nextId + 1)
    else s                                                                           // phone_not_bound
  }

  function TakeLock(s: State, cfg: Config, id: Id): State {
    if id in s.live.starts && s.live.starts[id].phase.Idle? && LockFree(s.live.starts, cfg, id)
    then SetPhase(s, id, Locked) else s
  }

  function CountPending(s: State, cfg: Config, id: Id): State {
    if id in s.live.starts && s.live.starts[id].phase.Locked?
    then if |PendingFor(s.db.verifications, s.live.starts[id].appId, s.live.starts[id].phone)| >= cfg.maxPendingPerPhone
         then EndStart(s, id)                                                        // too_many_pending
         else SetPhase(s, id, Counted)
    else s
  }

  function PickReceiver(s: State, cfg: Config, id: Id, r: Id): State {
    if id in s.live.starts && s.live.starts[id].phase.Counted?
    then var among := Eligible(s, cfg, s.live.starts[id].appId, s.live.starts[id].preferred);
         if among == {} then EndStart(s, id)                                         // no_receiver
         else if First(s, among, r) then SetPhase(s, id, Picked(r))
         else s
    else s
  }

  function NewRow(start: Start, receiverId: Id, code: string): Verification {
    Verification(start.appId, start.phone, receiverId, code, VerificationStatus.Pending, 0, start.expiresAt, None, None, None)
  }

  function InsertRow(s: State, cfg: Config, id: Id, code: string): State {
    if id in s.live.starts && s.live.starts[id].phase.Picked?
    then var start := s.live.starts[id];
         var row := NewRow(start, start.phase.receiverId, code);
         if Collides(s.db.verifications, row)                                           // 23505: roll back
         then if start.collisions + 1 >= MAX_CODE_COLLISION_RETRIES
              then EndStart(s, id)                                                   // code_generation_collision
              else s.(live := s.live.(starts := s.live.starts[id := start.(collisions := start.collisions + 1, phase := Idle)]))
         else if MustWait(s.live.starts, row) then s
         else SetPhase(s, id, Inserted(row))
    else s
  }

  function CommitStart(s: State, id: Id): State {
    if id in s.live.starts && s.live.starts[id].phase.Inserted?
    then s.(db := s.db.(verifications := s.db.verifications[id := s.live.starts[id].phase.row]),
            live := s.live.(starts := s.live.starts - {id}))
    else s
  }

  function SetPhase(s: State, id: Id, phase: StartPhase): State
    requires id in s.live.starts
  {
    s.(live := s.live.(starts := s.live.starts[id := s.live.starts[id].(phase := phase)]))
  }

  function EndStart(s: State, id: Id): State { s.(live := s.live.(starts := s.live.starts - {id})) }

  // ----- processInbound ----------------------------------------------------

  /** The request passed the body schema of the inbound route. */
  predicate WellFormed(from: string, body: string, key: string) {
    3 <= |from| <= 32 && 1 <= |body| <= MAX_BODY && 8 <= |key| <= 128
  }

  function StoreInbound(s: State, cfg: Config, receiverId: Id, from: string, body: string, key: string): State {
    if !WellFormed(from, body, key) || receiverId !in s.db.receivers then s             // 400 / 401
    else if KeyTaken(s.db.inbound, receiverId, key) then s                              // duplicate
    else var sender := Sender(cfg, from);
         s.(db := s.db.(inbound := s.db.inbound[s.nextId := Inbound(receiverId, sender, Truncate(body, MAX_BODY), key, None)]),
            live := s.live.(calls := s.live.calls[s.nextId := Call(receiverId, sender, cfg.parse(body), Stored)]),
            nextId := s.nextId + 1)
  }

  /** `serverNow = new Date()`, read before the claiming statement runs. */
  function ReadClock(s: State, id: Id): State {
    if id in s.live.calls && s.live.calls[id].phase.Stored?
    then s.(live := s.live.(calls := s.live.calls[id := s.live.calls[id].(phase := Clocked(s.now))])) else s
  }

  /** `locked` are candidate rows another transaction holds: SKIP LOCKED. */
  function ClaimVerification(s: State, id: Id, locked: set<Id>, pick: Id, order: seq<Id>): State {
    if id in s.live.calls && id in s.db.inbound && s.live.calls[id].phase.Clocked? && s.live.calls[id].intent.Verify?
    then var call := s.live.calls[id];
         var open := Candidates(s.db.verifications, call.receiverId, call.from, call.intent.code, call.phase.serverNow) - locked;
         if open == {} then s.(live := s.live.(calls := s.live.calls - {id}))                              // no_match
         else if pick !in open then s
         else var was := s.db.verifications[pick];
              var row := was.(status := VerificationStatus.Verified, verifiedAt := Some(call.phase.serverNow),
                              matchedInbound := Some(id), attempts := was.attempts + 1);
              if Lists(order, Subscribed(s.db.endpoints, row.appId, VerificationVerified))
              then Finish(s.(db := s.db.(inbound := s.db.inbound[id := s.db.inbound[id].(matched := Some(pick))]),
                             live := s.live.(calls := s.live.calls - {id})),
                          pick, row, VerificationVerified, order)
              else s
    else s
  }

  function Promote(bs: map<Id, Binding>, which: set<Id>, at: Time): map<Id, Binding> {
    map b | b in bs :: if b in which then bs[b].(status := BindingStatus.Verified, boundAt := Some(at)) else bs[b]
  }

  /** One UPDATE over every row it selects; the partial unique index makes the
      whole statement fail when it would leave two verified rows of one phone. */
  function ConsumeNonce(s: State, id: Id, pick: Id): State {
    if id in s.live.calls && s.live.calls[id].phase.Clocked? && s.live.calls[id].intent.Bind?
    then var call := s.live.calls[id];
         var which := Promotable(s.db.bindings, call.receiverId, call.from, call.intent.nonce, call.phase.serverNow);
         var after := Promote(s.db.bindings, which, call.phase.serverNow);
         if which == {} then s.(live := s.live.(calls := s.live.calls - {id}))                             // binding_no_match
         else if !ActiveUnique(after) then s.(live := s.live.(calls := s.live.calls - {id}))               // 23505, the call fails
         else if pick !in which then s
         else s.(db := s.db.(bindings := after),
                 past := s.past.(boundBy := s.past.boundBy + (map b | b in which :: id)),
                 live := s.live.(calls := s.live.calls[id := call.(phase := Promoted(pick))]))
    else s
  }

  function Annotate(s: State, id: Id): State {
    if id in s.live.calls && id in s.db.inbound && s.live.calls[id].phase.Promoted?
    then s.(db := s.db.(inbound := s.db.inbound[id := s.db.inbound[id].(matched := Some(s.live.calls[id].phase.bindingId))]),
            live := s.live.(calls := s.live.calls - {id}))
    else s
  }

  /** Neither BIND nor VERIFY: the call returns as soon as its row is stored. */
  function Return(s: State, id: Id): State {
    if id in s.live.calls && s.live.calls[id].phase.Stored? && s.live.calls[id].intent.Nothing? then CrashCall(s, id) else s
  }

  /** The server dies, or an error ends the call: nothing resumes it. */
  function CrashCall(s: State, id: Id): State { s.(live := s.live.(calls := s.live.calls - {id})) }

  // ----- cancel, read, expire ----------------------------------------------

  function Cancel(s: State, appId: string, id: Id, order: seq<Id>): State {
    if id in s.db.verifications && s.db.verifications[id].appId == appId
       && s.db.verifications[id].status == VerificationStatus.Pending
       && Lists(order, Subscribed(s.db.endpoints, appId, VerificationCancelled))
    then Finish(s, id, s.db.verifications[id].(status := VerificationStatus.Cancelled, cancelledAt := Some(s.now)),
                VerificationCancelled, order)
    else s
  }

  /** The status every read path reports: a pending row past its TTL is shown
      as expired before any statement has made it so. */
  function Reported(row: Verification, now: Time): VerificationStatus {
    if row.status == VerificationStatus.Pending && row.expiresAt <= now then VerificationStatus.Expired else row.status
  }

  function Read(s: State, id: Id): State {
    if id in s.db.verifications && s.db.verifications[id].status == VerificationStatus.Pending
       && s.db.verifications[id].expiresAt <= s.now
    then s.(live := s.live.(tasks := s.live.tasks + multiset{id})) else s
  }

  /** lazyExpireAndEmit: the UPDATE tests the status, not expires_at. */
  function RunExpiry(s: State, id: Id, order: seq<Id>): State {
    if id !in s.live.tasks || id !in s.db.verifications then s
    else var done := s.(live := s.live.(tasks := s.live.tasks - multiset{id}));
         var row := s.db.verifications[id];
         if row.status != VerificationStatus.Pending then done
         else if Lists(order, Subscribed(s.db.endpoints, row.appId, VerificationExpired))
         then Finish(done, id, row.(status := VerificationStatus.Expired), VerificationExpired, order)
         else s
  }

  // ----- runs --------------------------------------------------------------

  datatype AdminStep =
    | DoAddReceiver(r: Receiver)
    | DoTouchReceiver(id: Id, enabled: bool, lastHeartbeatAt: Option<Time>)
    | DoAddEndpoint(e: Endpoint)
    | DoEnableEndpoint(id: Id, enabled: bool)
    | DoDeleteEndpoint(appId: string, id: Id)
    | DoWorkerWrite(id: Id, status: DeliveryStatus, attempts: nat, next: Time)

  datatype BindStep =
    | DoBeginBind(appId: string, receiverId: Id, phone: string)
    | DoInsertBind(id: Id, nonce: string)
    | DoRevokeBind(appId: string, id: Id)

  datatype StartStep =
    | DoBeginStart(appId: string, phone: string, preferred: Option<string>)
    | DoTakeLock(id: Id)
    | DoCountPending(id: Id)
    | DoPickReceiver(id: Id, receiverId: Id)
    | DoInsertRow(id: Id, code: string)
    | DoCommitStart(id: Id)
    | DoAbandonStart(id: Id)

  datatype InboundStep =
    | DoStoreInbound(receiverId: Id, from: string, body: string, key: string)
    | DoReadClock(id: Id)
    | DoClaim(id: Id, locked: set<Id>, pick: Id, order: seq<Id>)
    | DoConsumeNonce(id: Id, pick: Id)
    | DoAnnotate(id: Id)
    | DoReturn(id: Id)
    | DoCrashCall(id: Id)

  datatype CloseStep =
    | DoCancel(appId: string, id: Id, order: seq<Id>)
    | DoRead(id: Id)
    | DoRunExpiry(id: Id, order: seq<Id>)
    | DoLoseTask(id: Id)
    | DoRepeatTask(id: Id)

  datatype Step =
    | Tick(dt: nat)
    | Admin(admin: AdminStep)
    | Binds(bind: BindStep)
    | Starts(start: StartStep)
    | Inbounds(inbound: InboundStep)
    | Closes(close: CloseStep)

  function ApplyAdmin(s: State, step: AdminStep): State {
    match step
    case DoAddReceiver(r) => AddReceiver(s, r)
    case DoTouchReceiver(id, enabled, hb) => TouchReceiver(s, id, enabled, hb)
    case DoAddEndpoint(e) => AddEndpoint(s, e)
    case DoEnableEndpoint(id, enabled) => EnableEndpoint(s, id, enabled)
    case DoDeleteEndpoint(appId, id) => DeleteEndpoint(s, appId, id)
    case DoWorkerWrite(id, status, attempts, next) => WorkerWrite(s, id, status, attempts, next)
  }

  function ApplyBind(s: State, cfg: Config, step: BindStep): State {
    match step
    case DoBeginBind(appId, r, phone) => BeginBind(s, cfg, appId, r, phone)
    case DoInsertBind(id, nonce) => InsertBind(s, id, nonce)
    case DoRevokeBind(appId, id) => RevokeBind(s, appId, id)
  }

  function ApplyStart(s: State, cfg: Config, step: StartStep): State {
    match step
    case DoBeginStart(appId, phone, preferred) => BeginStart(s, cfg, appId, phone, preferred)
    case DoTakeLock(id) => TakeLock(s, cfg, id)
    case DoCountPending(id) => CountPending(s, cfg, id)
    case DoPickReceiver(id, r) => PickReceiver(s, cfg, id, r)
    case DoInsertRow(id, code) => InsertRow(s, cfg, id, code)
    case DoCommitStart(id) => CommitStart(s, id)
    case DoAbandonStart(id) => EndStart(s, id)
  }

  function ApplyInbound(s: State, cfg: Config, step: InboundStep): State {
    match step
    case DoStoreInbound(r, from, body, key) => StoreInbound(s, cfg, r, from, body, key)
    case DoReadClock(id) => ReadClock(s, id)
    case DoClaim(id, locked, pick, order) => ClaimVerification(s, id, locked, pick, order)
    case DoConsumeNonce(id, pick) => ConsumeNonce(s, id, pick)
    case DoAnnotate(id) => Annotate(s, id)
    case DoReturn(id) => Return(s, id)
    case DoCrashCall(id) => CrashCall(s, id)
  }

  function ApplyClose(s: State, step: CloseStep): State {
    match step
    case DoCancel(appId, id, order) => Cancel(s, appId, id, order)
    case DoRead(id) => Read(s, id)
    case DoRunExpiry(id, order) => RunExpiry(s, id, order)
    case DoLoseTask(id) => s.(live := s.live.(tasks := s.live.tasks - multiset{id}))
    case DoRepeatTask(id) => if id in s.live.tasks then s.(live := s.live.(tasks := s.live.tasks + multiset{id})) else s
  }

  function Apply(s: State, cfg: Config, step: Step): State {
    match step
    case Tick(dt) => s.(now := s.now + dt)
    case Admin(a) => ApplyAdmin(s, a)
    case Binds(b) => ApplyBind(s, cfg, b)
    case Starts(st) => ApplyStart(s, cfg, st)
    case Inbounds(i) => ApplyInbound(s, cfg, i)
    case Closes(c) => ApplyClose(s, c)
  }

  /** The state a run ends in. */
  function Exec(s: State, cfg: Config, run: seq<Step>): State
    decreases |run|
  {
    if run == [] then s else Exec(Apply(s, cfg, run[0]), cfg, run[1..])
  }

  lemma ExecOne(s: State, cfg: Config, step: Step)
    ensures Exec(s, cfg, [step]) == Apply(s, cfg, step)
  {
    assert Exec(Apply(s, cfg, step), cfg, [step][1..]) == Apply(s, cfg, step);
  }

  lemma {:induction false} ExecConcat(s: State, cfg: Config, a: seq<Step>, b: seq<Step>)
    ensures Exec(s, cfg, a + b) == Exec(Exec(s, cfg, a), cfg, b)
    decreases |a|
  {
    if a == [] {
      assert a + b == b;
    } else {
      assert (a + b)[1..] == a[1..] + b;
      ExecConcat(Apply(s, cfg, a[0]), cfg, a[1..], b);
    }
  }

  lemma ExecThen(s: State, cfg: Config, run: seq<Step>, step: Step)
    ensures Exec(s, cfg, run + [step]) == Apply(Exec(s, cfg, run), cfg, step)
  {
    ExecConcat(s, cfg, run, [step]);
    ExecOne(Exec(s, cfg, run), cfg, step);
  }
}
