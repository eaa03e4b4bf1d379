/** What every state of every run satisfies. Each predicate names only the
    tables it speaks of, so a step that leaves them alone keeps it at once. */
module Invariant {
  import opened Wrappers
  import opened Schema
  import opened Store

  // ----- ids and references ------------------------------------------------

  ghost predicate Below(keys: set<Id>, n: Id) { forall k :: k in keys ==> k < n }

  ghost predicate FanoutBelow(fanout: map<Id, set<Id>>, n: Id) { forall e :: e in fanout ==> Below(fanout[e], n) }

  /** The next id is fresh, and a call in flight keeps the id its row will get. */
  ghost predicate IdsBelow(s: State) {
    && Below(s.db.receivers.Keys, s.nextId)
    && Below(s.db.verifications.Keys, s.nextId)
    && Below(s.db.inbound.Keys, s.nextId)
    && Below(s.db.bindings.Keys, s.nextId)
    && Below(s.db.endpoints.Keys, s.nextId)
    && Below(s.db.events.Keys, s.nextId)
    && Below(s.db.deliveries.Keys, s.nextId)
    && Below(s.live.starts.Keys, s.nextId)
    && Below(s.live.bindStarts.Keys, s.nextId)
    && Below(s.live.calls.Keys, s.nextId)
    && FanoutBelow(s.past.fanout, s.nextId)
    && s.live.starts.Keys !! s.db.verifications.Keys
    && s.live.bindStarts.Keys !! s.db.bindings.Keys
  }

  ghost predicate OfApp(receivers: map<Id, Receiver>, r: Id, appId: string) {
    r in receivers && receivers[r].appId == appId
  }

  /** A verification, a binding and every call about to create one names a
      receiver of its own app. */
  ghost predicate Homed(receivers: map<Id, Receiver>, vs: map<Id, Verification>, starts: map<Id, Start>,
                        bs: map<Id, Binding>, bindStarts: map<Id, BindStart>) {
    && (forall v :: v in vs ==> OfApp(receivers, vs[v].receiverId, vs[v].appId))
    && (forall o :: o in starts && starts[o].phase.Picked? ==>
          OfApp(receivers, starts[o].phase.receiverId, starts[o].appId))
    && (forall o :: o in starts && starts[o].phase.Inserted? ==>
          OfApp(receivers, starts[o].phase.row.receiverId, starts[o].appId))
    && (forall b :: b in bs ==> OfApp(receivers, bs[b].receiverId, bs[b].appId))
    && (forall b :: b in bindStarts ==> OfApp(receivers, bindStarts[b].receiverId, bindStarts[b].appId))
  }

  // ----- pending rows ------------------------------------------------------

  /** Partial unique index `verifications_pending_uniq`. */
  ghost predicate PendingUnique(vs: map<Id, Verification>) {
    forall a, b | a in vs && b in vs && vs[a].status == VerificationStatus.Pending == vs[b].status
                  && SameTriple(vs[a], vs[b]) :: a == b
  }

  /** An inserted, uncommitted row is a new pending row of its call, and would
      keep the index if it were committed now, together with any other. */
  ghost predicate InsertsSafe(vs: map<Id, Verification>, starts: map<Id, Start>) {
    && (forall o :: o in starts && starts[o].phase.Inserted? ==>
          && starts[o].phase.row == NewRow(starts[o], starts[o].phase.row.receiverId, starts[o].phase.row.code)
          && !Collides(vs, starts[o].phase.row))
    && (forall a, b | a in starts && b in starts && starts[a].phase.Inserted? && starts[b].phase.Inserted?
                      && SameTriple(starts[a].phase.row, starts[b].phase.row) :: a == b)
  }

  /** Mutual exclusion of the advisory lock, whatever the hash does. */
  ghost predicate LocksApart(cfg: Config, starts: map<Id, Start>) {
    forall a, b | a in starts && b in starts && HoldsLock(starts[a]) && HoldsLock(starts[b])
                  && KeyOf(cfg, starts[a]) == KeyOf(cfg, starts[b]) :: a == b
  }

  predicate PastCount(start: Start) { start.phase.Counted? || start.phase.Picked? || start.phase.Inserted? }

  ghost predicate WithinCap(cfg: Config, vs: map<Id, Verification>, starts: map<Id, Start>) {
    && (forall appId, phone :: |PendingFor(vs, appId, phone)| <= cfg.maxPendingPerPhone)
    && (forall o :: o in starts && PastCount(starts[o]) ==>
          |PendingFor(vs, starts[o].appId, starts[o].phone)| < cfg.maxPendingPerPhone)
  }

  // ----- inbound messages and what they decided ----------------------------

  /** Unique index `inbound_sms_idem_uq`, and every sender has a receiver. */
  ghost predicate Idempotent(receivers: map<Id, Receiver>, inbound: map<Id, Inbound>) {
    && (forall a, b | a in inbound && b in inbound && inbound[a].receiverId == inbound[b].receiverId
                      && inbound[a].idempotencyKey == inbound[b].idempotencyKey :: a == b)
    && (forall i :: i in inbound ==> inbound[i].receiverId in receivers && 1 <= |inbound[i].body| <= MAX_BODY)
  }

  /** The inbound `i` is evidence for verification `v`. */
  ghost predicate Proves(cfg: Config, i: Inbound, v: Id, row: Verification) {
    && i.receiverId == row.receiverId
    && i.from == row.phone
    && cfg.parse(i.body) == Verify(row.code)
    && i.matched == Some(v)
  }

  ghost predicate VerifiedWell(cfg: Config, inbound: map<Id, Inbound>, v: Id, row: Verification) {
    && row.attempts == 1
    && row.verifiedAt.Some? && row.verifiedAt.value < row.expiresAt
    && row.matchedInbound.Some? && row.matchedInbound.value in inbound
    && Proves(cfg, inbound[row.matchedInbound.value], v, row)
  }

  ghost predicate Untouched(row: Verification) {
    row.attempts == 0 && row.verifiedAt.None? && row.matchedInbound.None?
  }

  ghost predicate ClaimsSound(cfg: Config, vs: map<Id, Verification>, inbound: map<Id, Inbound>) {
    && (forall v :: v in vs && vs[v].status == VerificationStatus.Verified ==> VerifiedWell(cfg, inbound, v, vs[v]))
    && (forall v :: v in vs && vs[v].status != VerificationStatus.Verified ==> Untouched(vs[v]))
    && (forall v :: v in vs ==> vs[v].status != VerificationStatus.Failed)
    && (forall v :: v in vs ==> (vs[v].status == VerificationStatus.Cancelled <==> vs[v].cancelledAt.Some?))
    && (forall i :: i in inbound && inbound[i].matched.Some? && cfg.parse(inbound[i].body).Verify? ==>
          && inbound[i].matched.value in vs
          && vs[inbound[i].matched.value].matchedInbound == Some(i))
    && (forall i :: i in inbound && cfg.parse(inbound[i].body).Nothing? ==> inbound[i].matched.None?)
  }

  /** The inbound `boundBy[b]` is evidence for binding `b`. */
  ghost predicate BoundWell(cfg: Config, inbound: map<Id, Inbound>, boundBy: map<Id, Id>, b: Id, row: Binding) {
    && row.boundAt.Some? && row.boundAt.value < row.expiresAt
    && b in boundBy && boundBy[b] in inbound
    && inbound[boundBy[b]].receiverId == row.receiverId
    && inbound[boundBy[b]].from == row.phone
    && cfg.parse(inbound[boundBy[b]].body) == Bind(row.nonce)
  }

  ghost predicate BindingsSound(cfg: Config, bs: map<Id, Binding>, inbound: map<Id, Inbound>, boundBy: map<Id, Id>) {
    && ActiveUnique(bs)
    && (forall b :: b in bs && bs[b].status == BindingStatus.Pending ==> bs[b].boundAt.None?)
    && (forall b :: b in bs && bs[b].status == BindingStatus.Verified ==> bs[b].boundAt.Some?)
    && (forall b :: b in bs ==> (bs[b].status == BindingStatus.Revoked <==> bs[b].revokedAt.Some?))
    && (forall b :: b in bs && bs[b].boundAt.Some? ==> BoundWell(cfg, inbound, boundBy, b, bs[b]))
    && (forall b :: b in boundBy ==> b in bs && bs[b].boundAt.Some?)
    && (forall a, b | a in boundBy && b in boundBy && boundBy[a] == boundBy[b] :: a == b)
    && (forall i :: i in inbound && inbound[i].matched.Some? && cfg.parse(inbound[i].body).Bind? ==>
          && inbound[i].matched.value in boundBy && boundBy[inbound[i].matched.value] == i)
  }

  /** A call in flight agrees with its stored row and has decided nothing yet,
      except that a promoted one has its binding. */
  ghost predicate CallOk(cfg: Config, inbound: map<Id, Inbound>, boundBy: map<Id, Id>, c: Id, call: Call) {
    && c in inbound
    && call.receiverId == inbound[c].receiverId
    && call.from == inbound[c].from
    && call.intent == cfg.parse(inbound[c].body)
    && inbound[c].matched.None?
    && (if call.phase.Promoted? then call.intent.Bind? && call.phase.bindingId in boundBy && boundBy[call.phase.bindingId] == c
        else forall b :: b in boundBy ==> boundBy[b] != c)
  }

  ghost predicate CallsSound(cfg: Config, inbound: map<Id, Inbound>, boundBy: map<Id, Id>, calls: map<Id, Call>) {
    && (forall c :: c in calls ==> CallOk(cfg, inbound, boundBy, c, calls[c]))
    && (forall b :: b in boundBy ==> boundBy[b] in inbound)
  }

  // ----- time --------------------------------------------------------------

  /** The timestamp in the payload is one the event did not precede. */
  ghost predicate Timely(e: Event, now: Time) {
    e.data.at.Some? && e.data.at.value <= e.createdAt <= now
  }

  ghost predicate TasksDue(vs: map<Id, Verification>, tasks: multiset<Id>, now: Time) {
    forall t :: t in tasks ==> t in vs && vs[t].expiresAt <= now
  }

  /** No row expires early, and no claim is dated in the future. */
  ghost predicate RowOnTime(row: Verification, now: Time) {
    && (row.status == VerificationStatus.Expired ==> row.expiresAt <= now)
    && (row.verifiedAt.Some? ==> row.verifiedAt.value <= now)
  }

  ghost predicate OnTime(vs: map<Id, Verification>, bs: map<Id, Binding>, calls: map<Id, Call>,
                         events: map<Id, Event>, tasks: multiset<Id>, now: Time) {
    && TasksDue(vs, tasks, now)
    && (forall v :: v in vs ==> RowOnTime(vs[v], now))
    && (forall b :: b in bs && bs[b].boundAt.Some? ==> bs[b].boundAt.value <= now)
    && (forall c :: c in calls && calls[c].phase.Clocked? ==> calls[c].phase.serverNow <= now)
    && (forall e :: e in events ==> Timely(events[e], now))
  }

  // ----- prior binding -----------------------------------------------------

  ghost predicate OnceBound(bs: map<Id, Binding>, appId: string, phone: string) {
    exists b :: b in bs && bs[b].appId == appId && bs[b].phone == phone && bs[b].boundAt.Some?
  }

  ghost predicate BoundFirst(vs: map<Id, Verification>, starts: map<Id, Start>, bs: map<Id, Binding>) {
    && (forall v :: v in vs ==> OnceBound(bs, vs[v].appId, vs[v].phone))
    && (forall o :: o in starts ==> OnceBound(bs, starts[o].appId, starts[o].phone))
  }

  // ----- outbox ------------------------------------------------------------

  ghost predicate EventOk(vs: map<Id, Verification>, e: Event) {
    && e.data.verificationId in vs
    && vs[e.data.verificationId].status == FinalStatus(e.eventType)
    && e.appId == vs[e.data.verificationId].appId
    && e.data == DataFor(e.data.verificationId, vs[e.data.verificationId], e.eventType)
  }

  ghost predicate HasEvent(events: map<Id, Event>, v: Id) {
    exists e :: e in events && events[e].data.verificationId == v
  }

  ghost predicate EventsExact(vs: map<Id, Verification>, events: map<Id, Event>) {
    && (forall e :: e in events ==> EventOk(vs, events[e]))
    && (forall a, b | a in events && b in events && events[a].data.verificationId == events[b].data.verificationId :: a == b)
    && (forall v :: v in vs && vs[v].status != VerificationStatus.Pending ==> HasEvent(events, v))
  }

  ghost predicate Delivers(d: Delivery, e: Id, p: Id) { d.eventId == e && d.endpointId == p }

  ghost predicate HasDelivery(deliveries: map<Id, Delivery>, e: Id, p: Id) {
    exists d :: d in deliveries && Delivers(deliveries[d], e, p)
  }

  predicate Subscribes(p: Endpoint, e: Event) { p.appId == e.appId && e.eventType in p.eventTypes }

  ghost predicate DeliveriesRefer(endpoints: map<Id, Endpoint>, events: map<Id, Event>,
                                  deliveries: map<Id, Delivery>, fanout: map<Id, set<Id>>) {
    forall d :: d in deliveries ==>
      && deliveries[d].eventId in events
      && deliveries[d].endpointId in endpoints
      && deliveries[d].eventId in fanout
      && deliveries[d].endpointId in fanout[deliveries[d].eventId]
      && deliveries[d].eventType == events[deliveries[d].eventId].eventType
  }

  ghost predicate DeliveriesSingle(deliveries: map<Id, Delivery>) {
    forall a, b | a in deliveries && b in deliveries
                  && Delivers(deliveries[a], deliveries[b].eventId, deliveries[b].endpointId) :: a == b
  }

  ghost predicate DeliveriesComplete(endpoints: map<Id, Endpoint>, deliveries: map<Id, Delivery>, fanout: map<Id, set<Id>>) {
    forall e, p :: e in fanout && p in fanout[e] && p in endpoints ==> HasDelivery(deliveries, e, p)
  }

  ghost predicate FanoutSubscribes(endpoints: map<Id, Endpoint>, events: map<Id, Event>, fanout: map<Id, set<Id>>) {
    && fanout.Keys == events.Keys
    && (forall e, p :: e in fanout && p in fanout[e] && p in endpoints ==> Subscribes(endpoints[p], events[e]))
  }

  /** Every event has exactly one delivery for each endpoint it was fanned out
      to and that still exists. */
  ghost predicate FanoutExact(endpoints: map<Id, Endpoint>, events: map<Id, Event>,
                              deliveries: map<Id, Delivery>, fanout: map<Id, set<Id>>) {
    && DeliveriesRefer(endpoints, events, deliveries, fanout)
    && DeliveriesSingle(deliveries)
    && DeliveriesComplete(endpoints, deliveries, fanout)
    && FanoutSubscribes(endpoints, events, fanout)
  }

  // ----- all of it ---------------------------------------------------------

  ghost predicate PendingSafe(cfg: Config, vs: map<Id, Verification>, starts: map<Id, Start>) {
    && PendingUnique(vs)
    && InsertsSafe(vs, starts)
    && LocksApart(cfg, starts)
    && WithinCap(cfg, vs, starts)
  }

  ghost predicate MessagesSound(cfg: Config, receivers: map<Id, Receiver>, vs: map<Id, Verification>, bs: map<Id, Binding>,
                                inbound: map<Id, Inbound>, boundBy: map<Id, Id>, calls: map<Id, Call>) {
    && Idempotent(receivers, inbound)
    && ClaimsSound(cfg, vs, inbound)
    && BindingsSound(cfg, bs, inbound, boundBy)
    && CallsSound(cfg, inbound, boundBy, calls)
  }

  ghost predicate OutboxExact(vs: map<Id, Verification>, endpoints: map<Id, Endpoint>, events: map<Id, Event>,
                              deliveries: map<Id, Delivery>, fanout: map<Id, set<Id>>) {
    && EventsExact(vs, events)
    && FanoutExact(endpoints, events, deliveries, fanout)
  }

  ghost predicate Inv(s: State, cfg: Config) {
    && IdsBelow(s)
    && Homed(s.db.receivers, s.db.verifications, s.live.starts, s.db.bindings, s.live.bindStarts)
    && PendingSafe(cfg, s.db.verifications, s.live.starts)
    && MessagesSound(cfg, s.db.receivers, s.db.verifications, s.db.bindings, s.db.inbound, s.past.boundBy, s.live.calls)
    && OnTime(s.db.verifications, s.db.bindings, s.live.calls, s.db.events, s.live.tasks, s.now)
    && BoundFirst(s.db.verifications, s.live.starts, s.db.bindings)
    && OutboxExact(s.db.verifications, s.db.endpoints, s.db.events, s.db.deliveries, s.past.fanout)
  }

  lemma InvInitially(cfg: Config)
    ensures Inv(Empty, cfg)
  {
    forall appId, phone
      ensures |PendingFor(map[], appId, phone)| <= cfg.maxPendingPerPhone
    {
      assert PendingFor(map[], appId, phone) == {};
    }
  }
}
