/** The server's transactions as code that updates tables in place. Every
    method says which run of the state machine it performs, so what is proved
    of all runs holds of every sequence of calls; and it says outright what it
    returns and what it changed. */
module Server {
  import opened Wrappers
  import opened Schema
  import opened Store
  import opened Columns
  import opened Invariant
  import opened StepLemmas
  import opened OutboxLemmas
  import opened ClaimLemmas
  import opened Guarantees
  import opened EventTypes

  datatype CancelResult = CancelNotFound | NotPending | CancelOk

  datatype StartResult =
    | PhoneNotBound
    | TooManyPending
    | NoReceiver
    | CodeCollision
    | Started(id: Id, receiverId: Id, code: string)

  datatype BindResult = InvalidPhone | ReceiverNotFound | ReceiverDisabled | AlreadyBound | BindStarted(bindingId: Id)

  datatype MatchResult =
    | Rejected
    | Duplicate(priorId: Id)
    | NoMatch(inboundId: Id)
    | MatchedVerification(inboundId: Id, verificationId: Id)
    | BindingNoMatch(inboundId: Id)
    | BindingFailed(inboundId: Id)
    | MatchedBinding(inboundId: Id, bindingId: Id)

  lemma FanOutNone(base: Id, eventId: Id, kind: EventType, at: Time)
    ensures FanOut(base, [], eventId, kind, at) == map[]
  {
  }

  lemma FanOutGrows(base: Id, order: seq<Id>, e: Id, eventId: Id, kind: EventType, at: Time)
    ensures FanOut(base, order + [e], eventId, kind, at)
         == FanOut(base, order, eventId, kind, at)[base + |order| := Delivery(e, eventId, kind, DeliveryStatus.Pending, 0, at)]
  {
  }

  /** From `base` on there is a pending delivery of the event for each endpoint of
      the list, unattempted and due at once; and all other rows are as before. */
  ghost predicate RowsAdded(before: map<Id, Delivery>, after: map<Id, Delivery>, base: Id, order: seq<Id>,
                            eventId: Id, kind: EventType, at: Time) {
    && (forall i :: 0 <= i < |order| ==>
          base + i in after && after[base + i] == Delivery(order[i], eventId, kind, DeliveryStatus.Pending, 0, at))
    && (forall d :: !(base <= d < base + |order|) ==>
          (d in after <==> d in before) && (d in before ==> after[d] == before[d]))
  }

  lemma FanOutAdds(before: map<Id, Delivery>, base: Id, order: seq<Id>, eventId: Id, kind: EventType, at: Time)
    ensures RowsAdded(before, before + FanOut(base, order, eventId, kind, at), base, order, eventId, kind, at)
  {
    var rows := FanOut(base, order, eventId, kind, at);
    forall i | 0 <= i < |order|
      ensures base + i in rows && rows[base + i] == Delivery(order[i], eventId, kind, DeliveryStatus.Pending, 0, at)
    {
      assert Slot(order, base, base + i) == order[i];
    }
  }

  /** The list has every endpoint of the app that is enabled and subscribed to
      the event type, each once, and no other. */
  ghost predicate EachOnce(order: seq<Id>, es: map<Id, Endpoint>, appId: string, kind: EventType) {
    && (forall e :: e in order <==> e in es && es[e].appId == appId && es[e].enabled && kind in es[e].eventTypes)
    && (forall i, j :: 0 <= i < j < |order| ==> order[i] != order[j])
  }

  lemma ListsEachOnce(order: seq<Id>, es: map<Id, Endpoint>, appId: string, kind: EventType)
    requires Lists(order, Subscribed(es, appId, kind))
    ensures EachOnce(order, es, appId, kind)
  {
  }

  lemma ExecNone(s: State, cfg: Config)
    ensures Exec(s, cfg, []) == s
  {
  }

  /** What an outcome puts in the message's match column. */
  function MatchIn(r: MatchResult): Option<Id> {
    match r
    case MatchedVerification(_, v) => Some(v)
    case MatchedBinding(_, b) => Some(b)
    case _ => None
  }

  /** The outcome of a VERIFY message: it verifies a row that awaits it, by one
      attempt, in this message's name and at this time, or none does. */
  ghost predicate VerifyDecided(r: MatchResult, vs: map<Id, Verification>, vs': map<Id, Verification>,
                                receiverId: Id, phone: string, code: string, at: Time) {
    && (r.MatchedVerification? <==> exists v :: v in vs && Awaits(vs[v], receiverId, phone, code, at))
    && (r.MatchedVerification? ==>
          && r.verificationId in vs && Awaits(vs[r.verificationId], receiverId, phone, code, at)
          && vs' == vs[r.verificationId := vs[r.verificationId].(
               status := VerificationStatus.Verified, verifiedAt := Some(at), matchedInbound := Some(r.inboundId),
               attempts := vs[r.verificationId].attempts + 1)])
    && (!r.MatchedVerification? ==> r.NoMatch? && vs' == vs)
  }

  /** The outcome of a BIND message: it verifies a binding that awaits it, or none
      does, or the index of active bindings refuses. */
  ghost predicate BindDecided(r: MatchResult, bs: map<Id, Binding>, bs': map<Id, Binding>,
                              receiverId: Id, phone: string, nonce: string, at: Time) {
    && (r.BindingNoMatch? <==> forall b :: b in bs ==> !AwaitsBind(bs[b], receiverId, phone, nonce, at))
    && (r.BindingFailed? <==> WouldDouble(bs, receiverId, phone, nonce, at))
    && (r.BindingNoMatch? || r.BindingFailed? || r.MatchedBinding?)
    && (r.MatchedBinding? ==>
          && r.bindingId in bs && AwaitsBind(bs[r.bindingId], receiverId, phone, nonce, at)
          && bs' == bs[r.bindingId := bs[r.bindingId].(status := BindingStatus.Verified, boundAt := Some(at))])
    && (!r.MatchedBinding? ==> bs' == bs)
  }

  /** What a stored message has decided, by what its body asks for; nothing else
      has changed. */
  ghost predicate Decided(r: MatchResult, receiverId: Id, sender: string, intent: Intent, at: Time,
                          vs: map<Id, Verification>, vs': map<Id, Verification>, bs: map<Id, Binding>, bs': map<Id, Binding>) {
    match intent
    case Nothing => r.NoMatch? && vs' == vs && bs' == bs
    case Bind(nonce) => vs' == vs && BindDecided(r, bs, bs', receiverId, sender, nonce, at)
    case Verify(code) => bs' == bs && VerifyDecided(r, vs, vs', receiverId, sender, code, at)
  }

  lemma ExpiryIs(s: State, id: Id)
    requires id in s.live.tasks && id in s.db.verifications
    ensures forall order ::
      var done := s.(live := s.live.(tasks := s.live.tasks - multiset{id}));
      if s.db.verifications[id].status != VerificationStatus.Pending then RunExpiry(s, id, order) == done
      else Lists(order, Subscribed(s.db.endpoints, s.db.verifications[id].appId, VerificationExpired)) ==>
        RunExpiry(s, id, order)
          == Finish(done, id, s.db.verifications[id].(status := VerificationStatus.Expired), VerificationExpired, order)
  {
    hide Finish, Lists, Subscribed;
  }

  /** The idempotent insert of a well-formed message is of the whole body. */
  lemma StoreIs(s: State, cfg: Config, receiverId: Id, from: string, body: string, key: string)
    requires WellFormed(from, body, key) && receiverId in s.db.receivers
    ensures Truncate(body, MAX_BODY) == body
    ensures Apply(s, cfg, Inbounds(DoStoreInbound(receiverId, from, body, key))) ==
      if exists i :: i in s.db.inbound && s.db.inbound[i].receiverId == receiverId && s.db.inbound[i].idempotencyKey == key then s
      else s.(db := s.db.(inbound := s.db.inbound[s.nextId := Inbound(receiverId, Sender(cfg, from), body, key, None)]),
              live := s.live.(calls := s.live.calls[s.nextId := Call(receiverId, Sender(cfg, from), cfg.parse(body), Stored)]),
              nextId := s.nextId + 1)
  {
    hide Sender;
  }

  /** startBinding's checks pass. */
  ghost predicate MayBind(s: State, cfg: Config, appId: string, receiverId: Id, phone: string) {
    && cfg.normalize(phone).Some?
    && receiverId in s.db.receivers && s.db.receivers[receiverId].appId == appId && s.db.receivers[receiverId].enabled
    && !HasActive(s.db.bindings, appId, cfg.normalize(phone).value)
  }

  lemma BindIs(s: State, cfg: Config, appId: string, receiverId: Id, phone: string, nonce: string)
    requires MayBind(s, cfg, appId, receiverId, phone) && s.nextId !in s.live.bindStarts
    ensures InsertBind(BeginBind(s, cfg, appId, receiverId, phone), s.nextId, nonce)
      == s.(db := s.db.(bindings := s.db.bindings[s.nextId :=
              Binding(appId, receiverId, cfg.normalize(phone).value, BindingStatus.Pending, nonce, s.now + cfg.bindingTtl, None, None)]),
            nextId := s.nextId + 1)
  {
    BoundIff(s.db.bindings, appId, cfg.normalize(phone).value);
    hide IsBound, HasActive;
  }

  /** A promotion that commits changes the one row it picked. */
  lemma PromotesExactly(s: State, cfg: Config, id: Id, pick: Id)
    requires Inv(s, cfg)
    requires id in s.live.calls && s.live.calls[id].phase.Clocked? && s.live.calls[id].intent.Bind?
    requires var c := s.live.calls[id];
             var which := Promotable(s.db.bindings, c.receiverId, c.from, c.intent.nonce, c.phase.serverNow);
             pick in which && ActiveUnique(Promote(s.db.bindings, which, c.phase.serverNow))
    ensures pick in s.db.bindings
    ensures var c := s.live.calls[id];
            var which := Promotable(s.db.bindings, c.receiverId, c.from, c.intent.nonce, c.phase.serverNow);
            Promote(s.db.bindings, which, c.phase.serverNow) == s.db.bindings[pick :=
              s.db.bindings[pick].(status := BindingStatus.Verified, boundAt := Some(c.phase.serverNow))]
  {
    hide Inv, OfApp, ActiveUnique, Promotable, Promote;
    BindingsHomed(s, cfg);
    var c := s.live.calls[id];
    var at := c.phase.serverNow;
    var which := Promotable(s.db.bindings, c.receiverId, c.from, c.intent.nonce, at);
    PromotableIn(s.db.bindings, c.receiverId, c.from, c.intent.nonce, at);
    forall b | b in which ensures b == pick {
      PromotesAtMostOne(s.db.receivers, s.db.bindings, c.receiverId, c.from, c.intent.nonce, at, b, pick);
    }
    assert which == {pick};
    PromoteSingle(s.db.bindings, pick, at);
  }

  lemma PromoteSingle(bs: map<Id, Binding>, b: Id, at: Time)
    requires b in bs
    ensures Promote(bs, {b}, at) == bs[b := bs[b].(status := BindingStatus.Verified, boundAt := Some(at))]
  {
  }

  /** The order of runHealthyReceiverQuery is a strict weak one: what precedes
      the soonest so far is the soonest of all seen. */
  lemma SoonerStill(s: State, seen: set<Id>, q: Id, r: Option<Id>)
    requires seen <= s.db.receivers.Keys && q in seen
    requires r.None? ==> seen == {q}
    requires r.Some? ==>
      && r.value in s.db.receivers
      && Precedes(s, q, r.value)
      && forall o :: o in seen && o != q ==> !Precedes(s, o, r.value)
    ensures forall o :: o in seen ==> !Precedes(s, o, q)
  {
  }

  lemma PickFrame(s: State, t: State, cfg: Config, appId: string, preferred: Option<string>)
    requires s.db == t.db && s.now == t.now
    ensures Eligible(s, cfg, appId, preferred) == Eligible(t, cfg, appId, preferred)
    ensures forall r :: First(s, Eligible(s, cfg, appId, preferred), r) <==> First(t, Eligible(t, cfg, appId, preferred), r)
  {
    hide PendingOn, Fresh;
    forall operator ensures Healthy(s, cfg, appId, operator) == Healthy(t, cfg, appId, operator) {
    }
    assert Healthy(s, cfg, appId, preferred) == Healthy(t, cfg, appId, preferred);
    assert Healthy(s, cfg, appId, None) == Healthy(t, cfg, appId, None);
  }

  const MAX_ENDPOINTS_PER_APP: nat := 10

  datatype EndpointResult = InvalidEventTypes | TooManyEndpoints | EndpointCreated(endpointId: Id)

  function EndpointsOf(es: map<Id, Endpoint>, appId: string): set<Id> { set e | e in es && es[e].appId == appId }

  lemma EndpointsOfIs(es: map<Id, Endpoint>, appId: string)
    ensures EndpointsOf(es, appId) == set e | e in es && es[e].appId == appId
  {
  }

  /** What one run of the transaction of startVerification comes to. */
  datatype Attempt = Full | NoneHealthy | Collided(receiverId: Id) | Committed(receiverId: Id)

  predicate AllIdle(starts: map<Id, Start>) { forall o :: o in starts ==> starts[o].phase.Idle? }

  class Database {
    const cfg: Config
    var now: Time
    var nextId: Id
    var receivers: map<Id, Receiver>
    var verifications: map<Id, Verification>
    var inbound: map<Id, Inbound>
    var bindings: map<Id, Binding>
    var endpoints: map<Id, Endpoint>
    var events: map<Id, Event>
    var deliveries: map<Id, Delivery>
    var tasks: multiset<Id>
    var starts: map<Id, Start>
    var bindStarts: map<Id, BindStart>
    var calls: map<Id, Call>
    ghost var fanout: map<Id, set<Id>>
    ghost var boundBy: map<Id, Id>

    ghost function Snapshot(): State
      reads this
    {
      State(now, nextId, Tables(receivers, verifications, inbound, bindings, endpoints, events, deliveries),
            Live(tasks, starts, bindStarts, calls), Past(fanout, boundBy))
    }

    ghost predicate Valid()
      reads this
    {
      Inv(Snapshot(), cfg)
    }

    constructor (cfg: Config)
      ensures this.cfg == cfg && Snapshot() == Empty && Valid()
    {
      this.cfg := cfg;
      now, nextId := 0, 0;
      receivers, verifications, inbound, bindings := map[], map[], map[], map[];
      endpoints, events, deliveries := map[], map[], map[];
      tasks, starts, bindStarts, calls := multiset{}, map[], map[], map[];
      fanout, boundBy := map[], map[];
      new;
      InvInitially(cfg);
    }

    /** The row's final update and emitVerificationEventInTx, which share the
        caller's transaction: one event row, then one delivery row for each
        selected endpoint, in the order the query returns them. */
    method FinishRow(id: Id, row: Verification, kind: EventType) returns (order: seq<Id>)
      modifies this`verifications, this`events, this`deliveries, this`nextId, this`fanout
      ensures Lists(order, Subscribed(endpoints, row.appId, kind))
      ensures Snapshot() == Finish(old(Snapshot()), id, row, kind, order)
      ensures verifications == old(verifications)[id := row]
      ensures events == old(events)[old(nextId) := Event(row.appId, kind, match kind
                case VerificationVerified => EventData(id, VerificationStatus.Verified, row.verifiedAt)
                case VerificationExpired => EventData(id, VerificationStatus.Expired, Some(row.expiresAt))
                case VerificationCancelled => EventData(id, VerificationStatus.Cancelled, row.cancelledAt), now)]
      ensures EachOnce(order, endpoints, row.appId, kind)
      ensures RowsAdded(old(deliveries), deliveries, old(nextId) + 1, order, old(nextId), kind, now)
    {
      hide FanOut, Subscribed, Lists, EachOnce, RowsAdded;
      var eventId := nextId;
      var added: map<Id, Delivery>;
      order, added := FanOutQuery(row.appId, kind, eventId);
      FanOutAdds(deliveries, eventId + 1, order, eventId, kind, now);
      verifications, nextId := verifications[id := row], eventId + 1 + |order|;
      events, deliveries := events[eventId := Event(row.appId, kind, DataFor(id, row, kind), now)], deliveries + added;
      fanout := fanout[eventId := Subscribed(endpoints, row.appId, kind)];
    }

    /** The enabled endpoints of the app that subscribe to the event type, and
        a fresh delivery row for each. */
    method FanOutQuery(appId: string, kind: EventType, eventId: Id) returns (order: seq<Id>, added: map<Id, Delivery>)
      ensures Lists(order, Subscribed(endpoints, appId, kind))
      ensures added == FanOut(eventId + 1, order, eventId, kind, now)
      ensures EachOnce(order, endpoints, appId, kind)
      ensures RowsAdded(map[], added, eventId + 1, order, eventId, kind, now)
    {
      hide FanOut;
      order, added := [], map[];
      FanOutNone(eventId + 1, eventId, kind, now);
      var rest := endpoints.Keys;
      while rest != {}
        invariant rest <= endpoints.Keys
        invariant added == FanOut(eventId + 1, order, eventId, kind, now)
        invariant Lists(order, Subscribed(endpoints, appId, kind) - rest)
        decreases rest
      {
        var e :| e in rest;
        ghost var seen := Subscribed(endpoints, appId, kind) - rest;
        rest := rest - {e};
        if endpoints[e].appId == appId && endpoints[e].enabled && kind in endpoints[e].eventTypes {
          assert Subscribed(endpoints, appId, kind) - rest == seen + {e};
          FanOutGrows(eventId + 1, order, e, eventId, kind, now);
          ListsGrows(order, seen, e);
          added := added[eventId + 1 + |order| := Delivery(e, eventId, kind, DeliveryStatus.Pending, 0, now)];
          order := order + [e];
        } else {
          assert Subscribed(endpoints, appId, kind) - rest == seen;
        }
      }
      assert Subscribed(endpoints, appId, kind) - rest == Subscribed(endpoints, appId, kind);
      ListsEachOnce(order, endpoints, appId, kind);
      FanOutAdds(map[], eventId + 1, order, eventId, kind, now);
      assert map[] + added == added;
    }

    /** Tells the caller of a one-step method that its run is that step. */
    twostate lemma OneStep(step: Step)
      requires old(Valid())
      requires Snapshot() == Apply(old(Snapshot()), cfg, step)
      ensures Snapshot() == Exec(old(Snapshot()), cfg, [step])
      ensures Valid()
    {
      hide Inv, Apply;
      ExecOne(old(Snapshot()), cfg, step);
      StepKeeps(old(Snapshot()), cfg, step);
    }

    method CancelVerification(appId: string, id: Id) returns (r: CancelResult, ghost run: seq<Step>)
      requires Valid()
      modifies this
      ensures Valid() && Snapshot() == Exec(old(Snapshot()), cfg, run)
      ensures r == CancelNotFound <==> !(id in old(verifications) && old(verifications)[id].appId == appId)
      ensures r == NotPending <==>
        id in old(verifications) && old(verifications)[id].appId == appId
        && old(verifications)[id].status != VerificationStatus.Pending
      ensures r != CancelOk ==> Snapshot() == old(Snapshot())
      ensures r == CancelOk ==> verifications == old(verifications)[id := old(verifications)[id].(
                status := VerificationStatus.Cancelled, cancelledAt := Some(now))]
    {
      hide Inv, Lists, Subscribed, Finish;
      run := [];
      if id in verifications && verifications[id].appId == appId && verifications[id].status == VerificationStatus.Pending {
        var row := verifications[id].(status := VerificationStatus.Cancelled, cancelledAt := Some(now));
        var order := FinishRow(id, row, VerificationCancelled);
        r := CancelOk;
        ghost var step := Closes(DoCancel(appId, id, order));
        assert Snapshot() == Cancel(old(Snapshot()), appId, id, order);
        OneStep(step);
        run := [step];
      } else if !(id in verifications && verifications[id].appId == appId) {
        r := CancelNotFound;
      } else {
        r := NotPending;
      }
    }

    /** The read paths: report, and leave the transition to the background. */
    method GetVerification(appId: string, id: Id) returns (r: Option<VerificationStatus>, ghost run: seq<Step>)
      requires Valid()
      modifies this`tasks
      ensures Valid() && Snapshot() == Exec(old(Snapshot()), cfg, run)
      ensures r.Some? <==> id in verifications && verifications[id].appId == appId
      ensures r.Some? ==> r.value == Reported(verifications[id], now)
      ensures r.Some? ==>
        r.value == if verifications[id].status == VerificationStatus.Pending && verifications[id].expiresAt <= now
                   then VerificationStatus.Expired else verifications[id].status
      ensures r.Some? && r.value != verifications[id].status ==> id in tasks
    {
      hide Inv;
      run := [];
      if id !in verifications || verifications[id].appId != appId {
        return None, [];
      }
      var status := verifications[id].status;
      if status == VerificationStatus.Pending && verifications[id].expiresAt <= now {
        status := VerificationStatus.Expired;
        tasks := tasks + multiset{id};
        OneStep(Closes(DoRead(id)));
        run := [Closes(DoRead(id))];
      }
      r := Some(status);
    }

    /** lazyExpireAndEmit, when the background gets to it. */
    method LazyExpireAndEmit(id: Id) returns (won: bool, ghost run: seq<Step>)
      requires Valid() && id in tasks
      modifies this
      ensures Valid() && Snapshot() == Exec(old(Snapshot()), cfg, run)
      ensures won <==> old(verifications)[id].status == VerificationStatus.Pending
      ensures verifications == if won then old(verifications)[id := old(verifications)[id].(status := VerificationStatus.Expired)]
                               else old(verifications)
      ensures !won ==> events == old(events) && deliveries == old(deliveries)
    {
      hide Inv, Lists, Subscribed, Finish, RunExpiry;
      DueTasks(Snapshot(), cfg);
      ExpiryIs(Snapshot(), id);
      tasks := tasks - multiset{id};
      won := verifications[id].status == VerificationStatus.Pending;
      if won {
        var row := verifications[id].(status := VerificationStatus.Expired);
        var order := FinishRow(id, row, VerificationExpired);
        OneStep(Closes(DoRunExpiry(id, order)));
        run := [Closes(DoRunExpiry(id, order))];
      } else {
        OneStep(Closes(DoRunExpiry(id, [])));
        run := [Closes(DoRunExpiry(id, []))];
      }
    }

    // ----- webhook endpoints -----------------------------------------------

    /** createWebhookEndpoint after its URL checks, with no other in between. */
    method CreateEndpoint(appId: string, names: seq<string>) returns (r: EndpointResult, ghost run: seq<Step>)
      requires Valid()
      modifies this`endpoints, this`nextId
      ensures Valid() && Snapshot() == Exec(old(Snapshot()), cfg, run)
      ensures r == InvalidEventTypes <==> names == [] || !AllTypes(names)
      ensures r == TooManyEndpoints <==>
        names != [] && AllTypes(names) && |set e | e in old(endpoints) && old(endpoints)[e].appId == appId| >= 10
      ensures !r.EndpointCreated? ==> endpoints == old(endpoints)
      ensures r.EndpointCreated? ==>
        && r.endpointId !in old(endpoints) && r.endpointId in endpoints
        && endpoints == old(endpoints)[r.endpointId := Endpoint(appId, true, endpoints[r.endpointId].eventTypes)]
        && (VerificationVerified in endpoints[r.endpointId].eventTypes <==> "verification.verified" in names)
        && (VerificationExpired in endpoints[r.endpointId].eventTypes <==> "verification.expired" in names)
        && (VerificationCancelled in endpoints[r.endpointId].eventTypes <==> "verification.cancelled" in names)
    {
      hide Inv, Unknown, InOrder, TypeNamed, AllTypes, EndpointsOf;
      run := [];
      var kinds; ghost var at;
      kinds, at := UniqueValidated(names);
      if kinds.None? {
        return InvalidEventTypes, [];
      }
      EndpointsOfIs(endpoints, appId);
      if |EndpointsOf(endpoints, appId)| >= MAX_ENDPOINTS_PER_APP {
        return TooManyEndpoints, [];
      }
      FreshEndpoint();
      var id := nextId;
      var row := Endpoint(appId, true, set k | k in kinds.value);
      endpoints, nextId := endpoints[id := row], id + 1;
      OneStep(Admin(DoAddEndpoint(row)));
      run := [Admin(DoAddEndpoint(row))];
      r := EndpointCreated(id);
    }

    lemma FreshEndpoint()
      requires Valid()
      ensures nextId !in endpoints
    {
      hide Homed, PendingSafe, MessagesSound, OnTime, BoundFirst, OutboxExact;
    }

    /** deleteWebhookEndpoint: its deliveries go with it, its events stay. */
    method DeleteEndpoint(appId: string, id: Id) returns (found: bool, ghost run: seq<Step>)
      requires Valid()
      modifies this`endpoints, this`deliveries
      ensures Valid() && Snapshot() == Exec(old(Snapshot()), cfg, run)
      ensures found <==> id in old(endpoints) && old(endpoints)[id].appId == appId
      ensures endpoints == if found then old(endpoints) - {id} else old(endpoints)
      ensures forall d :: d in deliveries <==> d in old(deliveries) && !(found && old(deliveries)[d].endpointId == id)
      ensures forall d :: d in deliveries ==> deliveries[d] == old(deliveries)[d]
    {
      hide Inv;
      run := [];
      found := id in endpoints && endpoints[id].appId == appId;
      if found {
        endpoints := endpoints - {id};
        deliveries := map d | d in deliveries && deliveries[d].endpointId != id :: deliveries[d];
        OneStep(Admin(DoDeleteEndpoint(appId, id)));
        run := [Admin(DoDeleteEndpoint(appId, id))];
      }
    }

    // ----- phone bindings --------------------------------------------------

    /** startBinding's reads: the error it answers with, if any. */
    method CheckBinding(appId: string, receiverId: Id, phone: string) returns (error: Option<BindResult>)
      ensures error.None? <==> MayBind(Snapshot(), cfg, appId, receiverId, phone)
      ensures error.Some? ==> !error.value.BindStarted?
      ensures error == Some(InvalidPhone) <==> cfg.normalize(phone).None?
      ensures error == Some(ReceiverNotFound) <==>
        cfg.normalize(phone).Some? && !(receiverId in receivers && receivers[receiverId].appId == appId)
      ensures error == Some(ReceiverDisabled) <==>
        cfg.normalize(phone).Some? && receiverId in receivers && receivers[receiverId].appId == appId && !receivers[receiverId].enabled
    {
      hide HasActive, IsBound;
      var e164 := cfg.normalize(phone);
      if e164.None? {
        return Some(InvalidPhone);
      }
      BoundIff(bindings, appId, e164.value);
      if receiverId !in receivers || receivers[receiverId].appId != appId {
        return Some(ReceiverNotFound);
      }
      if !receivers[receiverId].enabled {
        return Some(ReceiverDisabled);
      }
      if IsBound(bindings, appId, e164.value) {
        return Some(AlreadyBound);
      }
      error := None;
    }

    method StartBinding(appId: string, receiverId: Id, phone: string, nonce: string) returns (r: BindResult, ghost run: seq<Step>)
      requires Valid()
      modifies this
      ensures Valid() && Snapshot() == Exec(old(Snapshot()), cfg, run)
      ensures r == InvalidPhone <==> cfg.normalize(phone).None?
      ensures r == ReceiverNotFound <==>
        cfg.normalize(phone).Some? && !(receiverId in old(receivers) && old(receivers)[receiverId].appId == appId)
      ensures r == ReceiverDisabled <==>
        cfg.normalize(phone).Some? && receiverId in old(receivers) && old(receivers)[receiverId].appId == appId
        && !old(receivers)[receiverId].enabled
      ensures r.BindStarted? <==> MayBind(old(Snapshot()), cfg, appId, receiverId, phone)
      ensures !r.BindStarted? ==> Snapshot() == old(Snapshot())
      ensures r.BindStarted? ==>
        && r.bindingId !in old(bindings)
        && bindings == old(bindings)[r.bindingId := Binding(appId, receiverId, cfg.normalize(phone).value, BindingStatus.Pending,
                                                            nonce, old(now) + cfg.bindingTtl, None, None)]
    {
      hide Inv, IsBound, BeginBind, InsertBind, MayBind;
      FreshIds();
      var error := CheckBinding(appId, receiverId, phone);
      run := [];
      if error.Some? {
        r := error.value;
      } else {
        BindIs(Snapshot(), cfg, appId, receiverId, phone, nonce);
        TwoSteps(Snapshot(), Binds(DoBeginBind(appId, receiverId, phone)), Binds(DoInsertBind(nextId, nonce)));
        run := [Binds(DoBeginBind(appId, receiverId, phone)), Binds(DoInsertBind(nextId, nonce))];
        var id := nextId;
        nextId := nextId + 1;
        bindings := bindings[id := Binding(appId, receiverId, cfg.normalize(phone).value, BindingStatus.Pending, nonce,
                                           now + cfg.bindingTtl, None, None)];
        r := BindStarted(id);
      }
    }

    method RevokeBinding(appId: string, id: Id) returns (found: bool, ghost run: seq<Step>)
      requires Valid()
      modifies this
      ensures Valid() && Snapshot() == Exec(old(Snapshot()), cfg, run)
      ensures found <==> id in old(bindings) && old(bindings)[id].appId == appId
      ensures bindings == if found then old(bindings)[id := old(bindings)[id].(status := BindingStatus.Revoked, revokedAt := Some(now))]
                          else old(bindings)
    {
      hide Inv;
      found := id in bindings && bindings[id].appId == appId;
      run := [];
      if found {
        bindings := bindings[id := bindings[id].(status := BindingStatus.Revoked, revokedAt := Some(now))];
        OneStep(Binds(DoRevokeBind(appId, id)));
        run := [Binds(DoRevokeBind(appId, id))];
      }
    }

    lemma FreshIds()
      requires Valid()
      ensures nextId !in bindings && nextId !in verifications && nextId !in inbound && nextId !in bindStarts && nextId !in starts
      ensures nextId !in calls
    {
      hide Homed, PendingSafe, MessagesSound, OnTime, BoundFirst, OutboxExact;
    }

    lemma TwoSteps(s: State, a: Step, b: Step)
      requires Inv(s, cfg)
      ensures Exec(s, cfg, [a, b]) == Apply(Apply(s, cfg, a), cfg, b)
      ensures Inv(Exec(s, cfg, [a, b]), cfg)
    {
      hide Inv, Apply;
      assert [a] + [b] == [a, b];
      ExecConcat(s, cfg, [a], [b]);
      ExecOne(s, cfg, a);
      ExecOne(Apply(s, cfg, a), cfg, b);
      RunKeeps(s, cfg, [a, b]);
    }

    // ----- processInbound --------------------------------------------------

    /** The idempotent insert: a new row and its call, or the prior row. */
    method StoreMessage(receiverId: Id, from: string, body: string, key: string) returns (stored: bool, id: Id, ghost step: Step)
      requires Valid()
      requires WellFormed(from, body, key) && receiverId in receivers
      modifies this`inbound, this`calls, this`nextId
      ensures Valid() && Snapshot() == Apply(old(Snapshot()), cfg, step)
      ensures stored <==> !exists i :: i in old(inbound) && old(inbound)[i].receiverId == receiverId && old(inbound)[i].idempotencyKey == key
      ensures !stored ==> Snapshot() == old(Snapshot())
      ensures id in inbound && inbound[id].receiverId == receiverId && inbound[id].idempotencyKey == key
      ensures stored ==>
        && id !in old(inbound) && id !in old(calls) && IsSender(cfg, from, inbound[id].from)
        && inbound == old(inbound)[id := Inbound(receiverId, inbound[id].from, body, key, None)]
        && calls == old(calls)[id := Call(receiverId, inbound[id].from, cfg.parse(body), Stored)]
    {
      hide Inv, Sender, IsSender, KeyTaken, Apply, Truncate;
      FreshIds();
      SenderIs(cfg, from);
      StoreIs(Snapshot(), cfg, receiverId, from, body, key);
      step := Inbounds(DoStoreInbound(receiverId, from, body, key));
      if prior :| prior in inbound && inbound[prior].receiverId == receiverId && inbound[prior].idempotencyKey == key {
        stored, id := false, prior;
      } else {
        id := nextId;
        var sender := Sender(cfg, from);
        inbound, nextId := inbound[id := Inbound(receiverId, sender, Truncate(body, MAX_BODY), key, None)], id + 1;
        calls := calls[id := Call(receiverId, sender, cfg.parse(body), Stored)];
        stored := true;
      }
      OneStep(step);
    }

    method TakeClock(id: Id) returns (ghost step: Step)
      requires Valid() && id in calls && calls[id].phase.Stored?
      modifies this`calls
      ensures Valid() && Snapshot() == Apply(old(Snapshot()), cfg, step)
      ensures calls == old(calls)[id := old(calls)[id].(phase := Clocked(now))]
    {
      hide Inv;
      step := Inbounds(DoReadClock(id));
      calls := calls[id := calls[id].(phase := Clocked(now))];
      OneStep(step);
    }

    lemma CallStored(id: Id)
      requires Valid() && id in calls
      ensures id in inbound
    {
      ReachedCall(Snapshot(), cfg, id);
    }

    /** The claiming transaction, when no other transaction holds a candidate. */
    method ClaimPending(id: Id) returns (v: Option<Id>, ghost step: Step)
      requires Valid() && id in calls && calls[id].phase.Clocked? && calls[id].intent.Verify?
      modifies this
      ensures Valid() && Snapshot() == Apply(old(Snapshot()), cfg, step)
      ensures bindings == old(bindings) && boundBy == old(boundBy)
      ensures var c := old(calls)[id];
        v.None? ==>
          && Candidates(old(verifications), c.receiverId, c.from, c.intent.code, c.phase.serverNow) == {}
          && verifications == old(verifications) && inbound == old(inbound)
      ensures var c := old(calls)[id];
        v.Some? ==>
          && v.value in old(verifications)
          && v.value in Candidates(old(verifications), c.receiverId, c.from, c.intent.code, c.phase.serverNow)
          && verifications == old(verifications)[v.value := Claimed(old(verifications)[v.value], id, c.phase.serverNow)]
          && id in old(inbound) && inbound == old(inbound)[id := old(inbound)[id].(matched := v)]
      ensures calls == old(calls) - {id}
    {
      hide Inv, Lists, Subscribed, Candidates, ClaimVerification;
      CallStored(id);
      var call := calls[id];
      var open := Candidates(verifications, call.receiverId, call.from, call.intent.code, call.phase.serverNow);
      if open == {} {
        v := None;
        ClaimNone(Snapshot(), id, []);
        calls := calls - {id};
        step := Inbounds(DoClaim(id, {}, 0, []));
        OneStep(step);
      } else {
        var pick :| pick in open;
        v := Some(pick);
        step := CommitClaim(id, pick);
      }
    }

    /** The two updates of the claim and its event. */
    method CommitClaim(id: Id, pick: Id) returns (ghost step: Step)
      requires Valid() && id in calls && calls[id].phase.Clocked? && calls[id].intent.Verify?
      requires pick in Candidates(verifications, calls[id].receiverId, calls[id].from, calls[id].intent.code, calls[id].phase.serverNow)
      modifies this`verifications, this`inbound, this`calls, this`events, this`deliveries, this`nextId, this`fanout
      ensures Valid() && Snapshot() == Apply(old(Snapshot()), cfg, step)
      ensures pick in old(verifications)
      ensures verifications == old(verifications)[pick := Claimed(old(verifications)[pick], id, old(calls)[id].phase.serverNow)]
      ensures id in old(inbound) && inbound == old(inbound)[id := old(inbound)[id].(matched := Some(pick))]
      ensures calls == old(calls) - {id}
    {
      hide Inv, Finish, Lists, Subscribed, Candidates, ClaimVerification;
      CallStored(id);
      ghost var s := Snapshot();
      var call := calls[id];
      CandidateIn(verifications, call.receiverId, call.from, call.intent.code, call.phase.serverNow, pick);
      var row := Claimed(verifications[pick], id, call.phase.serverNow);
      inbound := inbound[id := inbound[id].(matched := Some(pick))];
      calls := calls - {id};
      assert Snapshot() == MatchedBy(s, id, pick);
      var order := FinishRow(pick, row, VerificationVerified);
      ClaimOne(s, id, pick, order);
      step := Inbounds(DoClaim(id, {}, pick, order));
      OneStep(step);
    }

    /** The promoting UPDATE. `failed` is the unique violation. */
    method PromoteBinding(id: Id) returns (b: Option<Id>, failed: bool, ghost step: Step)
      requires Valid() && id in calls && calls[id].phase.Clocked? && calls[id].intent.Bind?
      modifies this`bindings, this`boundBy, this`calls
      ensures Valid() && Snapshot() == Apply(old(Snapshot()), cfg, step)
      ensures b.None? ==> bindings == old(bindings) && calls == old(calls) - {id}
      ensures var c := old(calls)[id];
        b.Some? ==>
          && !failed
          && ActiveUnique(Promote(old(bindings), Promotable(old(bindings), c.receiverId, c.from, c.intent.nonce, c.phase.serverNow), c.phase.serverNow))
          && b.value in Promotable(old(bindings), c.receiverId, c.from, c.intent.nonce, c.phase.serverNow)
          && bindings == old(bindings)[b.value := old(bindings)[b.value].(status := BindingStatus.Verified, boundAt := Some(c.phase.serverNow))]
          && calls == old(calls)[id := c.(phase := Promoted(b.value))]
      ensures var c := old(calls)[id];
        b.None? ==>
          var which := Promotable(old(bindings), c.receiverId, c.from, c.intent.nonce, c.phase.serverNow);
          if failed then !ActiveUnique(Promote(old(bindings), which, c.phase.serverNow)) else which == {}
    {
      hide Inv, ActiveUnique, Promotable, Apply, Promote;
      ghost var s := Snapshot();
      var call := calls[id];
      var at := call.phase.serverNow;
      var which := Promotable(bindings, call.receiverId, call.from, call.intent.nonce, at);
      var after := Promote(bindings, which, at);
      if which == {} || !ActiveUnique(after) {
        ConsumeRefused(s, cfg, id);
        b, failed := None, which != {};
        calls := calls - {id};
        step := Inbounds(DoConsumeNonce(id, 0));
      } else {
        var pick :| pick in which;
        b, failed := Some(pick), false;
        PromotesExactly(s, cfg, id, pick);
        ConsumeTaken(s, cfg, id, pick);
        bindings, calls := after, calls[id := call.(phase := Promoted(pick))];
        boundBy := boundBy + (map x | x in which :: id);
        step := Inbounds(DoConsumeNonce(id, pick));
      }
      OneStep(step);
    }

    method AnnotateMessage(id: Id) returns (ghost step: Step)
      requires Valid() && id in calls && calls[id].phase.Promoted?
      modifies this`inbound, this`calls
      ensures Valid() && Snapshot() == Apply(old(Snapshot()), cfg, step)
      ensures id in old(inbound)
      ensures inbound == old(inbound)[id := old(inbound)[id].(matched := Some(old(calls)[id].phase.bindingId))]
      ensures calls == old(calls) - {id}
    {
      hide Inv;
      CallStored(id);
      step := Inbounds(DoAnnotate(id));
      inbound := inbound[id := inbound[id].(matched := Some(calls[id].phase.bindingId))];
      calls := calls - {id};
      OneStep(step);
    }

    /** The BIND branch: clock, promotion, and the note on the message. */
    method MatchBind(id: Id) returns (r: MatchResult, ghost run: seq<Step>)
      requires Valid() && id in calls && calls[id].phase.Stored? && calls[id].intent.Bind?
      modifies this`bindings, this`boundBy, this`inbound, this`calls
      ensures Valid() && Snapshot() == Exec(old(Snapshot()), cfg, run)
      ensures (r.MatchedBinding? || r.BindingNoMatch? || r.BindingFailed?) && r.inboundId == id
      ensures calls == old(calls) - {id} && id in old(inbound)
      ensures inbound == if r.MatchedBinding? then old(inbound)[id := old(inbound)[id].(matched := Some(r.bindingId))] else old(inbound)
      ensures var c := old(calls)[id];
        BindDecided(r, old(bindings), bindings, c.receiverId, c.from, c.intent.nonce, now)
    {
      hide Inv, Apply, Exec, Promotable, BindDecided;
      ghost var start := Snapshot();
      CallStored(id);
      ghost var step := TakeClock(id);
      run := [step];
      ExecOne(start, cfg, step);
      r, step := PromoteOutcome(id);
      ExecThen(start, cfg, run, step);
      run := run + [step];
      if r.MatchedBinding? {
        step := AnnotateMessage(id);
        ExecThen(start, cfg, run, step);
        run := run + [step];
      }
      assert calls == old(calls) - {id};
    }

    /** The VERIFY branch: clock and claim. */
    method MatchVerify(id: Id) returns (r: MatchResult, ghost run: seq<Step>)
      requires Valid() && id in calls && calls[id].phase.Stored? && calls[id].intent.Verify?
      modifies this
      ensures Valid() && Snapshot() == Exec(old(Snapshot()), cfg, run)
      ensures (r.MatchedVerification? || r.NoMatch?) && r.inboundId == id
      ensures bindings == old(bindings) && calls == old(calls) - {id} && id in old(inbound)
      ensures inbound == if r.MatchedVerification? then old(inbound)[id := old(inbound)[id].(matched := Some(r.verificationId))] else old(inbound)
      ensures var c := old(calls)[id];
        VerifyDecided(r, old(verifications), verifications, c.receiverId, c.from, c.intent.code, old(now))
    {
      hide Inv, Apply, Exec, Candidates, Awaits;
      ghost var start := Snapshot();
      CallStored(id);
      ghost var step := TakeClock(id);
      run := [step];
      ExecOne(start, cfg, step);
      CandidatesAwait(verifications, calls[id].receiverId, calls[id].from, calls[id].intent.code, now);
      var v;
      v, step := ClaimPending(id);
      ExecThen(start, cfg, run, step);
      run := run + [step];
      r := if v.Some? then MatchedVerification(id, v.value) else NoMatch(id);
      assert calls == old(calls) - {id};
    }

    /** processInbound, with no other call in between: every outcome with the
        message row it leaves, the row it matched or the reason for none. What
        can happen when other calls do come in between is the business of the
        state machine. */
    method ProcessInbound(receiverId: Id, from: string, body: string, key: string) returns (r: MatchResult, ghost run: seq<Step>)
      requires Valid()
      modifies this
      ensures Valid() && Snapshot() == Exec(old(Snapshot()), cfg, run)
      ensures r.Rejected? <==>
        !(3 <= |from| <= 32 && 1 <= |body| <= 1600 && 8 <= |key| <= 128 && receiverId in old(receivers))
      ensures r.Duplicate? <==>
        !r.Rejected? && exists i :: i in old(inbound) && old(inbound)[i].receiverId == receiverId && old(inbound)[i].idempotencyKey == key
      ensures r.Rejected? || r.Duplicate? ==> Snapshot() == old(Snapshot())
      ensures r.Duplicate? ==>
        r.priorId in inbound && inbound[r.priorId].receiverId == receiverId && inbound[r.priorId].idempotencyKey == key
      ensures !r.Rejected? && !r.Duplicate? ==>
        && r.inboundId !in old(inbound) && r.inboundId in inbound
        && IsSender(cfg, from, inbound[r.inboundId].from)
        && inbound == old(inbound)[r.inboundId := Inbound(receiverId, inbound[r.inboundId].from, body, key, MatchIn(r))]
        && calls == old(calls)
      ensures !r.Rejected? && !r.Duplicate? ==>
        Decided(r, receiverId, inbound[r.inboundId].from, cfg.parse(body), old(now),
                old(verifications), verifications, old(bindings), bindings)
    {
      hide Inv, Apply, Exec, Decided, IsSender;
      ghost var start := Snapshot();
      run := [];
      ExecNone(start, cfg);
      if !WellFormed(from, body, key) || receiverId !in receivers {
        return Rejected, [];
      }
      var stored, id; ghost var step;
      stored, id, step := StoreMessage(receiverId, from, body, key);
      if !stored {
        return Duplicate(id), [];
      }
      ExecOne(start, cfg, step);
      ghost var more;
      r, more := MatchStored(id);
      run := [step] + more;
      ExecConcat(start, cfg, [step], more);
      assert calls == old(calls);
    }

    /** What processInbound does with the message it has stored. */
    method MatchStored(id: Id) returns (r: MatchResult, ghost run: seq<Step>)
      requires Valid() && id in calls && calls[id].phase.Stored?
      modifies this
      ensures Valid() && Snapshot() == Exec(old(Snapshot()), cfg, run)
      ensures !r.Rejected? && !r.Duplicate? && r.inboundId == id
      ensures calls == old(calls) - {id} && id in old(inbound)
      ensures inbound == if MatchIn(r).Some? then old(inbound)[id := old(inbound)[id].(matched := MatchIn(r))] else old(inbound)
      ensures var c := old(calls)[id];
        Decided(r, c.receiverId, c.from, c.intent, old(now), old(verifications), verifications, old(bindings), bindings)
    {
      hide Inv, Apply, Exec, BindDecided, VerifyDecided;
      CallStored(id);
      match calls[id].intent {
        case Bind(nonce) =>
          r, run := MatchBind(id);
        case Verify(code) =>
          r, run := MatchVerify(id);
        case Nothing =>
          run := ReturnUnmatched(id);
          r := NoMatch(id);
      }
    }

    method PromoteOutcome(id: Id) returns (r: MatchResult, ghost step: Step)
      requires Valid() && id in calls && calls[id].phase.Clocked? && calls[id].intent.Bind?
      modifies this`bindings, this`boundBy, this`calls
      ensures Valid() && Snapshot() == Apply(old(Snapshot()), cfg, step)
      ensures (r.MatchedBinding? || r.BindingNoMatch? || r.BindingFailed?) && r.inboundId == id
      ensures var c := old(calls)[id];
        && BindDecided(r, old(bindings), bindings, c.receiverId, c.from, c.intent.nonce, c.phase.serverNow)
        && calls == if r.MatchedBinding? then old(calls)[id := c.(phase := Promoted(r.bindingId))] else old(calls) - {id}
    {
      hide Inv, Promotable, Promote, ActiveUnique, Apply, AwaitsBind, WouldDouble;
      ghost var c := calls[id];
      PromotionFacts(c.receiverId, c.from, c.intent.nonce, c.phase.serverNow);
      var b, failed;
      b, failed, step := PromoteBinding(id);
      r := if b.Some? then MatchedBinding(id, b.value) else if failed then BindingFailed(id) else BindingNoMatch(id);
    }

    /** Which rows the promoting UPDATE selects, and when the index refuses it. */
    lemma PromotionFacts(receiverId: Id, phone: string, nonce: string, at: Time)
      requires Valid()
      ensures forall b :: b in Promotable(bindings, receiverId, phone, nonce, at)
                          <==> b in bindings && AwaitsBind(bindings[b], receiverId, phone, nonce, at)
      ensures ActiveUnique(Promote(bindings, Promotable(bindings, receiverId, phone, nonce, at), at))
         <==> !WouldDouble(bindings, receiverId, phone, nonce, at)
      ensures WouldDouble(bindings, receiverId, phone, nonce, at) ==> Promotable(bindings, receiverId, phone, nonce, at) != {}
    {
      hide Inv, Promotable, Promote, ActiveUnique, AwaitsBind;
      BindingsSoundIn(Snapshot(), cfg);
      PromotableAwait(bindings, receiverId, phone, nonce, at);
      RefusedIff(bindings, receiverId, phone, nonce, at);
    }

    /** Neither BIND nor VERIFY: the call has nothing left to do. */
    method ReturnUnmatched(id: Id) returns (ghost run: seq<Step>)
      requires Valid() && id in calls && calls[id].phase.Stored? && calls[id].intent.Nothing?
      modifies this`calls
      ensures Valid() && Snapshot() == Exec(old(Snapshot()), cfg, run)
      ensures calls == old(calls) - {id}
    {
      hide Inv;
      calls := calls - {id};
      run := [Inbounds(DoReturn(id))];
      OneStep(Inbounds(DoReturn(id)));
    }

    // ----- startVerification -----------------------------------------------

    /** runHealthyReceiverQuery: the least loaded, then oldest, healthy receiver. */
    method HealthyReceiver(appId: string, operator: Option<string>) returns (r: Option<Id>)
      ensures r.None? <==> Healthy(Snapshot(), cfg, appId, operator) == {}
      ensures r.Some? ==> First(Snapshot(), Healthy(Snapshot(), cfg, appId, operator), r.value)
      ensures r.None? <==> forall q :: q in receivers ==> !MayServe(receivers[q], appId, operator)
      ensures r.Some? ==>
        && r.value in receivers && MayServe(receivers[r.value], appId, operator)
        && forall q :: q in receivers && MayServe(receivers[q], appId, operator) ==> NoLater(Snapshot(), None, r.value, q)
    {
      hide PendingOn, Routable, PendingAt;
      HealthyIff(Snapshot(), cfg, appId, operator);
      forall q ensures |PendingOn(verifications, q)| == PendingAt(verifications, q) {
        LoadIs(verifications, q);
      }
      var rest := receivers.Keys;
      r := None;
      ghost var healthy := Healthy(Snapshot(), cfg, appId, operator);
      while rest != {}
        invariant rest <= receivers.Keys
        invariant r.None? ==> healthy <= rest
        invariant r.Some? ==> r.value in healthy - rest
                              && forall q :: q in healthy - rest ==> !Precedes(Snapshot(), q, r.value)
        decreases rest
      {
        var q :| q in rest;
        rest := rest - {q};
        if receivers[q].appId == appId && receivers[q].enabled && Fresh(receivers[q].lastHeartbeatAt, now, cfg.heartbeatTimeout)
           && (operator.None? || receivers[q].operator == operator) {
          if r.None? || Sooner(q, r.value) {
            SoonerStill(Snapshot(), healthy - rest, q, r);
            r := Some(q);
          }
        }
      }
    }

    /** The receiver is routable and of the operator asked for, if any. */
    predicate MayServe(r: Receiver, appId: string, operator: Option<string>)
      reads this
    {
      Routable(r, appId, now, cfg.heartbeatTimeout) && (operator.Some? ==> r.operator == operator)
    }

    /** ORDER BY pending_count, created_at. */
    predicate Sooner(q: Id, r: Id)
      requires q in receivers && r in receivers
      reads this
      ensures Sooner(q, r) == Precedes(Snapshot(), q, r)
    {
      var lq, lr := |PendingOn(verifications, q)|, |PendingOn(verifications, r)|;
      lq < lr || (lq == lr && receivers[q].createdAt < receivers[r].createdAt)
    }

    /** pickReceiver: a healthy receiver of the preferred operator if there is
        one, otherwise any healthy receiver of the app. */
    method PickHealthy(appId: string, preferred: Option<string>) returns (r: Option<Id>)
      ensures r.None? <==> Eligible(Snapshot(), cfg, appId, preferred) == {}
      ensures r.Some? ==> First(Snapshot(), Eligible(Snapshot(), cfg, appId, preferred), r.value)
      ensures r.Some? <==> AnyRoutable(Snapshot(), cfg.heartbeatTimeout, appId)
      ensures r.Some? ==> Routed(Snapshot(), cfg.heartbeatTimeout, appId, preferred, r.value)
    {
      hide First, Healthy, Routed, AnyRoutable, NoLater, MayServe;
      r := None;
      if preferred.Some? {
        r := HealthyReceiver(appId, preferred);
      }
      if r.None? {
        r := HealthyReceiver(appId, None);
      }
      RoutesByOneOrder(Snapshot(), cfg, appId, preferred, if r.Some? then r.value else 0);
    }

    /** The binding check, and the deadline, both taken before the transaction. */
    method BeginVerification(appId: string, phone: string, preferred: Option<string>) returns (id: Option<Id>, ghost step: Step)
      requires Valid()
      modifies this`starts, this`nextId
      ensures Valid() && Snapshot() == Apply(old(Snapshot()), cfg, step)
      ensures id.None? <==> !IsBound(bindings, appId, phone)
      ensures id.None? ==> Snapshot() == old(Snapshot())
      ensures id.Some? ==>
        && id.value !in old(starts) && id.value !in verifications
        && starts == old(starts)[id.value := Start(appId, phone, preferred, now + cfg.verificationTtl, 0, Idle)]
    {
      hide Inv, IsBound;
      FreshIds();
      step := Starts(DoBeginStart(appId, phone, preferred));
      id := None;
      if IsBound(bindings, appId, phone) {
        id := Some(nextId);
        starts := starts[nextId := Start(appId, phone, preferred, now + cfg.verificationTtl, 0, Idle)];
        nextId := nextId + 1;
      }
      OneStep(step);
    }

    /** pg_advisory_xact_lock, when nobody else holds the key. */
    method Lock(id: Id) returns (ghost step: Step)
      requires Valid() && id in starts && AllIdle(starts)
      modifies this`starts
      ensures Valid() && Snapshot() == Apply(old(Snapshot()), cfg, step)
      ensures starts == old(starts)[id := old(starts)[id].(phase := Locked)]
    {
      hide Inv;
      step := Starts(DoTakeLock(id));
      starts := starts[id := starts[id].(phase := Locked)];
      OneStep(step);
    }

    method CountGate(id: Id) returns (full: bool, ghost step: Step)
      requires Valid() && id in starts && starts[id].phase.Locked?
      modifies this`starts
      ensures Valid() && Snapshot() == Apply(old(Snapshot()), cfg, step)
      ensures full <==> |PendingFor(verifications, old(starts)[id].appId, old(starts)[id].phone)| >= cfg.maxPendingPerPhone
      ensures starts == if full then old(starts) - {id} else old(starts)[id := old(starts)[id].(phase := Counted)]
    {
      hide Inv, PendingFor;
      step := Starts(DoCountPending(id));
      full := |PendingFor(verifications, starts[id].appId, starts[id].phone)| >= cfg.maxPendingPerPhone;
      starts := if full then starts - {id} else starts[id := starts[id].(phase := Counted)];
      OneStep(step);
    }

    method Route(id: Id) returns (r: Option<Id>, ghost step: Step)
      requires Valid() && id in starts && starts[id].phase.Counted?
      modifies this`starts
      ensures Valid() && Snapshot() == Apply(old(Snapshot()), cfg, step)
      ensures r.None? <==> Eligible(old(Snapshot()), cfg, old(starts)[id].appId, old(starts)[id].preferred) == {}
      ensures r.Some? ==> First(old(Snapshot()), Eligible(old(Snapshot()), cfg, old(starts)[id].appId, old(starts)[id].preferred), r.value)
      ensures starts == if r.None? then old(starts) - {id} else old(starts)[id := old(starts)[id].(phase := Picked(r.value))]
    {
      hide Inv, First, Eligible;
      r := PickHealthy(starts[id].appId, starts[id].preferred);
      step := Starts(DoPickReceiver(id, if r.Some? then r.value else 0));
      starts := if r.None? then starts - {id} else starts[id := starts[id].(phase := Picked(r.value))];
      OneStep(step);
    }

    /** The insert, which the partial unique index may refuse. */
    method InsertPending(id: Id, code: string) returns (ok: bool, ghost step: Step)
      requires Valid() && id in starts && starts[id].phase.Picked? && AllIdle(starts - {id})
      modifies this`starts
      ensures Valid() && Snapshot() == Apply(old(Snapshot()), cfg, step)
      ensures ok <==> !Collides(verifications, NewRow(old(starts)[id], old(starts)[id].phase.receiverId, code))
      ensures ok ==> starts == old(starts)[id := old(starts)[id].(
                       phase := Inserted(NewRow(old(starts)[id], old(starts)[id].phase.receiverId, code)))]
      ensures !ok ==> starts == if old(starts)[id].collisions + 1 >= MAX_CODE_COLLISION_RETRIES then old(starts) - {id}
                                else old(starts)[id := old(starts)[id].(collisions := old(starts)[id].collisions + 1, phase := Idle)]
    {
      hide Inv, Collides;
      step := Starts(DoInsertRow(id, code));
      var start := starts[id];
      var row := NewRow(start, start.phase.receiverId, code);
      forall o | o in starts ensures !starts[o].phase.Inserted? {
        assert o == id || o in starts - {id};
      }
      ok := !Collides(verifications, row);
      starts := if ok then starts[id := start.(phase := Inserted(row))]
                else if start.collisions + 1 >= MAX_CODE_COLLISION_RETRIES then starts - {id}
                else starts[id := start.(collisions := start.collisions + 1, phase := Idle)];
      OneStep(step);
    }

    method CommitPending(id: Id) returns (ghost step: Step)
      requires Valid() && id in starts && starts[id].phase.Inserted?
      modifies this`starts, this`verifications
      ensures Valid() && Snapshot() == Apply(old(Snapshot()), cfg, step)
      ensures verifications == old(verifications)[id := old(starts)[id].phase.row] && starts == old(starts) - {id}
    {
      hide Inv;
      step := Starts(DoCommitStart(id));
      verifications, starts := verifications[id := starts[id].phase.row], starts - {id};
      OneStep(step);
    }

    /** One run of the transaction: lock, count, pick, insert, commit. */
    method TryStart(id: Id, code: string) returns (r: Attempt, ghost run: seq<Step>)
      requires Valid() && id in starts && AllIdle(starts)
      modifies this`starts, this`verifications
      ensures Valid() && Snapshot() == Exec(old(Snapshot()), cfg, run)
      ensures var start := old(starts)[id];
        && (r.Full? <==> |PendingFor(old(verifications), start.appId, start.phone)| >= cfg.maxPendingPerPhone)
        && (r.NoneHealthy? <==> !r.Full? && Eligible(old(Snapshot()), cfg, start.appId, start.preferred) == {})
        && (r.Collided? || r.Committed? ==>
              First(old(Snapshot()), Eligible(old(Snapshot()), cfg, start.appId, start.preferred), r.receiverId))
        && (r.Collided? ==> Collides(old(verifications), NewRow(start, r.receiverId, code)))
        && (r.Committed? ==>
              && !Collides(old(verifications), NewRow(start, r.receiverId, code))
              && verifications == old(verifications)[id := NewRow(start, r.receiverId, code)])
        && (!r.Committed? ==> verifications == old(verifications))
        && (if r.Collided? && start.collisions + 1 < MAX_CODE_COLLISION_RETRIES
            then starts == old(starts)[id := start.(collisions := start.collisions + 1)]
            else starts == old(starts) - {id})
    {
      hide Inv, Apply, Exec, First, Eligible, Collides, PendingFor;
      ghost var s := Snapshot();
      ghost var start := starts[id];
      ghost var step := Lock(id);
      run := [step];
      ExecOne(s, cfg, step);
      var full;
      full, step := CountGate(id);
      ExecThen(s, cfg, run, step);
      run := run + [step];
      if full {
        assert starts == old(starts) - {id};
        return Full, run;
      }
      PickFrame(s, Snapshot(), cfg, start.appId, start.preferred);
      ghost var more;
      r, more := PlaceStart(id, code);
      ExecConcat(s, cfg, run, more);
      run := run + more;
    }

    /** The transaction from the receiver pick on. */
    method PlaceStart(id: Id, code: string) returns (r: Attempt, ghost run: seq<Step>)
      requires Valid() && id in starts && starts[id].phase.Counted? && AllIdle(starts - {id})
      modifies this`starts, this`verifications
      ensures Valid() && Snapshot() == Exec(old(Snapshot()), cfg, run)
      ensures var start := old(starts)[id];
        && !r.Full?
        && (r.NoneHealthy? <==> Eligible(old(Snapshot()), cfg, start.appId, start.preferred) == {})
        && (r.Collided? || r.Committed? ==>
              First(old(Snapshot()), Eligible(old(Snapshot()), cfg, start.appId, start.preferred), r.receiverId))
        && (r.Collided? ==> Collides(old(verifications), NewRow(start, r.receiverId, code)))
        && (r.Committed? ==>
              && !Collides(old(verifications), NewRow(start, r.receiverId, code))
              && verifications == old(verifications)[id := NewRow(start, r.receiverId, code)])
        && (!r.Committed? ==> verifications == old(verifications))
        && (if r.Collided? && start.collisions + 1 < MAX_CODE_COLLISION_RETRIES
            then starts == old(starts)[id := start.(collisions := start.collisions + 1, phase := Idle)]
            else starts == old(starts) - {id})
    {
      hide Inv, Apply, Exec, First, Eligible, Collides;
      ghost var s := Snapshot();
      var receiver; ghost var step;
      receiver, step := Route(id);
      ExecOne(s, cfg, step);
      run := [step];
      if receiver.None? {
        return NoneHealthy, run;
      }
      assert starts - {id} == old(starts) - {id};
      var ok;
      ok, step := InsertPending(id, code);
      ExecThen(s, cfg, run, step);
      run := run + [step];
      if !ok {
        return Collided(receiver.value), run;
      }
      step := CommitPending(id);
      ExecThen(s, cfg, run, step);
      run := run + [step];
      r := Committed(receiver.value);
    }

    /** runWithCodeCollisionRetry: a fresh code for each round; `codes` are the
        ones generateCode would draw. */
    method RetryOnCollision(id: Id, codes: seq<string>) returns (r: StartResult, ghost run: seq<Step>)
      requires Valid() && id in starts && AllIdle(starts) && starts[id].collisions == 0
      requires |codes| == MAX_CODE_COLLISION_RETRIES
      modifies this`starts, this`verifications
      ensures Valid() && Snapshot() == Exec(old(Snapshot()), cfg, run)
      ensures var start := old(starts)[id];
        && r != PhoneNotBound
        && (r == TooManyPending <==> |PendingFor(old(verifications), start.appId, start.phone)| >= cfg.maxPendingPerPhone)
        && (r == NoReceiver <==>
              && |PendingFor(old(verifications), start.appId, start.phone)| < cfg.maxPendingPerPhone
              && Eligible(old(Snapshot()), cfg, start.appId, start.preferred) == {})
        && (r == CodeCollision ==> forall k :: 0 <= k < |codes| ==> Clashes(old(Snapshot()), start, codes[k]))
        && (!r.Started? ==> verifications == old(verifications))
        && (r.Started? ==>
              && r.id == id && r.code in codes
              && First(old(Snapshot()), Eligible(old(Snapshot()), cfg, start.appId, start.preferred), r.receiverId)
              && !Collides(old(verifications), NewRow(start, r.receiverId, r.code))
              && verifications == old(verifications)[id := NewRow(start, r.receiverId, r.code)])
    {
      hide Inv, Apply, First, Eligible, Collides, PendingFor;
      ghost var s := Snapshot();
      ghost var start := starts[id];
      run := [];
      var i := 0;
      while i < MAX_CODE_COLLISION_RETRIES
        invariant 0 <= i <= MAX_CODE_COLLISION_RETRIES
        invariant Valid() && Snapshot() == Exec(s, cfg, run)
        invariant Snapshot().db == s.db
        invariant i < MAX_CODE_COLLISION_RETRIES ==>
          id in starts && AllIdle(starts) && starts[id] == start.(collisions := i)
        invariant i > 0 ==> |PendingFor(verifications, start.appId, start.phone)| < cfg.maxPendingPerPhone
                            && Eligible(s, cfg, start.appId, start.preferred) != {}
        invariant forall k :: 0 <= k < i ==> Clashes(s, start, codes[k])
      {
        PickFrame(s, Snapshot(), cfg, start.appId, start.preferred);
        ghost var before := run;
        var attempt;
        attempt, run := TryStart(id, codes[i]);
        ExecConcat(s, cfg, before, run);
        run := before + run;
        match attempt {
          case Full => return TooManyPending, run;
          case NoneHealthy => return NoReceiver, run;
          case Committed(receiverId) => return Started(id, receiverId, codes[i]), run;
          case Collided(receiverId) => i := i + 1;
        }
      }
      r := CodeCollision;
    }

    /** startVerification, with no other call in between. */
    method StartVerification(appId: string, phone: string, preferred: Option<string>, codes: seq<string>)
      returns (r: StartResult, ghost run: seq<Step>)
      requires Valid() && AllIdle(starts) && |codes| == 3
      modifies this
      ensures Valid() && Snapshot() == Exec(old(Snapshot()), cfg, run)
      ensures r == PhoneNotBound <==> !HasActive(old(bindings), appId, phone)
      ensures r == TooManyPending <==>
        HasActive(old(bindings), appId, phone) && PendingCount(old(verifications), appId, phone) >= cfg.maxPendingPerPhone
      ensures r == NoReceiver <==>
        && HasActive(old(bindings), appId, phone) && PendingCount(old(verifications), appId, phone) < cfg.maxPendingPerPhone
        && !AnyRoutable(old(Snapshot()), cfg.heartbeatTimeout, appId)
      ensures r == CodeCollision ==> forall k :: 0 <= k < 3 ==> Taken(old(Snapshot()), appId, phone, preferred, codes[k])
      ensures !r.Started? ==> verifications == old(verifications)
      ensures r.Started? ==>
        && r.id !in old(verifications) && r.code in codes
        && Routed(old(Snapshot()), cfg.heartbeatTimeout, appId, preferred, r.receiverId)
        && !CodeTaken(old(verifications), r.receiverId, phone, r.code)
        && verifications == old(verifications)[r.id :=
             Verification(appId, phone, r.receiverId, r.code, VerificationStatus.Pending, 0, old(now) + cfg.verificationTtl, None, None, None)]
      ensures r.Started? ==>
        forall at :: Reported(verifications[r.id], at) == VerificationStatus.Pending <==> at < old(now) + cfg.verificationTtl
    {
      hide Inv, Apply, Exec, IsBound, First, Eligible, Collides, PendingFor, Clashes, Routed, Taken, HasActive, AnyRoutable, CodeTaken,
           PendingCount, NewRow, Reported;
      ghost var s := Snapshot();
      ghost var step;
      var begun;
      BoundIff(bindings, appId, phone);
      CountIs(verifications, appId, phone);
      begun, step := BeginVerification(appId, phone, preferred);
      ExecOne(s, cfg, step);
      run := [step];
      if begun.None? {
        return PhoneNotBound, run;
      }
      PickFrame(s, Snapshot(), cfg, appId, preferred);
      ghost var start := starts[begun.value];
      ClashFrame(s, Snapshot(), start);
      RoutesByOneOrder(s, cfg, appId, preferred, 0);
      r, run := RetryOnCollision(begun.value, codes);
      ExecConcat(s, cfg, [step], run);
      run := [step] + run;
      ClashesAre(s, start);
      if r.Started? {
        StartedAs(s, start, r.receiverId, r.code);
      }
    }

    lemma StartedAs(s: State, start: Start, receiverId: Id, code: string)
      ensures NewRow(start, receiverId, code)
        == Verification(start.appId, start.phone, receiverId, code, VerificationStatus.Pending, 0, start.expiresAt, None, None, None)
      ensures Collides(s.db.verifications, NewRow(start, receiverId, code)) <==> CodeTaken(s.db.verifications, receiverId, start.phone, code)
      ensures forall at :: Reported(NewRow(start, receiverId, code), at) == VerificationStatus.Pending <==> at < start.expiresAt
      ensures First(s, Eligible(s, cfg, start.appId, start.preferred), receiverId)
         <==> Routed(s, cfg.heartbeatTimeout, start.appId, start.preferred, receiverId)
    {
      hide First, Eligible, Routed, Collides, CodeTaken;
      RoutesByOneOrder(s, cfg, start.appId, start.preferred, receiverId);
      CollidesIff(s.db.verifications, NewRow(start, receiverId, code));
    }

    /** The code is taken on some receiver that the router may pick. */
    ghost predicate Taken(s: State, appId: string, phone: string, preferred: Option<string>, code: string) {
      exists q :: Routed(s, cfg.heartbeatTimeout, appId, preferred, q) && CodeTaken(s.db.verifications, q, phone, code)
    }

    lemma ClashesAre(s: State, start: Start)
      ensures forall code :: Clashes(s, start, code) ==> Taken(s, start.appId, start.phone, start.preferred, code)
    {
      hide First, Eligible, Collides, Routed, CodeTaken;
      forall code | Clashes(s, start, code) ensures Taken(s, start.appId, start.phone, start.preferred, code) {
        var q :| First(s, Eligible(s, cfg, start.appId, start.preferred), q) && Collides(s.db.verifications, NewRow(start, q, code));
        RoutesByOneOrder(s, cfg, start.appId, start.preferred, q);
        CollidesIff(s.db.verifications, NewRow(start, q, code));
      }
    }

    /** Some receiver the router may pick already has this code pending. */
    ghost predicate Clashes(s: State, start: Start, code: string) {
      exists q :: First(s, Eligible(s, cfg, start.appId, start.preferred), q)
                  && Collides(s.db.verifications, NewRow(start, q, code))
    }

    lemma ClashFrame(s: State, t: State, start: Start)
      requires s.db == t.db && s.now == t.now
      ensures forall code :: Clashes(s, start, code) <==> Clashes(t, start, code)
    {
      hide First, Eligible, Collides;
      PickFrame(s, t, cfg, start.appId, start.preferred);
    }
  }
}
