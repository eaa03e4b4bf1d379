/** How single table changes keep the two outbox predicates. */
module OutboxLemmas {
  import opened Wrappers
  import opened Schema
  import opened Store
  import opened Invariant

  lemma EventsKeepNewRow(vs: map<Id, Verification>, events: map<Id, Event>, id: Id, row: Verification)
    requires EventsExact(vs, events) && id !in vs && row.status == VerificationStatus.Pending
    ensures EventsExact(vs[id := row], events)
  {
  }

  /** A pending row becomes final and its one event appears. */
  lemma EventsKeepFinish(vs: map<Id, Verification>, events: map<Id, Event>, id: Id, row: Verification,
                         kind: EventType, eventId: Id, at: Time)
    requires EventsExact(vs, events)
    requires id in vs && vs[id].status == VerificationStatus.Pending
    requires row.status == FinalStatus(kind) && row.appId == vs[id].appId
    requires eventId !in events
    ensures EventsExact(vs[id := row], events[eventId := Event(row.appId, kind, DataFor(id, row, kind), at)])
  {
    var vs', events' := vs[id := row], events[eventId := Event(row.appId, kind, DataFor(id, row, kind), at)];
    forall e | e in events ensures events[e].data.verificationId != id {
      assert EventOk(vs, events[e]);
    }
    forall v | v in vs' && vs'[v].status != VerificationStatus.Pending ensures HasEvent(events', v) {
      if v == id {
        assert events'[eventId].data.verificationId == v;
      } else {
        assert HasEvent(events, v);
        var e :| e in events && events[e].data.verificationId == v;
        assert e in events' && events'[e].data.verificationId == v;
      }
    }
  }

  lemma FanOutRows(base: Id, order: seq<Id>, eventId: Id, kind: EventType, at: Time)
    ensures forall d :: d in FanOut(base, order, eventId, kind, at) <==> base <= d < base + |order|
    ensures forall d :: d in FanOut(base, order, eventId, kind, at) ==>
      FanOut(base, order, eventId, kind, at)[d]
        == Delivery(order[d - base], eventId, kind, DeliveryStatus.Pending, 0, at)
  {
  }

  lemma FinishKeepsRefer(endpoints: map<Id, Endpoint>, events: map<Id, Event>, deliveries: map<Id, Delivery>,
                         fanout: map<Id, set<Id>>, e: Event, eventId: Id, order: seq<Id>, at: Time)
    requires DeliveriesRefer(endpoints, events, deliveries, fanout) && eventId !in events
    requires Lists(order, Subscribed(endpoints, e.appId, e.eventType))
    ensures DeliveriesRefer(endpoints, events[eventId := e], deliveries + FanOut(eventId + 1, order, eventId, e.eventType, at),
                            fanout[eventId := Subscribed(endpoints, e.appId, e.eventType)])
  {
    FanOutRows(eventId + 1, order, eventId, e.eventType, at);
  }

  lemma FinishKeepsComplete(endpoints: map<Id, Endpoint>, deliveries: map<Id, Delivery>,
                            fanout: map<Id, set<Id>>, e: Event, eventId: Id, order: seq<Id>, at: Time)
    requires DeliveriesComplete(endpoints, deliveries, fanout)
    requires forall d :: d in deliveries ==> d <= eventId
    requires Lists(order, Subscribed(endpoints, e.appId, e.eventType))
    ensures DeliveriesComplete(endpoints, deliveries + FanOut(eventId + 1, order, eventId, e.eventType, at),
                               fanout[eventId := Subscribed(endpoints, e.appId, e.eventType)])
  {
    var added := FanOut(eventId + 1, order, eventId, e.eventType, at);
    var fanout' := fanout[eventId := Subscribed(endpoints, e.appId, e.eventType)];
    forall f, p | f in fanout' && p in fanout'[f] && p in endpoints
      ensures HasDelivery(deliveries + added, f, p)
    {
      if f == eventId {
        NewHasDelivery(deliveries, order, eventId, p, e.eventType, at);
      } else {
        OldHasDelivery(deliveries, added, f, p);
      }
    }
  }

  /** The new deliveries: one for each selected endpoint, none shared with an
      earlier event. */
  lemma FanoutKeepsFinish(endpoints: map<Id, Endpoint>, events: map<Id, Event>, deliveries: map<Id, Delivery>,
                          fanout: map<Id, set<Id>>, e: Event, eventId: Id, order: seq<Id>, at: Time)
    requires FanoutExact(endpoints, events, deliveries, fanout) && eventId !in events
    requires forall d :: d in deliveries ==> d <= eventId
    requires Lists(order, Subscribed(endpoints, e.appId, e.eventType))
    ensures FanoutExact(endpoints, events[eventId := e], deliveries + FanOut(eventId + 1, order, eventId, e.eventType, at),
                        fanout[eventId := Subscribed(endpoints, e.appId, e.eventType)])
  {
    FinishKeepsRefer(endpoints, events, deliveries, fanout, e, eventId, order, at);
    FinishKeepsSingle(events, deliveries, order, eventId, e.eventType, at);
    FinishKeepsComplete(endpoints, deliveries, fanout, e, eventId, order, at);
  }

  lemma NewHasDelivery(deliveries: map<Id, Delivery>, order: seq<Id>, eventId: Id, p: Id, kind: EventType, at: Time)
    requires p in order
    ensures HasDelivery(deliveries + FanOut(eventId + 1, order, eventId, kind, at), eventId, p)
  {
    FanOutRows(eventId + 1, order, eventId, kind, at);
    var i :| 0 <= i < |order| && order[i] == p;
    var added := FanOut(eventId + 1, order, eventId, kind, at);
    assert (eventId + 1 + i) in added;
    assert Delivers((deliveries + added)[eventId + 1 + i], eventId, p);
  }

  lemma OldHasDelivery(deliveries: map<Id, Delivery>, added: map<Id, Delivery>, e: Id, p: Id)
    requires HasDelivery(deliveries, e, p) && deliveries.Keys !! added.Keys
    ensures HasDelivery(deliveries + added, e, p)
  {
    var d :| d in deliveries && Delivers(deliveries[d], e, p);
    assert Delivers((deliveries + added)[d], e, p);
  }

  lemma FinishKeepsSingle(events: map<Id, Event>, deliveries: map<Id, Delivery>, order: seq<Id>, eventId: Id,
                          kind: EventType, at: Time)
    requires eventId !in events && forall d :: d in deliveries ==> deliveries[d].eventId in events
    requires forall i, j :: 0 <= i < j < |order| ==> order[i] != order[j]
    requires DeliveriesSingle(deliveries)
    ensures DeliveriesSingle(deliveries + FanOut(eventId + 1, order, eventId, kind, at))
  {
    var added := FanOut(eventId + 1, order, eventId, kind, at);
    var after := deliveries + added;
    FanOutRows(eventId + 1, order, eventId, kind, at);
    forall a, b | a in after && b in after && Delivers(after[a], after[b].eventId, after[b].endpointId)
      ensures a == b
    {
      if a !in added {
        assert deliveries[a].eventId in events;
        assert Delivers(deliveries[a], deliveries[b].eventId, deliveries[b].endpointId);
      } else {
        assert b in added;
        assert order[a - eventId - 1] == order[b - eventId - 1];
      }
    }
  }

  lemma FanoutKeepsNewEndpoint(endpoints: map<Id, Endpoint>, events: map<Id, Event>, deliveries: map<Id, Delivery>,
                               fanout: map<Id, set<Id>>, id: Id, p: Endpoint)
    requires FanoutExact(endpoints, events, deliveries, fanout)
    requires id !in endpoints && forall e :: e in fanout ==> id !in fanout[e]
    ensures FanoutExact(endpoints[id := p], events, deliveries, fanout)
  {
  }

  lemma FanoutKeepsEnable(endpoints: map<Id, Endpoint>, events: map<Id, Event>, deliveries: map<Id, Delivery>,
                          fanout: map<Id, set<Id>>, id: Id, enabled: bool)
    requires FanoutExact(endpoints, events, deliveries, fanout) && id in endpoints
    ensures FanoutExact(endpoints[id := endpoints[id].(enabled := enabled)], events, deliveries, fanout)
  {
  }

  lemma FanoutKeepsDelete(endpoints: map<Id, Endpoint>, events: map<Id, Event>, deliveries: map<Id, Delivery>,
                          fanout: map<Id, set<Id>>, id: Id)
    requires FanoutExact(endpoints, events, deliveries, fanout)
    ensures FanoutExact(endpoints - {id}, events,
                        map d | d in deliveries && deliveries[d].endpointId != id :: deliveries[d], fanout)
  {
    var kept := map d | d in deliveries && deliveries[d].endpointId != id :: deliveries[d];
    forall e, p | e in fanout && p in fanout[e] && p in endpoints - {id}
      ensures HasDelivery(kept, e, p)
    {
      assert HasDelivery(deliveries, e, p);
      var d :| d in deliveries && Delivers(deliveries[d], e, p);
      assert d in kept && Delivers(kept[d], e, p);
    }
  }

  lemma FanoutKeepsWorkerWrite(endpoints: map<Id, Endpoint>, events: map<Id, Event>, deliveries: map<Id, Delivery>,
                               fanout: map<Id, set<Id>>, id: Id, status: DeliveryStatus, attempts: nat, next: Time)
    requires FanoutExact(endpoints, events, deliveries, fanout) && id in deliveries
    ensures FanoutExact(endpoints, events, deliveries[id :=
              deliveries[id].(status := status, attemptCount := attempts, nextAttemptAt := next)], fanout)
  {
    var after := deliveries[id := deliveries[id].(status := status, attemptCount := attempts, nextAttemptAt := next)];
    forall e, p | e in fanout && p in fanout[e] && p in endpoints
      ensures HasDelivery(after, e, p)
    {
      assert HasDelivery(deliveries, e, p);
      var d :| d in deliveries && Delivers(deliveries[d], e, p);
      assert Delivers(after[d], e, p);
    }
    forall a, b | a in after && b in after && Delivers(after[a], after[b].eventId, after[b].endpointId)
      ensures a == b
    {
      assert Delivers(deliveries[a], deliveries[b].eventId, deliveries[b].endpointId);
    }
  }

  lemma OutboxKeepsNewRow(vs: map<Id, Verification>, endpoints: map<Id, Endpoint>, events: map<Id, Event>,
                          deliveries: map<Id, Delivery>, fanout: map<Id, set<Id>>, id: Id, row: Verification)
    requires OutboxExact(vs, endpoints, events, deliveries, fanout)
    requires id !in vs && row.status == VerificationStatus.Pending
    ensures OutboxExact(vs[id := row], endpoints, events, deliveries, fanout)
  {
    hide EventsExact, FanoutExact;
    EventsKeepNewRow(vs, events, id, row);
  }

  lemma OutboxKeepsFinish(vs: map<Id, Verification>, endpoints: map<Id, Endpoint>, events: map<Id, Event>,
                          deliveries: map<Id, Delivery>, fanout: map<Id, set<Id>>,
                          id: Id, row: Verification, kind: EventType, eventId: Id, order: seq<Id>, at: Time)
    requires OutboxExact(vs, endpoints, events, deliveries, fanout)
    requires id in vs && vs[id].status == VerificationStatus.Pending
    requires row.status == FinalStatus(kind) && row.appId == vs[id].appId
    requires Below(events.Keys, eventId) && Below(deliveries.Keys, eventId)
    requires Lists(order, Subscribed(endpoints, row.appId, kind))
    ensures OutboxExact(vs[id := row], endpoints, events[eventId := Event(row.appId, kind, DataFor(id, row, kind), at)],
                        deliveries + FanOut(eventId + 1, order, eventId, kind, at),
                        fanout[eventId := Subscribed(endpoints, row.appId, kind)])
  {
    assert eventId !in events;
    hide EventsExact, FanoutExact;
    EventsKeepFinish(vs, events, id, row, kind, eventId, at);
    FanoutKeepsFinish(endpoints, events, deliveries, fanout, Event(row.appId, kind, DataFor(id, row, kind), at), eventId, order, at);
  }

  // ----- OnTime ------------------------------------------------------------

  lemma OnTimeKeepsTick(vs: map<Id, Verification>, bs: map<Id, Binding>, calls: map<Id, Call>, events: map<Id, Event>,
                        tasks: multiset<Id>, now: Time, dt: nat)
    requires OnTime(vs, bs, calls, events, tasks, now)
    ensures OnTime(vs, bs, calls, events, tasks, now + dt)
  {
  }

  lemma OnTimeKeepsRow(vs: map<Id, Verification>, bs: map<Id, Binding>, calls: map<Id, Call>, events: map<Id, Event>,
                       tasks: multiset<Id>, now: Time, id: Id, row: Verification)
    requires OnTime(vs, bs, calls, events, tasks, now) && RowOnTime(row, now)
    requires id in vs ==> row.expiresAt == vs[id].expiresAt
    ensures OnTime(vs[id := row], bs, calls, events, tasks, now)
  {
  }

  lemma OnTimeKeepsBindings(vs: map<Id, Verification>, bs: map<Id, Binding>, calls: map<Id, Call>, events: map<Id, Event>,
                            tasks: multiset<Id>, now: Time, after: map<Id, Binding>)
    requires OnTime(vs, bs, calls, events, tasks, now)
    requires forall b :: b in after && after[b].boundAt.Some? ==> after[b].boundAt.value <= now
    ensures OnTime(vs, after, calls, events, tasks, now)
  {
  }

  lemma OnTimeKeepsCall(vs: map<Id, Verification>, bs: map<Id, Binding>, calls: map<Id, Call>, events: map<Id, Event>,
                        tasks: multiset<Id>, now: Time, id: Id, call: Call)
    requires OnTime(vs, bs, calls, events, tasks, now)
    ensures (call.phase.Clocked? ==> call.phase.serverNow <= now) ==> OnTime(vs, bs, calls[id := call], events, tasks, now)
    ensures OnTime(vs, bs, calls - {id}, events, tasks, now)
  {
  }

  lemma OnTimeKeepsEvent(vs: map<Id, Verification>, bs: map<Id, Binding>, calls: map<Id, Call>, events: map<Id, Event>,
                         tasks: multiset<Id>, now: Time, id: Id, e: Event)
    requires OnTime(vs, bs, calls, events, tasks, now) && Timely(e, now)
    ensures OnTime(vs, bs, calls, events[id := e], tasks, now)
  {
  }

  lemma OnTimeKeepsTasks(vs: map<Id, Verification>, bs: map<Id, Binding>, calls: map<Id, Call>, events: map<Id, Event>,
                         tasks: multiset<Id>, now: Time, after: multiset<Id>)
    requires OnTime(vs, bs, calls, events, tasks, now) && TasksDue(vs, after, now)
    ensures OnTime(vs, bs, calls, events, after, now)
  {
  }

  lemma ListsGrows(order: seq<Id>, ids: set<Id>, e: Id)
    requires Lists(order, ids) && e !in ids
    ensures Lists(order + [e], ids + {e})
  {
    forall x | x in ids + {e} ensures x in order + [e] {
      if x in ids {
        assert x in order;
      } else {
        assert (order + [e])[|order|] == e;
      }
    }
  }

  /** Any finite set of endpoints can be listed. */
  lemma {:induction false} ListsExist(ids: set<Id>) returns (order: seq<Id>)
    ensures Lists(order, ids)
    decreases |ids|
  {
    if ids == {} {
      order := [];
    } else {
      var e :| e in ids;
      order := ListsExist(ids - {e});
      ListsGrows(order, ids - {e}, e);
      order := order + [e];
      assert ids - {e} + {e} == ids;
    }
  }
}
