/** What the server promises about every reachable state and every run. */
module Guarantees {
  import opened Wrappers
  import opened Schema
  import opened Store
  import opened Columns
  import opened Invariant
  import opened ClaimLemmas
  import PendingLemmas
  import opened StepLemmas
  import opened Evolution

  ghost predicate Reachable(s: State, cfg: Config) {
    exists run: seq<Step> :: s == Exec(Empty, cfg, run)
  }

  lemma ReachableInv(s: State, cfg: Config)
    requires Reachable(s, cfg)
    ensures Inv(s, cfg)
  {
    hide Inv;
    var run: seq<Step> :| s == Exec(Empty, cfg, run);
    InvInitially(cfg);
    RunKeeps(Empty, cfg, run);
  }

  lemma ReachableNext(s: State, cfg: Config, step: Step)
    requires Reachable(s, cfg)
    ensures Reachable(Apply(s, cfg, step), cfg)
  {
    hide Apply;
    var run: seq<Step> :| s == Exec(Empty, cfg, run);
    ExecThen(Empty, cfg, run, step);
  }

  // ----- pending cap -------------------------------------------------------

  /** No interleaving of starts, verifications, cancellations, expiries and
      rolled-back collisions exceeds the cap, whatever the lock hash collides. */
  lemma PendingCap(s: State, cfg: Config, appId: string, phone: string)
    requires Reachable(s, cfg)
    ensures PendingCount(s.db.verifications, appId, phone) <= cfg.maxPendingPerPhone
  {
    CountIs(s.db.verifications, appId, phone);
    ReachableInv(s, cfg);
    hide IdsBelow, Homed, MessagesSound, OnTime, BoundFirst, OutboxExact, PendingUnique, InsertsSafe, LocksApart;
  }

  // ----- claims ------------------------------------------------------------

  lemma SoundClaims(s: State, cfg: Config)
    requires Reachable(s, cfg)
    ensures ClaimsSound(cfg, s.db.verifications, s.db.inbound)
    ensures BindingsSound(cfg, s.db.bindings, s.db.inbound, s.past.boundBy)
    ensures Idempotent(s.db.receivers, s.db.inbound)
    ensures CallsSound(cfg, s.db.inbound, s.past.boundBy, s.live.calls)
  {
    ReachableInv(s, cfg);
    hide IdsBelow, Homed, PendingSafe, OnTime, BoundFirst, OutboxExact, ClaimsSound, BindingsSound, CallsSound, Idempotent;
  }

  /** A verified row has exactly one claiming message: same receiver, sent by
      the row's phone, carrying the row's code, in time, and naming it back. */
  lemma VerifiedHasEvidence(s: State, cfg: Config, v: Id)
    requires Reachable(s, cfg) && v in s.db.verifications && s.db.verifications[v].status == VerificationStatus.Verified
    ensures VerifiedWell(cfg, s.db.inbound, v, s.db.verifications[v])
    ensures forall w :: w in s.db.verifications && w != v ==>
      s.db.verifications[w].matchedInbound != s.db.verifications[v].matchedInbound
  {
    SoundClaims(s, cfg);
    hide BindingsSound, CallsSound, Idempotent, Reachable;
    forall w | w in s.db.verifications && w != v
      ensures s.db.verifications[w].matchedInbound != s.db.verifications[v].matchedInbound
    {
      if s.db.verifications[w].status == VerificationStatus.Verified {
        assert VerifiedWell(cfg, s.db.inbound, w, s.db.verifications[w]);
      } else {
        assert Untouched(s.db.verifications[w]);
      }
    }
  }

  /** A VERIFY message that is matched names the verified row that names it. */
  lemma MatchedNamesVerified(s: State, cfg: Config, i: Id)
    requires Reachable(s, cfg) && i in s.db.inbound && s.db.inbound[i].matched.Some?
    requires cfg.parse(s.db.inbound[i].body).Verify?
    ensures var v := s.db.inbound[i].matched.value;
      && v in s.db.verifications
      && s.db.verifications[v].status == VerificationStatus.Verified
      && s.db.verifications[v].matchedInbound == Some(i)
  {
    SoundClaims(s, cfg);
    hide BindingsSound, CallsSound, Idempotent, Reachable, VerifiedWell;
  }

  lemma UniquePending(s: State, cfg: Config)
    requires Inv(s, cfg)
    ensures PendingUnique(s.db.verifications)
  {
    hide IdsBelow, Homed, MessagesSound, OnTime, BoundFirst, OutboxExact, WithinCap, InsertsSafe, LocksApart, PendingUnique;
  }

  /** The matcher's sub-select never has two rows to choose between. */
  lemma OneCandidate(s: State, cfg: Config, r: Id, phone: string, code: string, at: Time)
    requires Reachable(s, cfg)
    ensures |Candidates(s.db.verifications, r, phone, code, at)| <= 1
  {
    ReachableInv(s, cfg);
    UniquePending(s, cfg);
    hide Inv, Reachable, PendingUnique;
    OneCandidateIn(s.db.verifications, r, phone, code, at);
  }

  lemma OneCandidateIn(vs: map<Id, Verification>, r: Id, phone: string, code: string, at: Time)
    requires PendingUnique(vs)
    ensures |Candidates(vs, r, phone, code, at)| <= 1
  {
    forall a, b | a in Candidates(vs, r, phone, code, at) && b in Candidates(vs, r, phone, code, at) ensures a == b {
      assert SameTriple(vs[a], vs[b]);
    }
    AtMostOne(Candidates(vs, r, phone, code, at));
  }

  lemma HomeApp(s: State, cfg: Config, v: Id)
    requires Reachable(s, cfg) && v in s.db.verifications
    ensures OfApp(s.db.receivers, s.db.verifications[v].receiverId, s.db.verifications[v].appId)
  {
    ReachableInv(s, cfg);
    hide IdsBelow, PendingSafe, MessagesSound, OnTime, BoundFirst, OutboxExact, OfApp;
  }

  // ----- at most one effect per (receiver, idempotency key) ----------------

  function Rows(s: State, r: Id, key: string): set<Id> {
    set i | i in s.db.inbound && s.db.inbound[i].receiverId == r && s.db.inbound[i].idempotencyKey == key
  }

  function VerifiedBy(s: State, r: Id, key: string): set<Id> {
    set v | v in s.db.verifications && s.db.verifications[v].matchedInbound.Some?
            && s.db.verifications[v].matchedInbound.value in Rows(s, r, key)
  }

  function PromotedBy(s: State, r: Id, key: string): set<Id> {
    set b | b in s.past.boundBy && s.past.boundBy[b] in Rows(s, r, key)
  }

  lemma AtMostOne<T>(xs: set<T>)
    requires forall a, b :: a in xs && b in xs ==> a == b
    ensures |xs| <= 1
  {
    if xs != {} {
      var a :| a in xs;
      assert xs == {a};
    }
  }

  lemma OneRowPerKey(s: State, cfg: Config, r: Id, key: string)
    requires Reachable(s, cfg)
    ensures |Rows(s, r, key)| <= 1
  {
    SoundClaims(s, cfg);
    hide ClaimsSound, BindingsSound, CallsSound, Reachable;
    AtMostOne(Rows(s, r, key));
  }

  lemma OneVerificationPerKey(s: State, cfg: Config, r: Id, key: string)
    requires Reachable(s, cfg)
    ensures |VerifiedBy(s, r, key)| <= 1
    ensures forall v :: v in VerifiedBy(s, r, key) ==>
      cfg.parse(s.db.inbound[s.db.verifications[v].matchedInbound.value].body).Verify?
  {
    SoundClaims(s, cfg);
    hide BindingsSound, CallsSound, Reachable;
    forall v | v in VerifiedBy(s, r, key)
      ensures VerifiedWell(cfg, s.db.inbound, v, s.db.verifications[v])
    {
    }
    AtMostOne(VerifiedBy(s, r, key));
  }

  lemma OneBindingPerKey(s: State, cfg: Config, r: Id, key: string)
    requires Reachable(s, cfg)
    ensures |PromotedBy(s, r, key)| <= 1
    ensures forall b :: b in PromotedBy(s, r, key) ==> cfg.parse(s.db.inbound[s.past.boundBy[b]].body).Bind?
  {
    SoundClaims(s, cfg);
    hide ClaimsSound, CallsSound, Reachable, ActiveUnique;
    forall b | b in PromotedBy(s, r, key)
      ensures BoundWell(cfg, s.db.inbound, s.past.boundBy, b, s.db.bindings[b])
    {
    }
    AtMostOne(PromotedBy(s, r, key));
  }

  /** However often a gateway repeats a message, and whatever crashes, its key
      stores one row and that row flips one verification or one binding. */
  lemma AtMostOneEffect(s: State, cfg: Config, r: Id, key: string)
    requires Reachable(s, cfg)
    ensures |Rows(s, r, key)| <= 1
    ensures |VerifiedBy(s, r, key)| + |PromotedBy(s, r, key)| <= 1
  {
    OneRowPerKey(s, cfg, r, key);
    OneVerificationPerKey(s, cfg, r, key);
    OneBindingPerKey(s, cfg, r, key);
    hide Reachable;
    if VerifiedBy(s, r, key) != {} && PromotedBy(s, r, key) != {} {
      var v :| v in VerifiedBy(s, r, key);
      var b :| b in PromotedBy(s, r, key);
      var i, j := s.db.verifications[v].matchedInbound.value, s.past.boundBy[b];
      assert {i, j} <= Rows(s, r, key);
      if i != j {
        PendingLemmas.SubsetSize({i, j}, Rows(s, r, key));
      }
    }
  }

  /** The price of at-most-once: a message whose call died unmatched is never
      matched, verifies nothing, and promotes no binding that it had not
      promoted by then, although every repetition of it is answered as a
      duplicate and changes nothing. */
  lemma NoSecondChance(s: State, cfg: Config, i: Id, run: seq<Step>)
    requires Reachable(s, cfg) && i in s.db.inbound && i !in s.live.calls && s.db.inbound[i].matched.None?
    ensures var t := Exec(s, cfg, run);
      && i in t.db.inbound && t.db.inbound[i].matched.None?
      && (forall v :: v in t.db.verifications ==> t.db.verifications[v].matchedInbound != Some(i))
      && (forall b :: b in t.past.boundBy && t.past.boundBy[b] == i ==> b in s.past.boundBy && s.past.boundBy[b] == i)
      && (forall from, body :: StoreInbound(t, cfg, s.db.inbound[i].receiverId, from, body, s.db.inbound[i].idempotencyKey) == t)
  {
    hide Reachable, Inv, Exec, ClaimsSound, StoreInbound, RowsEvolve, BindingsEvolve, EventsEvolve;
    var t := Exec(s, cfg, run);
    ReachableInv(s, cfg);
    RunEvolves(s, cfg, run);
    RunPromotes(s, cfg, run);
    RunKeeps(s, cfg, run);
    MessagesIn(t, cfg);
    UnmatchedVerifiesNone(t, cfg, i);
    assert KeyTaken(t.db.inbound, s.db.inbound[i].receiverId, s.db.inbound[i].idempotencyKey);
    forall from, body ensures StoreInbound(t, cfg, s.db.inbound[i].receiverId, from, body, s.db.inbound[i].idempotencyKey) == t {
      TakenKeyStoresNothing(t, cfg, s.db.inbound[i].receiverId, from, body, s.db.inbound[i].idempotencyKey);
    }
  }

  lemma TakenKeyStoresNothing(s: State, cfg: Config, r: Id, from: string, body: string, key: string)
    requires KeyTaken(s.db.inbound, r, key)
    ensures StoreInbound(s, cfg, r, from, body, key) == s
  {
  }

  lemma UnmatchedVerifiesNone(s: State, cfg: Config, i: Id)
    requires ClaimsSound(cfg, s.db.verifications, s.db.inbound)
    requires i in s.db.inbound && s.db.inbound[i].matched.None?
    ensures forall v :: v in s.db.verifications ==> s.db.verifications[v].matchedInbound != Some(i)
  {
    forall v | v in s.db.verifications ensures s.db.verifications[v].matchedInbound != Some(i) {
      if s.db.verifications[v].status == VerificationStatus.Verified {
        assert VerifiedWell(cfg, s.db.inbound, v, s.db.verifications[v]);
      } else {
        assert Untouched(s.db.verifications[v]);
      }
    }
  }

  lemma MessagesIn(s: State, cfg: Config)
    requires Inv(s, cfg)
    ensures ClaimsSound(cfg, s.db.verifications, s.db.inbound)
  {
    hide IdsBelow, Homed, PendingSafe, OnTime, BoundFirst, OutboxExact, ClaimsSound, BindingsSound, CallsSound, Idempotent;
  }

  // ----- outbox ------------------------------------------------------------

  function EventsOf(s: State, v: Id): set<Id> {
    set e | e in s.db.events && s.db.events[e].data.verificationId == v
  }

  function DeliveriesOf(s: State, e: Id, p: Id): set<Id> {
    set d | d in s.db.deliveries && s.db.deliveries[d].eventId == e && s.db.deliveries[d].endpointId == p
  }

  lemma ExactOutbox(s: State, cfg: Config)
    requires Reachable(s, cfg)
    ensures EventsExact(s.db.verifications, s.db.events)
    ensures FanoutExact(s.db.endpoints, s.db.events, s.db.deliveries, s.past.fanout)
  {
    ReachableInv(s, cfg);
    hide IdsBelow, Homed, PendingSafe, MessagesSound, OnTime, BoundFirst, EventsExact, FanoutExact;
  }

  /** No event while pending, exactly one afterwards, and it tells the row's
      final status, app and timestamp. */
  lemma OneEventPerOutcome(s: State, cfg: Config, v: Id)
    requires Reachable(s, cfg) && v in s.db.verifications
    ensures |EventsOf(s, v)| == if s.db.verifications[v].status == VerificationStatus.Pending then 0 else 1
    ensures forall e :: e in EventsOf(s, v) ==>
      && s.db.events[e].data.status == s.db.verifications[v].status
      && (s.db.verifications[v].status == VerificationStatus.Verified <==> s.db.events[e].eventType == VerificationVerified)
      && (s.db.verifications[v].status == VerificationStatus.Expired <==> s.db.events[e].eventType == VerificationExpired)
      && (s.db.verifications[v].status == VerificationStatus.Cancelled <==> s.db.events[e].eventType == VerificationCancelled)
      && s.db.events[e].appId == s.db.verifications[v].appId
      && s.db.events[e].data.at == (match s.db.events[e].eventType
                                    case VerificationVerified => s.db.verifications[v].verifiedAt
                                    case VerificationExpired => Some(s.db.verifications[v].expiresAt)
                                    case VerificationCancelled => s.db.verifications[v].cancelledAt)
  {
    ExactOutbox(s, cfg);
    hide FanoutExact, Reachable;
    var es := EventsOf(s, v);
    forall e | e in es ensures EventOk(s.db.verifications, s.db.events[e]) {
    }
    AtMostOne(es);
    if s.db.verifications[v].status != VerificationStatus.Pending {
      assert HasEvent(s.db.events, v);
      var e :| e in s.db.events && s.db.events[e].data.verificationId == v;
      assert e in es;
    } else {
      assert es == {};
    }
  }

  /** An event has one delivery for each endpoint it was fanned out to that has
      not been deleted since, and no other. */
  lemma OneDeliveryPerSubscriber(s: State, cfg: Config, e: Id, p: Id)
    requires Reachable(s, cfg) && e in s.db.events
    ensures e in s.past.fanout
    ensures |DeliveriesOf(s, e, p)| == if p in s.past.fanout[e] && p in s.db.endpoints then 1 else 0
    ensures forall d :: d in DeliveriesOf(s, e, p) ==> s.db.deliveries[d].eventType == s.db.events[e].eventType
  {
    ExactOutbox(s, cfg);
    hide EventsExact, Reachable;
    var ds := DeliveriesOf(s, e, p);
    forall a, b | a in ds && b in ds ensures a == b {
      assert Delivers(s.db.deliveries[a], s.db.deliveries[b].eventId, s.db.deliveries[b].endpointId);
    }
    AtMostOne(ds);
    if p in s.past.fanout[e] && p in s.db.endpoints {
      assert HasDelivery(s.db.deliveries, e, p);
      var d :| d in s.db.deliveries && Delivers(s.db.deliveries[d], e, p);
      assert d in ds;
    } else {
      assert ds == {};
    }
  }

  /** The event has just been emitted: it goes to exactly the endpoints of its app
      that are enabled and subscribed to its type at that moment, and each new
      delivery is for it, pending, unattempted and due at once. */
  ghost predicate Emitted(s: State, t: State, e: Id)
    requires e in t.db.events
  {
    && e in t.past.fanout
    && (forall p :: p in t.past.fanout[e] <==>
          p in s.db.endpoints && s.db.endpoints[p].appId == t.db.events[e].appId && s.db.endpoints[p].enabled
          && t.db.events[e].eventType in s.db.endpoints[p].eventTypes)
    && t.db.events[e].createdAt == s.now && t.db.endpoints == s.db.endpoints
    && (forall d :: d in t.db.deliveries && d !in s.db.deliveries ==>
          && t.db.deliveries[d].endpointId in t.past.fanout[e]
          && t.db.deliveries[d]
             == Delivery(t.db.deliveries[d].endpointId, e, t.db.events[e].eventType, DeliveryStatus.Pending, 0, s.now))
  }

  lemma FinishFansOut(s: State, id: Id, row: Verification, kind: EventType, order: seq<Id>, e: Id)
    requires Lists(order, Subscribed(s.db.endpoints, row.appId, kind))
    requires var t := Finish(s, id, row, kind, order); e !in s.db.events && e in t.db.events
    ensures Emitted(s, Finish(s, id, row, kind, order), e)
  {
    hide DataFor;
  }

  /** The step that emits an event fans it out to exactly the endpoints of the
      app that are enabled and subscribed at that moment. */
  lemma EmissionFansOut(s: State, cfg: Config, step: Step, e: Id)
    requires Reachable(s, cfg)
    requires e !in s.db.events && e in Apply(s, cfg, step).db.events
    ensures Emitted(s, Apply(s, cfg, step), e)
    ensures forall p :: p in Apply(s, cfg, step).past.fanout[e] ==> |DeliveriesOf(Apply(s, cfg, step), e, p)| == 1
  {
    hide Reachable, Apply;
    StepFansOut(s, cfg, step, e);
    var t := Apply(s, cfg, step);
    ReachableNext(s, cfg, step);
    forall p | p in t.past.fanout[e] ensures |DeliveriesOf(t, e, p)| == 1 {
      OneDeliveryPerSubscriber(t, cfg, e, p);
    }
  }

  lemma StepFansOut(s: State, cfg: Config, step: Step, e: Id)
    requires e !in s.db.events && e in Apply(s, cfg, step).db.events
    ensures Emitted(s, Apply(s, cfg, step), e)
  {
    hide Finish, Subscribed, Lists, ApplyAdmin, ApplyBind, ApplyStart, Emitted;
    match step
    case Admin(a) => AdminFrame(s, a);
    case Binds(b) => BindFrame(s, cfg, b);
    case Starts(st) =>
      StartFrame(s, cfg, st);
      if st.DoCommitStart? {
        CommitIs(s, cfg, st);
      }
    case Inbounds(i) => InboundFansOut(s, cfg, i, e);
    case Closes(c) => CloseFansOut(s, c, e);
    case Tick(_) =>
  }

  lemma InboundFansOut(s: State, cfg: Config, step: InboundStep, e: Id)
    requires e !in s.db.events && e in ApplyInbound(s, cfg, step).db.events
    ensures Emitted(s, ApplyInbound(s, cfg, step), e)
  {
    hide Finish, Subscribed, Lists, ClaimVerification, StoreInbound, ReadClock, ConsumeNonce, Annotate;
    InboundFrame(s, cfg, step);
    if step.DoClaim? {
      ClaimCases(s, step.id, step.locked, step.pick, step.order);
      var t := ClaimVerification(s, step.id, step.locked, step.pick, step.order);
      if t != s && t != CrashCall(s, step.id) {
        FinishFansOut(s.(db := s.db.(inbound := s.db.inbound[step.id := s.db.inbound[step.id].(matched := Some(step.pick))]),
                         live := s.live.(calls := s.live.calls - {step.id})),
                      step.pick, Claimed(s.db.verifications[step.pick], step.id, s.live.calls[step.id].phase.serverNow),
                      VerificationVerified, step.order, e);
      }
    }
  }

  lemma CloseFansOut(s: State, step: CloseStep, e: Id)
    requires e !in s.db.events && e in ApplyClose(s, step).db.events
    ensures Emitted(s, ApplyClose(s, step), e)
  {
    hide Finish, Subscribed, Lists;
    CloseFrame(s, step);
    match step
    case DoCancel(appId, id, order) =>
      FinishFansOut(s, id, s.db.verifications[id].(status := VerificationStatus.Cancelled, cancelledAt := Some(s.now)),
                    VerificationCancelled, order, e);
    case DoRunExpiry(id, order) =>
      FinishFansOut(s.(live := s.live.(tasks := s.live.tasks - multiset{id})), id,
                    s.db.verifications[id].(status := VerificationStatus.Expired), VerificationExpired, order, e);
    case _ =>
  }

  // ----- final statuses ----------------------------------------------------

  /** Verified, expired and cancelled are absorbing: no later step changes any
      column of the row, nor its event, nor where that event went. */
  lemma FinalForever(s: State, cfg: Config, v: Id, e: Id, run: seq<Step>)
    requires Reachable(s, cfg) && v in s.db.verifications && s.db.verifications[v].status != VerificationStatus.Pending
    requires e in EventsOf(s, v)
    ensures var t := Exec(s, cfg, run);
      && v in t.db.verifications && t.db.verifications[v] == s.db.verifications[v]
      && EventsOf(t, v) == {e} && t.db.events[e] == s.db.events[e]
      && e in s.past.fanout && e in t.past.fanout && t.past.fanout[e] == s.past.fanout[e]
  {
    var t := Exec(s, cfg, run);
    ReachableInv(s, cfg);
    ExactOutbox(s, cfg);
    hide Inv, Reachable, EventsExact, FanoutExact, BindingsEvolve, MessagesEvolve;
    RunEvolves(s, cfg, run);
    FanoutKeys(s);
    RunKeeps(s, cfg, run);
    OneEventIn(t, cfg, v, e);
  }

  lemma FanoutKeys(s: State)
    requires FanoutExact(s.db.endpoints, s.db.events, s.db.deliveries, s.past.fanout)
    ensures s.past.fanout.Keys == s.db.events.Keys
  {
    hide DeliveriesRefer, DeliveriesSingle, DeliveriesComplete;
  }

  lemma OneEventIn(t: State, cfg: Config, v: Id, e: Id)
    requires Inv(t, cfg) && e in t.db.events && t.db.events[e].data.verificationId == v
    ensures EventsOf(t, v) == {e}
  {
    hide IdsBelow, Homed, PendingSafe, MessagesSound, OnTime, BoundFirst, FanoutExact, EventOk, HasEvent;
  }

  // ----- expiry ------------------------------------------------------------

  lemma InTime(s: State, cfg: Config)
    requires Inv(s, cfg)
    ensures OnTime(s.db.verifications, s.db.bindings, s.live.calls, s.db.events, s.live.tasks, s.now)
  {
    hide IdsBelow, Homed, PendingSafe, MessagesSound, OnTime, BoundFirst, OutboxExact;
  }

  /** The expiring UPDATE does not test expires_at, yet no row and no event
      expires before it, however late, lost or repeated its expiry is. */
  lemma NeverExpiresEarly(s: State, cfg: Config, v: Id)
    requires Reachable(s, cfg) && v in s.db.verifications && s.db.verifications[v].status == VerificationStatus.Expired
    ensures s.db.verifications[v].expiresAt <= s.now
    ensures forall e :: e in EventsOf(s, v) ==> s.db.verifications[v].expiresAt <= s.db.events[e].createdAt <= s.now
  {
    ReachableInv(s, cfg);
    InTime(s, cfg);
    OneEventPerOutcome(s, cfg, v);
    hide Inv, Reachable, TasksDue;
    forall e | e in EventsOf(s, v) ensures s.db.verifications[v].expiresAt <= s.db.events[e].createdAt <= s.now {
      assert Timely(s.db.events[e], s.now);
      assert s.db.events[e].eventType == VerificationExpired;
    }
  }

  /** Once some read has reported "expired" at a time, a row that is verified
      later was claimed by a server clock from before that time. */
  lemma ReportedExpiredBindsClaims(s: State, cfg: Config, v: Id, run: seq<Step>)
    requires Reachable(s, cfg) && v in s.db.verifications
    requires Reported(s.db.verifications[v], s.now) == VerificationStatus.Expired
    ensures var t := Exec(s, cfg, run);
      && v in t.db.verifications
      && (t.db.verifications[v].status == VerificationStatus.Verified ==>
            t.db.verifications[v].verifiedAt.Some? && t.db.verifications[v].verifiedAt.value < s.db.verifications[v].expiresAt <= s.now)
  {
    var t := Exec(s, cfg, run);
    ReachableInv(s, cfg);
    InTime(s, cfg);
    hide Inv, Reachable, TasksDue, EventsEvolve, MessagesEvolve, BindingsEvolve;
    RunEvolves(s, cfg, run);
    RunKeeps(s, cfg, run);
    MessagesIn(t, cfg);
    assert RowEvolves(s.db.verifications[v], t.db.verifications[v]);
    if t.db.verifications[v].status == VerificationStatus.Verified {
      assert VerifiedWell(cfg, t.db.inbound, v, t.db.verifications[v]);
    }
  }

  /** Exactly when a claim verifies a row: its message matches the pending row
      and its clock, not the time at which it runs, is before expires_at. So a
      row already reported expired is still verified by a slow claim. */
  lemma ClaimVerifiesExactlyWhen(s: State, cfg: Config, id: Id, v: Id, order: seq<Id>)
    requires Reachable(s, cfg) && v in s.db.verifications && s.db.verifications[v].status == VerificationStatus.Pending
    requires id in s.live.calls && s.live.calls[id].phase.Clocked?
    requires Lists(order, Subscribed(s.db.endpoints, s.db.verifications[v].appId, VerificationVerified))
    ensures
      var t := ClaimVerification(s, id, {}, v, order);
      t.db.verifications[v].status == VerificationStatus.Verified
      <==>
      && s.live.calls[id].intent == Verify(s.db.verifications[v].code)
      && s.live.calls[id].receiverId == s.db.verifications[v].receiverId
      && s.live.calls[id].from == s.db.verifications[v].phone
      && s.live.calls[id].phase.serverNow < s.db.verifications[v].expiresAt
  {
    hide ClaimsSound, BindingsSound, Idempotent, Reachable, ClaimVerification, Subscribed, Lists;
    SoundClaims(s, cfg);
    assert CallOk(cfg, s.db.inbound, s.past.boundBy, id, s.live.calls[id]);
    ClaimHits(s, id, v, order);
  }

  /** The claim's own condition, for a call that has its row. */
  lemma ClaimHits(s: State, id: Id, v: Id, order: seq<Id>)
    requires v in s.db.verifications && s.db.verifications[v].status == VerificationStatus.Pending
    requires id in s.live.calls && id in s.db.inbound && s.live.calls[id].phase.Clocked?
    requires Lists(order, Subscribed(s.db.endpoints, s.db.verifications[v].appId, VerificationVerified))
    ensures
      var t := ClaimVerification(s, id, {}, v, order);
      v in t.db.verifications
      && (t.db.verifications[v].status == VerificationStatus.Verified <==>
            && s.live.calls[id].intent == Verify(s.db.verifications[v].code)
            && s.live.calls[id].receiverId == s.db.verifications[v].receiverId
            && s.live.calls[id].from == s.db.verifications[v].phone
            && s.live.calls[id].phase.serverNow < s.db.verifications[v].expiresAt)
  {
    hide Subscribed, Lists, FanOut, DataFor;
  }

  /** And it always can: a claim whose clock was read in time, however long it
      then waits, verifies its row after a read has reported it expired. */
  lemma SlowClaimVerifiesExpired(s: State, cfg: Config, id: Id, v: Id, order: seq<Id>, wait: nat)
    requires Reachable(s, cfg) && v in s.db.verifications && s.db.verifications[v].status == VerificationStatus.Pending
    requires id in s.live.calls && s.live.calls[id].phase.Clocked? && s.live.calls[id].phase.serverNow < s.db.verifications[v].expiresAt
    requires s.live.calls[id].intent == Verify(s.db.verifications[v].code)
    requires s.live.calls[id].receiverId == s.db.verifications[v].receiverId && s.live.calls[id].from == s.db.verifications[v].phone
    requires Lists(order, Subscribed(s.db.endpoints, s.db.verifications[v].appId, VerificationVerified))
    requires s.now + wait >= s.db.verifications[v].expiresAt
    ensures var late := Apply(s, cfg, Tick(wait));
            var t := Apply(late, cfg, Inbounds(DoClaim(id, {}, v, order)));
      && Reported(late.db.verifications[v], late.now) == VerificationStatus.Expired
      && v in t.db.verifications && t.db.verifications[v].status == VerificationStatus.Verified
  {
    hide Reachable, ClaimVerification, Lists, Subscribed;
    var late := Apply(s, cfg, Tick(wait));
    ReachableNext(s, cfg, Tick(wait));
    assert Apply(late, cfg, Inbounds(DoClaim(id, {}, v, order))) == ClaimVerification(late, id, {}, v, order);
    ClaimKeepsRow(late, cfg, id, v, order);
    ClaimVerifiesExactlyWhen(late, cfg, id, v, order);
  }

  lemma ClaimKeepsRow(s: State, cfg: Config, id: Id, v: Id, order: seq<Id>)
    requires v in s.db.verifications
    ensures v in ClaimVerification(s, id, {}, v, order).db.verifications
  {
    hide Lists, Subscribed, Candidates;
  }

  // ----- bindings ----------------------------------------------------------

  function Active(s: State, appId: string, phone: string): set<Id> {
    set b | b in s.db.bindings && s.db.bindings[b].status == BindingStatus.Verified
            && s.db.bindings[b].appId == appId && s.db.bindings[b].phone == phone
  }

  /** One active binding per (app, phone), though nonces may collide and the
      check of startBinding is not atomic with its insert. */
  lemma OneActiveBinding(s: State, cfg: Config, appId: string, phone: string)
    requires Reachable(s, cfg)
    ensures |Active(s, appId, phone)| <= 1
  {
    SoundClaims(s, cfg);
    hide ClaimsSound, CallsSound, Idempotent, Reachable, BoundWell;
    forall a, b | a in Active(s, appId, phone) && b in Active(s, appId, phone) ensures a == b {
      assert SameActive(s.db.bindings[a], s.db.bindings[b]);
    }
    AtMostOne(Active(s, appId, phone));
  }

  /** Exactly when a BIND call verifies a binding: it is pending and of the call's
      receiver, phone and nonce, the call's clock, not the time at which it runs,
      is before expires_at, and the index of active bindings lets it. */
  lemma BindVerifiesExactlyWhen(s: State, cfg: Config, id: Id, b: Id)
    requires Reachable(s, cfg) && b in s.db.bindings && s.db.bindings[b].status == BindingStatus.Pending
    requires id in s.live.calls && s.live.calls[id].phase.Clocked?
    ensures var t := ConsumeNonce(s, id, b);
            var c := s.live.calls[id];
      && b in t.db.bindings
      && (t.db.bindings[b].status == BindingStatus.Verified <==>
            && c.intent == Bind(s.db.bindings[b].nonce)
            && c.receiverId == s.db.bindings[b].receiverId
            && c.from == s.db.bindings[b].phone
            && c.phase.serverNow < s.db.bindings[b].expiresAt
            && !WouldDouble(s.db.bindings, c.receiverId, c.from, c.intent.nonce, c.phase.serverNow))
  {
    hide Reachable, ClaimsSound, CallsSound, Idempotent, BoundWell, Promotable, ActiveUnique, WouldDouble;
    SoundClaims(s, cfg);
    var c := s.live.calls[id];
    if c.intent.Bind? {
      PromotableAwait(s.db.bindings, c.receiverId, c.from, c.intent.nonce, c.phase.serverNow);
      RefusedIff(s.db.bindings, c.receiverId, c.from, c.intent.nonce, c.phase.serverNow);
    }
  }

  /** A binding that was ever verified was so by its own phone, on its own
      receiver, with its own nonce, before it expired; and it is revoked for
      good, or was never pending again. */
  lemma BoundHasEvidence(s: State, cfg: Config, b: Id, run: seq<Step>)
    requires Reachable(s, cfg) && b in s.db.bindings && s.db.bindings[b].boundAt.Some?
    ensures BoundWell(cfg, s.db.inbound, s.past.boundBy, b, s.db.bindings[b])
    ensures var t := Exec(s, cfg, run);
      && b in t.db.bindings && t.db.bindings[b].boundAt == s.db.bindings[b].boundAt
      && t.db.bindings[b].status != BindingStatus.Pending
      && (s.db.bindings[b].status == BindingStatus.Revoked ==> t.db.bindings[b].status == BindingStatus.Revoked)
  {
    SoundClaims(s, cfg);
    ReachableInv(s, cfg);
    hide Inv, ClaimsSound, CallsSound, Idempotent, Reachable, BoundWell, RowsEvolve, MessagesEvolve, EventsEvolve;
    RunEvolves(s, cfg, run);
    assert BindingEvolves(s.db.bindings[b], Exec(s, cfg, run).db.bindings[b]);
  }

  /** One promotion takes at most one row, however many share the nonce. */
  lemma PromotesOne(s: State, cfg: Config, id: Id, pick: Id, b: Id)
    requires Reachable(s, cfg)
    requires b in s.db.bindings && ConsumeNonce(s, id, pick).db.bindings[b] != s.db.bindings[b]
    ensures b == pick
  {
    hide Inv, Reachable, OfApp, ActiveUnique, Promotable, Promote, ConsumeNonce;
    ReachableInv(s, cfg);
    BindingsHomed(s, cfg);
    ChangedIsPromoted(s, id, pick, b);
    var call := s.live.calls[id];
    PromotesAtMostOne(s.db.receivers, s.db.bindings, call.receiverId, call.from, call.intent.nonce, call.phase.serverNow, b, pick);
  }

  /** A row that the UPDATE changes is one it selects, and so is the picked one. */
  lemma ChangedIsPromoted(s: State, id: Id, pick: Id, b: Id)
    requires b in s.db.bindings && ConsumeNonce(s, id, pick).db.bindings[b] != s.db.bindings[b]
    ensures id in s.live.calls && s.live.calls[id].phase.Clocked? && s.live.calls[id].intent.Bind?
    ensures var call := s.live.calls[id];
            var which := Promotable(s.db.bindings, call.receiverId, call.from, call.intent.nonce, call.phase.serverNow);
      b in which && pick in which && ActiveUnique(Promote(s.db.bindings, which, call.phase.serverNow))
  {
    hide ActiveUnique, Promotable;
  }

  lemma BindingsHomed(s: State, cfg: Config)
    requires Inv(s, cfg)
    ensures forall k :: k in s.db.bindings ==> OfApp(s.db.receivers, s.db.bindings[k].receiverId, s.db.bindings[k].appId)
  {
    hide IdsBelow, PendingSafe, MessagesSound, OnTime, BoundFirst, OutboxExact, OfApp;
  }

  ghost predicate ProvedControl(s: State, cfg: Config, b: Id, row: Verification)
    requires b in s.db.bindings
  {
    && s.db.bindings[b].appId == row.appId && s.db.bindings[b].phone == row.phone
    && s.db.bindings[b].boundAt.Some? && s.db.bindings[b].boundAt.value <= s.now
    && BoundWell(cfg, s.db.inbound, s.past.boundBy, b, s.db.bindings[b])
  }

  /** No verification without the ceremony: its (app, phone) has a binding that
      was verified by a BIND message from that phone, no later than now. */
  lemma VerificationNeedsBinding(s: State, cfg: Config, v: Id)
    requires Reachable(s, cfg) && v in s.db.verifications
    ensures exists b | b in s.db.bindings :: ProvedControl(s, cfg, b, s.db.verifications[v])
  {
    ReachableInv(s, cfg);
    SoundClaims(s, cfg);
    InTime(s, cfg);
    FirstBound(s, cfg, v);
    hide Inv, Reachable, ClaimsSound, CallsSound, Idempotent, BoundWell, TasksDue;
    var b :| b in s.db.bindings && s.db.bindings[b].appId == s.db.verifications[v].appId
             && s.db.bindings[b].phone == s.db.verifications[v].phone && s.db.bindings[b].boundAt.Some?;
    assert ProvedControl(s, cfg, b, s.db.verifications[v]);
  }

  lemma FirstBound(s: State, cfg: Config, v: Id)
    requires Inv(s, cfg) && v in s.db.verifications
    ensures OnceBound(s.db.bindings, s.db.verifications[v].appId, s.db.verifications[v].phone)
  {
    hide IdsBelow, Homed, PendingSafe, MessagesSound, OnTime, OutboxExact, OnceBound;
  }
}
