/** Every step keeps the invariant; so does every run. */
module StepLemmas {
  import opened Wrappers
  import opened Schema
  import opened Store
  import opened Invariant
  import opened OutboxLemmas
  import opened ClaimLemmas
  import opened PendingLemmas

  // ----- facts the steps read off the invariant ----------------------------

  lemma BindingFacts(s: State)
    requires Homed(s.db.receivers, s.db.verifications, s.live.starts, s.db.bindings, s.live.bindStarts)
    requires OnTime(s.db.verifications, s.db.bindings, s.live.calls, s.db.events, s.live.tasks, s.now)
    ensures forall b :: b in s.db.bindings ==> OfApp(s.db.receivers, s.db.bindings[b].receiverId, s.db.bindings[b].appId)
    ensures forall b :: b in s.db.bindings && s.db.bindings[b].boundAt.Some? ==> s.db.bindings[b].boundAt.value <= s.now
    ensures forall b :: b in s.live.bindStarts ==> OfApp(s.db.receivers, s.live.bindStarts[b].receiverId, s.live.bindStarts[b].appId)
    ensures forall c :: c in s.live.calls && s.live.calls[c].phase.Clocked? ==> s.live.calls[c].phase.serverNow <= s.now
  {
  }

  lemma StartFacts(cfg: Config, s: State, id: Id)
    requires Homed(s.db.receivers, s.db.verifications, s.live.starts, s.db.bindings, s.live.bindStarts)
    requires BoundFirst(s.db.verifications, s.live.starts, s.db.bindings)
    requires PendingSafe(cfg, s.db.verifications, s.live.starts)
    requires id in s.live.starts
    ensures OnceBound(s.db.bindings, s.live.starts[id].appId, s.live.starts[id].phone)
    ensures s.live.starts[id].phase.Picked? ==> OfApp(s.db.receivers, s.live.starts[id].phase.receiverId, s.live.starts[id].appId)
    ensures s.live.starts[id].phase.Inserted? ==>
      && OfApp(s.db.receivers, s.live.starts[id].phase.row.receiverId, s.live.starts[id].appId)
      && s.live.starts[id].phase.row == NewRow(s.live.starts[id], s.live.starts[id].phase.row.receiverId, s.live.starts[id].phase.row.code)
  {
    hide OnceBound, WithinCap, LocksApart, PendingUnique, Collides;
  }

  lemma RowFacts(cfg: Config, s: State, id: Id)
    requires Homed(s.db.receivers, s.db.verifications, s.live.starts, s.db.bindings, s.live.bindStarts)
    requires BoundFirst(s.db.verifications, s.live.starts, s.db.bindings)
    requires OnTime(s.db.verifications, s.db.bindings, s.live.calls, s.db.events, s.live.tasks, s.now)
    requires id in s.db.verifications
    ensures OnceBound(s.db.bindings, s.db.verifications[id].appId, s.db.verifications[id].phone)
    ensures OfApp(s.db.receivers, s.db.verifications[id].receiverId, s.db.verifications[id].appId)
    ensures RowOnTime(s.db.verifications[id], s.now)
  {
    hide OnceBound;
  }

  lemma PendingFacts(cfg: Config, s: State, id: Id)
    requires MessagesSound(cfg, s.db.receivers, s.db.verifications, s.db.bindings, s.db.inbound, s.past.boundBy, s.live.calls)
    requires id in s.db.verifications && s.db.verifications[id].status == VerificationStatus.Pending
    ensures s.db.verifications[id].cancelledAt.None? && Untouched(s.db.verifications[id])
  {
    hide Idempotent, BindingsSound, CallsSound, VerifiedWell;
  }

  // ----- receivers, endpoints, worker writes -------------------------------

  lemma TickKeeps(s: State, cfg: Config, dt: nat)
    requires Inv(s, cfg)
    ensures Inv(s.(now := s.now + dt), cfg)
  {
    hide Homed, PendingSafe, MessagesSound, OnTime, BoundFirst, OutboxExact;
    OnTimeKeepsTick(s.db.verifications, s.db.bindings, s.live.calls, s.db.events, s.live.tasks, s.now, dt);
  }

  lemma ReceiversKeep(s: State, cfg: Config, after: map<Id, Receiver>, next: Id)
    requires Inv(s, cfg)
    requires forall r :: r in s.db.receivers ==> r in after && after[r].appId == s.db.receivers[r].appId
    requires s.nextId <= next && Below(after.Keys, next)
    ensures Inv(s.(db := s.db.(receivers := after), nextId := next), cfg)
  {
    hide Homed, PendingSafe, MessagesSound, OnTime, BoundFirst, OutboxExact;
    HomedKeepsReceivers(s.db.receivers, after, s.db.verifications, s.live.starts, s.db.bindings, s.live.bindStarts);
    MessagesKeepReceivers(cfg, s.db.receivers, s.db.verifications, s.db.bindings, s.db.inbound, s.past.boundBy, s.live.calls, after);
  }

  lemma ReceiverIds(s: State, cfg: Config)
    requires Inv(s, cfg)
    ensures Below(s.db.receivers.Keys, s.nextId)
  {
    hide Homed, PendingSafe, MessagesSound, OnTime, BoundFirst, OutboxExact;
  }

  lemma AddReceiverKeeps(s: State, cfg: Config, r: Receiver)
    requires Inv(s, cfg)
    ensures Inv(AddReceiver(s, r), cfg)
  {
    hide Inv;
    ReceiverIds(s, cfg);
    ReceiversKeep(s, cfg, s.db.receivers[s.nextId := r], s.nextId + 1);
  }

  lemma TouchReceiverKeeps(s: State, cfg: Config, id: Id, enabled: bool, hb: Option<Time>)
    requires Inv(s, cfg)
    ensures Inv(TouchReceiver(s, id, enabled, hb), cfg)
  {
    hide Inv;
    ReceiverIds(s, cfg);
    if id in s.db.receivers {
      ReceiversKeep(s, cfg, TouchReceiver(s, id, enabled, hb).db.receivers, s.nextId);
    }
  }

  lemma AddEndpointKeeps(s: State, cfg: Config, e: Endpoint)
    requires Inv(s, cfg)
    ensures Inv(AddEndpoint(s, e), cfg)
  {
    hide Homed, PendingSafe, MessagesSound, OnTime, BoundFirst, EventsExact, FanoutExact;
    assert forall f :: f in s.past.fanout ==> Below(s.past.fanout[f], s.nextId);
    FanoutKeepsNewEndpoint(s.db.endpoints, s.db.events, s.db.deliveries, s.past.fanout, s.nextId, e);
  }

  lemma EnableEndpointKeeps(s: State, cfg: Config, id: Id, enabled: bool)
    requires Inv(s, cfg)
    ensures Inv(EnableEndpoint(s, id, enabled), cfg)
  {
    hide Homed, PendingSafe, MessagesSound, OnTime, BoundFirst, EventsExact, FanoutExact;
    if id in s.db.endpoints {
      FanoutKeepsEnable(s.db.endpoints, s.db.events, s.db.deliveries, s.past.fanout, id, enabled);
    }
  }

  lemma DeleteEndpointKeeps(s: State, cfg: Config, appId: string, id: Id)
    requires Inv(s, cfg)
    ensures Inv(DeleteEndpoint(s, appId, id), cfg)
  {
    hide Homed, PendingSafe, MessagesSound, OnTime, BoundFirst, EventsExact, FanoutExact;
    FanoutKeepsDelete(s.db.endpoints, s.db.events, s.db.deliveries, s.past.fanout, id);
  }

  lemma WorkerWriteKeeps(s: State, cfg: Config, id: Id, status: DeliveryStatus, attempts: nat, next: Time)
    requires Inv(s, cfg)
    ensures Inv(WorkerWrite(s, id, status, attempts, next), cfg)
  {
    hide Homed, PendingSafe, MessagesSound, OnTime, BoundFirst, EventsExact, FanoutExact;
    if id in s.db.deliveries {
      FanoutKeepsWorkerWrite(s.db.endpoints, s.db.events, s.db.deliveries, s.past.fanout, id, status, attempts, next);
    }
  }

  // ----- phone bindings ----------------------------------------------------

  lemma BeginBindKeeps(s: State, cfg: Config, appId: string, r: Id, phone: string)
    requires Inv(s, cfg)
    ensures Inv(BeginBind(s, cfg, appId, r, phone), cfg)
  {
    var t := BeginBind(s, cfg, appId, r, phone);
    hide Homed, PendingSafe, MessagesSound, OnTime, BoundFirst, OutboxExact, IsBound;
    if t != s {
      HomedKeepsBindStart(s.db.receivers, s.db.verifications, s.live.starts, s.db.bindings, s.live.bindStarts, s.nextId, t.live.bindStarts[s.nextId]);
    }
  }

  lemma InsertBindIds(s: State, id: Id, nonce: string)
    requires IdsBelow(s)
    ensures IdsBelow(InsertBind(s, id, nonce))
  {
  }

  lemma RevokeBindIds(s: State, appId: string, id: Id)
    requires IdsBelow(s)
    ensures IdsBelow(RevokeBind(s, appId, id))
  {
  }

  /** The bindings change, and nothing else does. */
  lemma BindingsKeep(s: State, cfg: Config, after: map<Id, Binding>)
    requires Inv(s, cfg) && IdsBelow(s.(db := s.db.(bindings := after)))
    requires forall b :: b in after ==> OfApp(s.db.receivers, after[b].receiverId, after[b].appId)
    requires forall b :: b in after && after[b].boundAt.Some? ==> after[b].boundAt.value <= s.now
    requires BindingsSound(cfg, after, s.db.inbound, s.past.boundBy)
    requires forall b :: b in s.db.bindings ==> b in after && StillBound(s.db.bindings[b], after[b])
    ensures Inv(s.(db := s.db.(bindings := after)), cfg)
  {
    hide IdsBelow, Homed, PendingSafe, MessagesSound, BindingsSound, OnTime, BoundFirst, OutboxExact, OfApp;
    HomedKeepsBindings(s.db.receivers, s.db.verifications, s.live.starts, s.db.bindings, s.live.bindStarts, after);
    MessagesKeepBinding(cfg, s.db.receivers, s.db.verifications, s.db.bindings, s.db.inbound, s.past.boundBy, s.live.calls, after);
    OnTimeKeepsBindings(s.db.verifications, s.db.bindings, s.live.calls, s.db.events, s.live.tasks, s.now, after);
    BoundFirstGrows(s.db.bindings, after, s.db.verifications, s.live.starts);
  }

  lemma BindingsSoundIn(s: State, cfg: Config)
    requires Inv(s, cfg)
    ensures BindingsSound(cfg, s.db.bindings, s.db.inbound, s.past.boundBy)
    ensures Homed(s.db.receivers, s.db.verifications, s.live.starts, s.db.bindings, s.live.bindStarts)
    ensures OnTime(s.db.verifications, s.db.bindings, s.live.calls, s.db.events, s.live.tasks, s.now)
    ensures IdsBelow(s)
  {
    hide IdsBelow, Homed, PendingSafe, BindingsSound, OnTime, BoundFirst, OutboxExact, Idempotent, ClaimsSound, CallsSound;
  }

  lemma EndBindStartKeeps(s: State, cfg: Config, id: Id)
    requires Inv(s, cfg) && IdsBelow(s.(live := s.live.(bindStarts := s.live.bindStarts - {id})))
    ensures Inv(s.(live := s.live.(bindStarts := s.live.bindStarts - {id})), cfg)
  {
    hide IdsBelow, Homed, PendingSafe, MessagesSound, OnTime, BoundFirst, OutboxExact;
    HomedKeepsBindStart(s.db.receivers, s.db.verifications, s.live.starts, s.db.bindings, s.live.bindStarts, id, BindStart("", 0, "", 0));
  }

  lemma InsertBindKeeps(s: State, cfg: Config, id: Id, nonce: string)
    requires Inv(s, cfg)
    ensures Inv(InsertBind(s, id, nonce), cfg)
  {
    hide Inv, Homed, OnTime, OfApp, BindingsSound;
    BindingsSoundIn(s, cfg);
    BindingFacts(s);
    InsertBindIds(s, id, nonce);
    if id in s.live.bindStarts {
      var after := InsertBind(s, id, nonce).db.bindings;
      BindingsKeepNewRow(cfg, s.db.bindings, s.db.inbound, s.past.boundBy, id, after[id]);
      EndBindStartKeeps(s, cfg, id);
      hide IdsBelow;
      BindingsKeep(s.(live := s.live.(bindStarts := s.live.bindStarts - {id})), cfg, after);
    }
  }

  lemma RevokeBindKeeps(s: State, cfg: Config, appId: string, id: Id)
    requires Inv(s, cfg)
    ensures Inv(RevokeBind(s, appId, id), cfg)
  {
    hide Inv, IdsBelow, Homed, OnTime, OfApp, BindingsSound;
    BindingsSoundIn(s, cfg);
    BindingFacts(s);
    RevokeBindIds(s, appId, id);
    if RevokeBind(s, appId, id) != s {
      BindingsKeepRevoke(cfg, s.db.bindings, s.db.inbound, s.past.boundBy, id, s.now);
      BindingsKeep(s, cfg, RevokeBind(s, appId, id).db.bindings);
    }
  }

  // ----- startVerification -------------------------------------------------

  lemma BoundNowOnceBound(cfg: Config, bs: map<Id, Binding>, inbound: map<Id, Inbound>, boundBy: map<Id, Id>, appId: string, phone: string)
    requires BindingsSound(cfg, bs, inbound, boundBy) && IsBound(bs, appId, phone)
    ensures OnceBound(bs, appId, phone)
  {
    var b :| b in bs && bs[b].appId == appId && bs[b].phone == phone && bs[b].status == BindingStatus.Verified;
    assert bs[b].boundAt.Some?;
  }

  lemma BeginStartKeeps(s: State, cfg: Config, appId: string, phone: string, preferred: Option<string>)
    requires Inv(s, cfg)
    ensures Inv(BeginStart(s, cfg, appId, phone, preferred), cfg)
  {
    var t := BeginStart(s, cfg, appId, phone, preferred);
    hide Homed, PendingSafe, Idempotent, ClaimsSound, CallsSound, OnTime, BoundFirst, OutboxExact, BindingsSound, IsBound, OnceBound;
    if IsBound(s.db.bindings, appId, phone) {
      var start := t.live.starts[s.nextId];
      BoundNowOnceBound(cfg, s.db.bindings, s.db.inbound, s.past.boundBy, appId, phone);
      StartsKeepNew(cfg, s.db.verifications, s.live.starts, s.nextId, start);
      HomedKeepsStart(s.db.receivers, s.db.verifications, s.live.starts, s.db.bindings, s.live.bindStarts, s.nextId, start);
      BoundFirstKeepsStart(s.db.verifications, s.live.starts, s.db.bindings, s.nextId, start);
    }
  }

  /** A call moves on with its (app, phone), neither holding nor leaving an
      inserted row. */
  lemma MoveStartKeeps(s: State, cfg: Config, id: Id, start: Start)
    requires Inv(s, cfg)
    requires id in s.live.starts && start.appId == s.live.starts[id].appId && start.phone == s.live.starts[id].phone
    requires !start.phase.Inserted?
    requires start.phase.Picked? ==> OfApp(s.db.receivers, start.phase.receiverId, start.appId)
    requires HoldsLock(start) ==> HoldsLock(s.live.starts[id]) || LockFree(s.live.starts, cfg, id)
    requires PastCount(start) ==>
      PastCount(s.live.starts[id]) || |PendingFor(s.db.verifications, start.appId, start.phone)| < cfg.maxPendingPerPhone
    ensures Inv(s.(live := s.live.(starts := s.live.starts[id := start])), cfg)
  {
    hide Homed, PendingSafe, MessagesSound, OnTime, BoundFirst, OutboxExact, PendingFor, OnceBound, LockFree;
    StartFacts(cfg, s, id);
    StartsKeepPhase(cfg, s.db.verifications, s.live.starts, id, start);
    HomedKeepsStart(s.db.receivers, s.db.verifications, s.live.starts, s.db.bindings, s.live.bindStarts, id, start);
    BoundFirstKeepsStart(s.db.verifications, s.live.starts, s.db.bindings, id, start);
  }

  lemma EndStartKeeps(s: State, cfg: Config, id: Id)
    requires Inv(s, cfg)
    ensures Inv(EndStart(s, id), cfg)
  {
    hide Homed, PendingSafe, MessagesSound, OnTime, BoundFirst, OutboxExact;
    StartsKeepEnd(cfg, s.db.verifications, s.live.starts, id);
    var any := Start("", "", None, 0, 0, Idle);
    HomedKeepsStart(s.db.receivers, s.db.verifications, s.live.starts, s.db.bindings, s.live.bindStarts, id, any);
    BoundFirstKeepsStart(s.db.verifications, s.live.starts, s.db.bindings, id, any);
  }

  lemma TakeLockKeeps(s: State, cfg: Config, id: Id)
    requires Inv(s, cfg)
    ensures Inv(TakeLock(s, cfg, id), cfg)
  {
    hide Inv, LockFree;
    if id in s.live.starts && s.live.starts[id].phase.Idle? && LockFree(s.live.starts, cfg, id) {
      MoveStartKeeps(s, cfg, id, s.live.starts[id].(phase := Locked));
    }
  }

  lemma CountPendingKeeps(s: State, cfg: Config, id: Id)
    requires Inv(s, cfg)
    ensures Inv(CountPending(s, cfg, id), cfg)
  {
    hide Inv, PendingFor;
    EndStartKeeps(s, cfg, id);
    if id in s.live.starts && s.live.starts[id].phase.Locked?
       && |PendingFor(s.db.verifications, s.live.starts[id].appId, s.live.starts[id].phone)| < cfg.maxPendingPerPhone {
      MoveStartKeeps(s, cfg, id, s.live.starts[id].(phase := Counted));
    }
  }

  lemma EligibleOfApp(s: State, cfg: Config, appId: string, preferred: Option<string>, r: Id)
    requires r in Eligible(s, cfg, appId, preferred)
    ensures OfApp(s.db.receivers, r, appId)
  {
  }

  lemma PickReceiverKeeps(s: State, cfg: Config, id: Id, r: Id)
    requires Inv(s, cfg)
    ensures Inv(PickReceiver(s, cfg, id, r), cfg)
  {
    hide Inv, Eligible, Precedes;
    EndStartKeeps(s, cfg, id);
    if id in s.live.starts && s.live.starts[id].phase.Counted? && r in Eligible(s, cfg, s.live.starts[id].appId, s.live.starts[id].preferred) {
      EligibleOfApp(s, cfg, s.live.starts[id].appId, s.live.starts[id].preferred, r);
      MoveStartKeeps(s, cfg, id, s.live.starts[id].(phase := Picked(r)));
    }
  }

  lemma StartIds(s: State, id: Id, start: Start)
    requires IdsBelow(s) && id in s.live.starts
    ensures IdsBelow(s.(live := s.live.(starts := s.live.starts[id := start])))
  {
  }

  lemma InsertedKeeps(s: State, cfg: Config, id: Id, row: Verification)
    requires Inv(s, cfg)
    requires id in s.live.starts && s.live.starts[id].phase.Picked? && row == NewRow(s.live.starts[id], s.live.starts[id].phase.receiverId, row.code)
    requires !Collides(s.db.verifications, row) && !MustWait(s.live.starts, row)
    ensures Inv(SetPhase(s, id, Inserted(row)), cfg)
  {
    var start := s.live.starts[id].(phase := Inserted(row));
    hide IdsBelow, Homed, PendingSafe, MessagesSound, OnTime, BoundFirst, OutboxExact, OnceBound, OfApp, Collides, MustWait;
    StartFacts(cfg, s, id);
    StartIds(s, id, start);
    StartsKeepInsert(cfg, s.db.verifications, s.live.starts, id, row);
    HomedKeepsStart(s.db.receivers, s.db.verifications, s.live.starts, s.db.bindings, s.live.bindStarts, id, start);
    BoundFirstKeepsStart(s.db.verifications, s.live.starts, s.db.bindings, id, start);
  }

  lemma InsertRowKeeps(s: State, cfg: Config, id: Id, code: string)
    requires Inv(s, cfg)
    ensures Inv(InsertRow(s, cfg, id, code), cfg)
  {
    hide Inv, Collides, MustWait;
    if id in s.live.starts && s.live.starts[id].phase.Picked? {
      var start := s.live.starts[id];
      var row := NewRow(start, start.phase.receiverId, code);
      if Collides(s.db.verifications, row) {
        EndStartKeeps(s, cfg, id);
        MoveStartKeeps(s, cfg, id, start.(collisions := start.collisions + 1, phase := Idle));
      } else if !MustWait(s.live.starts, row) {
        InsertedKeeps(s, cfg, id, row);
      }
    }
  }

  lemma CommitIds(s: State, id: Id)
    requires IdsBelow(s) && id in s.live.starts && s.live.starts[id].phase.Inserted?
    ensures IdsBelow(CommitStart(s, id))
    ensures id !in s.db.verifications
  {
  }

  lemma CommitStartKeeps(s: State, cfg: Config, id: Id)
    requires Inv(s, cfg)
    ensures Inv(CommitStart(s, id), cfg)
  {
    hide IdsBelow, Homed, PendingSafe, MessagesSound, OnTime, BoundFirst, OutboxExact, OnceBound, OfApp;
    if id in s.live.starts && s.live.starts[id].phase.Inserted? {
      var start := s.live.starts[id];
      var row := start.phase.row;
      StartFacts(cfg, s, id);
      CommitIds(s, id);
      PendingKeepsCommit(cfg, s.db.verifications, s.live.starts, id);
      MessagesKeepNewRow(cfg, s.db.receivers, s.db.verifications, s.db.bindings, s.db.inbound, s.past.boundBy, s.live.calls, id, row);
      OutboxKeepsNewRow(s.db.verifications, s.db.endpoints, s.db.events, s.db.deliveries, s.past.fanout, id, row);
      OnTimeKeepsRow(s.db.verifications, s.db.bindings, s.live.calls, s.db.events, s.live.tasks, s.now, id, row);
      CommitHome(s, id, row);
    }
  }

  lemma CommitHome(s: State, id: Id, row: Verification)
    requires Homed(s.db.receivers, s.db.verifications, s.live.starts, s.db.bindings, s.live.bindStarts)
    requires BoundFirst(s.db.verifications, s.live.starts, s.db.bindings)
    requires OfApp(s.db.receivers, row.receiverId, row.appId) && OnceBound(s.db.bindings, row.appId, row.phone)
    ensures Homed(s.db.receivers, s.db.verifications[id := row], s.live.starts - {id}, s.db.bindings, s.live.bindStarts)
    ensures BoundFirst(s.db.verifications[id := row], s.live.starts - {id}, s.db.bindings)
  {
    hide Homed, BoundFirst, OfApp, OnceBound;
    var any := Start("", "", None, 0, 0, Idle);
    HomedKeepsRow(s.db.receivers, s.db.verifications, s.live.starts, s.db.bindings, s.live.bindStarts, id, row);
    HomedKeepsStart(s.db.receivers, s.db.verifications[id := row], s.live.starts, s.db.bindings, s.live.bindStarts, id, any);
    BoundFirstKeepsRow(s.db.verifications, s.live.starts, s.db.bindings, id, row);
    BoundFirstKeepsStart(s.db.verifications[id := row], s.live.starts, s.db.bindings, id, any);
  }

  // ----- finishing a verification ------------------------------------------

  lemma FinishIds(s: State, id: Id, row: Verification, kind: EventType, order: seq<Id>)
    requires IdsBelow(s) && id in s.db.verifications && Lists(order, Subscribed(s.db.endpoints, row.appId, kind))
    ensures IdsBelow(Finish(s, id, row, kind, order))
  {
    FanOutRows(s.nextId + 1, order, s.nextId, kind, s.now);
    var t := Finish(s, id, row, kind, order);
    assert Below(t.db.deliveries.Keys, t.nextId);
    assert Below(t.db.events.Keys, t.nextId);
    assert Below(Subscribed(s.db.endpoints, row.appId, kind), s.nextId);
    assert FanoutBelow(t.past.fanout, t.nextId);
    assert t.db.verifications.Keys == s.db.verifications.Keys;
    hide Finish, FanOut, Subscribed;
  }

  /** A pending row becomes final together with its event: shared by claim,
      cancel and expiry, which differ in what they owe MessagesSound. */
  lemma FinishKeeps(s: State, cfg: Config, id: Id, row: Verification, kind: EventType, order: seq<Id>)
    requires IdsBelow(s)
    requires Homed(s.db.receivers, s.db.verifications, s.live.starts, s.db.bindings, s.live.bindStarts)
    requires PendingSafe(cfg, s.db.verifications, s.live.starts)
    requires MessagesSound(cfg, s.db.receivers, s.db.verifications[id := row], s.db.bindings, s.db.inbound, s.past.boundBy, s.live.calls)
    requires OnTime(s.db.verifications, s.db.bindings, s.live.calls, s.db.events, s.live.tasks, s.now)
    requires BoundFirst(s.db.verifications, s.live.starts, s.db.bindings)
    requires OutboxExact(s.db.verifications, s.db.endpoints, s.db.events, s.db.deliveries, s.past.fanout)
    requires id in s.db.verifications && s.db.verifications[id].status == VerificationStatus.Pending
    requires row.appId == s.db.verifications[id].appId && row.receiverId == s.db.verifications[id].receiverId
    requires row.phone == s.db.verifications[id].phone && row.expiresAt == s.db.verifications[id].expiresAt
    requires row.status == FinalStatus(kind) && RowOnTime(row, s.now)
    requires Lists(order, Subscribed(s.db.endpoints, row.appId, kind))
    requires DataFor(id, row, kind).at.Some? && DataFor(id, row, kind).at.value <= s.now
    ensures Inv(Finish(s, id, row, kind, order), cfg)
  {
    var e := Event(row.appId, kind, DataFor(id, row, kind), s.now);
    hide Homed, PendingSafe, MessagesSound, OnTime, BoundFirst, OutboxExact, OnceBound, Subscribed, Lists, FanOut, Below, FanoutBelow;
    RowFacts(cfg, s, id);
    FinishIds(s, id, row, kind, order);
    hide IdsBelow;
    OutboxKeepsFinish(s.db.verifications, s.db.endpoints, s.db.events, s.db.deliveries, s.past.fanout, id, row, kind, s.nextId, order, s.now);
    PendingKeepsClose(cfg, s.db.verifications, s.live.starts, id, row);
    HomedKeepsRow(s.db.receivers, s.db.verifications, s.live.starts, s.db.bindings, s.live.bindStarts, id, row);
    BoundFirstKeepsRow(s.db.verifications, s.live.starts, s.db.bindings, id, row);
    OnTimeKeepsRow(s.db.verifications, s.db.bindings, s.live.calls, s.db.events, s.live.tasks, s.now, id, row);
    OnTimeKeepsEvent(s.db.verifications[id := row], s.db.bindings, s.live.calls, s.db.events, s.live.tasks, s.now, s.nextId, e);
  }

  lemma CancelKeeps(s: State, cfg: Config, appId: string, id: Id, order: seq<Id>)
    requires Inv(s, cfg)
    ensures Inv(Cancel(s, appId, id, order), cfg)
  {
    hide IdsBelow, Homed, PendingSafe, MessagesSound, OnTime, BoundFirst, OutboxExact, Finish, Subscribed, Lists;
    if Cancel(s, appId, id, order) != s {
      RowFacts(cfg, s, id);
      var row := s.db.verifications[id].(status := VerificationStatus.Cancelled, cancelledAt := Some(s.now));
      MessagesKeepClose(cfg, s.db.receivers, s.db.verifications, s.db.bindings, s.db.inbound, s.past.boundBy, s.live.calls, id, row);
      FinishKeeps(s, cfg, id, row, VerificationCancelled, order);
    }
  }

  lemma TasksKeep(s: State, cfg: Config, tasks: multiset<Id>)
    requires Inv(s, cfg) && TasksDue(s.db.verifications, tasks, s.now)
    ensures Inv(s.(live := s.live.(tasks := tasks)), cfg)
  {
    hide Homed, PendingSafe, MessagesSound, OnTime, BoundFirst, OutboxExact, TasksDue;
    OnTimeKeepsTasks(s.db.verifications, s.db.bindings, s.live.calls, s.db.events, s.live.tasks, s.now, tasks);
  }

  lemma DueTasks(s: State, cfg: Config)
    requires Inv(s, cfg)
    ensures TasksDue(s.db.verifications, s.live.tasks, s.now)
  {
  }

  lemma ReadKeeps(s: State, cfg: Config, id: Id)
    requires Inv(s, cfg)
    ensures Inv(Read(s, id), cfg)
  {
    hide Inv;
    if Read(s, id) != s {
      DueTasks(s, cfg);
      TasksKeep(s, cfg, s.live.tasks + multiset{id});
    }
  }

  lemma ExpireKeeps(s: State, cfg: Config, id: Id, order: seq<Id>)
    requires Inv(s, cfg)
    requires id in s.db.verifications && s.db.verifications[id].status == VerificationStatus.Pending && s.db.verifications[id].expiresAt <= s.now
    requires Lists(order, Subscribed(s.db.endpoints, s.db.verifications[id].appId, VerificationExpired))
    ensures Inv(Finish(s, id, s.db.verifications[id].(status := VerificationStatus.Expired), VerificationExpired, order), cfg)
  {
    hide IdsBelow, Homed, PendingSafe, MessagesSound, OnTime, BoundFirst, OutboxExact, Finish, Subscribed, Lists;
    var row := s.db.verifications[id].(status := VerificationStatus.Expired);
    RowFacts(cfg, s, id);
    PendingFacts(cfg, s, id);
    MessagesKeepClose(cfg, s.db.receivers, s.db.verifications, s.db.bindings, s.db.inbound, s.past.boundBy, s.live.calls, id, row);
    FinishKeeps(s, cfg, id, row, VerificationExpired, order);
  }

  lemma RunExpiryKeeps(s: State, cfg: Config, id: Id, order: seq<Id>)
    requires Inv(s, cfg)
    ensures Inv(RunExpiry(s, id, order), cfg)
  {
    hide Inv, Finish, Subscribed, Lists;
    DueTasks(s, cfg);
    TasksKeep(s, cfg, s.live.tasks - multiset{id});
    var done := s.(live := s.live.(tasks := s.live.tasks - multiset{id}));
    if id in s.live.tasks && s.db.verifications[id].status == VerificationStatus.Pending
       && Lists(order, Subscribed(s.db.endpoints, s.db.verifications[id].appId, VerificationExpired)) {
      ExpireKeeps(done, cfg, id, order);
    }
  }

  // ----- processInbound ----------------------------------------------------

  lemma StoreInboundKeeps(s: State, cfg: Config, r: Id, from: string, body: string, key: string)
    requires Inv(s, cfg)
    ensures Inv(StoreInbound(s, cfg, r, from, body, key), cfg)
  {
    var t := StoreInbound(s, cfg, r, from, body, key);
    hide Homed, PendingSafe, MessagesSound, OnTime, BoundFirst, OutboxExact, KeyTaken;
    if t != s {
      var id := s.nextId;
      MessagesKeepNewInbound(cfg, s.db.receivers, s.db.verifications, s.db.bindings, s.db.inbound, s.past.boundBy, s.live.calls, id, t.db.inbound[id]);
      OnTimeKeepsCall(s.db.verifications, s.db.bindings, s.live.calls, s.db.events, s.live.tasks, s.now, id, t.live.calls[id]);
    }
  }

  lemma ReadClockKeeps(s: State, cfg: Config, id: Id)
    requires Inv(s, cfg)
    ensures Inv(ReadClock(s, id), cfg)
  {
    hide Homed, PendingSafe, MessagesSound, OnTime, BoundFirst, OutboxExact;
    if id in s.live.calls && s.live.calls[id].phase.Stored? {
      MessagesKeepClock(cfg, s.db.receivers, s.db.verifications, s.db.bindings, s.db.inbound, s.past.boundBy, s.live.calls, id, s.now);
      OnTimeKeepsCall(s.db.verifications, s.db.bindings, s.live.calls, s.db.events, s.live.tasks, s.now, id, s.live.calls[id].(phase := Clocked(s.now)));
    }
  }

  lemma CrashCallKeeps(s: State, cfg: Config, id: Id)
    requires Inv(s, cfg)
    ensures Inv(CrashCall(s, id), cfg)
  {
    hide Homed, PendingSafe, MessagesSound, OnTime, BoundFirst, OutboxExact;
    MessagesKeepEnd(cfg, s.db.receivers, s.db.verifications, s.db.bindings, s.db.inbound, s.past.boundBy, s.live.calls, id);
    OnTimeKeepsCall(s.db.verifications, s.db.bindings, s.live.calls, s.db.events, s.live.tasks, s.now, id, Call(0, "", Nothing, Stored));
  }

  lemma AnnotateKeeps(s: State, cfg: Config, id: Id)
    requires Inv(s, cfg)
    ensures Inv(Annotate(s, id), cfg)
  {
    hide Homed, PendingSafe, MessagesSound, OnTime, BoundFirst, OutboxExact;
    if id in s.live.calls && s.live.calls[id].phase.Promoted? {
      MessagesKeepAnnotate(cfg, s.db.receivers, s.db.verifications, s.db.bindings, s.db.inbound, s.past.boundBy, s.live.calls, id);
      OnTimeKeepsCall(s.db.verifications, s.db.bindings, s.live.calls, s.db.events, s.live.tasks, s.now, id, s.live.calls[id]);
    }
  }

  lemma PromoteIds(s: State, which: set<Id>, at: Time, boundBy: map<Id, Id>, calls: map<Id, Call>)
    requires IdsBelow(s) && calls.Keys <= s.live.calls.Keys
    ensures IdsBelow(s.(db := s.db.(bindings := Promote(s.db.bindings, which, at)), past := s.past.(boundBy := boundBy), live := s.live.(calls := calls)))
  {
    assert Promote(s.db.bindings, which, at).Keys == s.db.bindings.Keys;
  }

  /** The state after a nonce was consumed. */
  function Consumed(s: State, id: Id, which: set<Id>, pick: Id, at: Time): State
    requires id in s.live.calls
  {
    s.(db := s.db.(bindings := Promote(s.db.bindings, which, at)),
       past := s.past.(boundBy := s.past.boundBy + (map b | b in which :: id)),
       live := s.live.(calls := s.live.calls[id := s.live.calls[id].(phase := Promoted(pick))]))
  }

  lemma PromoteGrows(bs: map<Id, Binding>, which: set<Id>, at: Time, now: Time, receivers: map<Id, Receiver>)
    requires at <= now
    requires forall b :: b in bs ==> OfApp(receivers, bs[b].receiverId, bs[b].appId)
    requires forall b :: b in bs && bs[b].boundAt.Some? ==> bs[b].boundAt.value <= now
    ensures var after := Promote(bs, which, at);
      && (forall b :: b in bs ==> b in after && StillBound(bs[b], after[b]))
      && (forall b :: b in after ==> OfApp(receivers, after[b].receiverId, after[b].appId))
      && (forall b :: b in after && after[b].boundAt.Some? ==> after[b].boundAt.value <= now)
  {
    hide OfApp;
  }

  lemma PromoteKeeps(s: State, cfg: Config, id: Id, pick: Id)
    requires Inv(s, cfg)
    requires id in s.live.calls && s.live.calls[id].phase.Clocked? && s.live.calls[id].intent.Bind?
    requires var call := s.live.calls[id];
             var which := Promotable(s.db.bindings, call.receiverId, call.from, call.intent.nonce, call.phase.serverNow);
             pick in which && ActiveUnique(Promote(s.db.bindings, which, call.phase.serverNow))
    ensures var call := s.live.calls[id];
            var which := Promotable(s.db.bindings, call.receiverId, call.from, call.intent.nonce, call.phase.serverNow);
            Inv(Consumed(s, id, which, pick, call.phase.serverNow), cfg)
  {
    hide IdsBelow, Homed, PendingSafe, MessagesSound, OnTime, BoundFirst, OutboxExact, ActiveUnique, Promotable, OfApp, Promote;
    var call := s.live.calls[id];
    var at := call.phase.serverNow;
    var which := Promotable(s.db.bindings, call.receiverId, call.from, call.intent.nonce, at);
    var t := Consumed(s, id, which, pick, at);
    BindingFacts(s);
    PromoteGrows(s.db.bindings, which, at, s.now, s.db.receivers);
    PromoteIds(s, which, at, t.past.boundBy, t.live.calls);
    MessagesKeepPromote(cfg, s.db.receivers, s.db.verifications, s.db.bindings, s.db.inbound, s.past.boundBy, s.live.calls, id, pick);
    HomedKeepsBindings(s.db.receivers, s.db.verifications, s.live.starts, s.db.bindings, s.live.bindStarts, t.db.bindings);
    BoundFirstGrows(s.db.bindings, t.db.bindings, s.db.verifications, s.live.starts);
    OnTimeKeepsBindings(s.db.verifications, s.db.bindings, s.live.calls, s.db.events, s.live.tasks, s.now, t.db.bindings);
    OnTimeKeepsCall(s.db.verifications, t.db.bindings, s.live.calls, s.db.events, s.live.tasks, s.now, id, call.(phase := Promoted(pick)));
  }

  lemma ConsumeNonceKeeps(s: State, cfg: Config, id: Id, pick: Id)
    requires Inv(s, cfg)
    ensures Inv(ConsumeNonce(s, id, pick), cfg)
  {
    hide Inv, Promotable, ActiveUnique, Promote;
    CrashCallKeeps(s, cfg, id);
    if id in s.live.calls && s.live.calls[id].phase.Clocked? && s.live.calls[id].intent.Bind? {
      var call := s.live.calls[id];
      var which := Promotable(s.db.bindings, call.receiverId, call.from, call.intent.nonce, call.phase.serverNow);
      if pick in which && ActiveUnique(Promote(s.db.bindings, which, call.phase.serverNow)) {
        PromoteKeeps(s, cfg, id, pick);
      }
    }
  }

  lemma ClaimIds(s: State, cfg: Config, id: Id, m: Option<Id>)
    requires IdsBelow(s) && id in s.live.calls
    requires MessagesSound(cfg, s.db.receivers, s.db.verifications, s.db.bindings, s.db.inbound, s.past.boundBy, s.live.calls)
    ensures id in s.db.inbound
    ensures IdsBelow(s.(db := s.db.(inbound := s.db.inbound[id := s.db.inbound[id].(matched := m)]), live := s.live.(calls := s.live.calls - {id})))
  {
    hide Idempotent, ClaimsSound, BindingsSound;
    assert CallOk(cfg, s.db.inbound, s.past.boundBy, id, s.live.calls[id]);
  }

  lemma CandidateFacts(vs: map<Id, Verification>, r: Id, phone: string, code: string, at: Time, now: Time, pick: Id, id: Id)
    requires pick in Candidates(vs, r, phone, code, at) && at <= now && RowOnTime(vs[pick], now)
    ensures vs[pick].status == VerificationStatus.Pending
    ensures RowOnTime(Claimed(vs[pick], id, at), now)
    ensures DataFor(pick, Claimed(vs[pick], id, at), VerificationVerified).at == Some(at)
  {
  }

  /** The call leaves, its message matched: all but MessagesSound, which the
      claim restores together with the row. */
  lemma MatchedCallKeeps(s: State, cfg: Config, id: Id, pick: Id)
    requires Inv(s, cfg) && id in s.live.calls
    ensures id in s.db.inbound
    ensures var t := s.(db := s.db.(inbound := s.db.inbound[id := s.db.inbound[id].(matched := Some(pick))]), live := s.live.(calls := s.live.calls - {id}));
      && IdsBelow(t)
      && OnTime(t.db.verifications, t.db.bindings, t.live.calls, t.db.events, t.live.tasks, t.now)
  {
    hide IdsBelow, Homed, PendingSafe, MessagesSound, OnTime, BoundFirst, OutboxExact;
    ClaimIds(s, cfg, id, Some(pick));
    OnTimeKeepsCall(s.db.verifications, s.db.bindings, s.live.calls, s.db.events, s.live.tasks, s.now, id, s.live.calls[id]);
  }

  lemma ClaimedKeeps(s: State, cfg: Config, id: Id, pick: Id, order: seq<Id>)
    requires Inv(s, cfg)
    requires id in s.live.calls && s.live.calls[id].phase.Clocked? && s.live.calls[id].intent.Verify?
    requires var call := s.live.calls[id];
             pick in Candidates(s.db.verifications, call.receiverId, call.from, call.intent.code, call.phase.serverNow)
    requires Lists(order, Subscribed(s.db.endpoints, s.db.verifications[pick].appId, VerificationVerified))
    ensures id in s.db.inbound
    ensures Inv(Finish(s.(db := s.db.(inbound := s.db.inbound[id := s.db.inbound[id].(matched := Some(pick))]), live := s.live.(calls := s.live.calls - {id})),
                       pick, Claimed(s.db.verifications[pick], id, s.live.calls[id].phase.serverNow), VerificationVerified, order), cfg)
  {
    assert pick in s.db.verifications;
    hide IdsBelow, Homed, PendingSafe, MessagesSound, OnTime, BoundFirst, OutboxExact, Finish, Subscribed, Lists, Candidates,
         RowOnTime, DataFor, OnceBound, OfApp;
    var call := s.live.calls[id];
    BindingFacts(s);
    RowFacts(cfg, s, pick);
    CandidateFacts(s.db.verifications, call.receiverId, call.from, call.intent.code, call.phase.serverNow, s.now, pick, id);
    MatchedCallKeeps(s, cfg, id, pick);
    MessagesKeepClaim(cfg, s.db.receivers, s.db.verifications, s.db.bindings, s.db.inbound, s.past.boundBy, s.live.calls, id, pick);
    FinishKeeps(s.(db := s.db.(inbound := s.db.inbound[id := s.db.inbound[id].(matched := Some(pick))]), live := s.live.(calls := s.live.calls - {id})),
                cfg, pick, Claimed(s.db.verifications[pick], id, call.phase.serverNow), VerificationVerified, order);
  }

  /** The outcomes of a claim: nothing, an end without a match, or a match. */
  lemma ClaimCases(s: State, id: Id, locked: set<Id>, pick: Id, order: seq<Id>)
    ensures var t := ClaimVerification(s, id, locked, pick, order);
      || t == s
      || t == CrashCall(s, id)
      || (&& id in s.live.calls && s.live.calls[id].phase.Clocked? && s.live.calls[id].intent.Verify?
          && id in s.db.inbound
          && pick in Candidates(s.db.verifications, s.live.calls[id].receiverId, s.live.calls[id].from, s.live.calls[id].intent.code, s.live.calls[id].phase.serverNow)
          && Lists(order, Subscribed(s.db.endpoints, s.db.verifications[pick].appId, VerificationVerified))
          && t == Finish(s.(db := s.db.(inbound := s.db.inbound[id := s.db.inbound[id].(matched := Some(pick))]), live := s.live.(calls := s.live.calls - {id})),
                         pick, Claimed(s.db.verifications[pick], id, s.live.calls[id].phase.serverNow), VerificationVerified, order))
  {
    hide Finish, Subscribed, Lists;
  }

  lemma ClaimKeeps(s: State, cfg: Config, id: Id, locked: set<Id>, pick: Id, order: seq<Id>)
    requires Inv(s, cfg)
    ensures Inv(ClaimVerification(s, id, locked, pick, order), cfg)
  {
    hide Inv, Finish, Subscribed, Lists, Candidates, ClaimVerification, Claimed;
    CrashCallKeeps(s, cfg, id);
    ClaimCases(s, id, locked, pick, order);
    var t := ClaimVerification(s, id, locked, pick, order);
    if t != s && t != CrashCall(s, id) {
      ClaimedKeeps(s, cfg, id, pick, order);
    }
  }

  // ----- all steps, all runs -----------------------------------------------

  lemma AdminKeeps(s: State, cfg: Config, step: AdminStep)
    requires Inv(s, cfg)
    ensures Inv(ApplyAdmin(s, step), cfg)
  {
    hide Inv, AddReceiver, TouchReceiver, AddEndpoint, EnableEndpoint, DeleteEndpoint, WorkerWrite;
    match step
    case DoAddReceiver(r) => AddReceiverKeeps(s, cfg, r);
    case DoTouchReceiver(id, enabled, hb) => TouchReceiverKeeps(s, cfg, id, enabled, hb);
    case DoAddEndpoint(e) => AddEndpointKeeps(s, cfg, e);
    case DoEnableEndpoint(id, enabled) => EnableEndpointKeeps(s, cfg, id, enabled);
    case DoDeleteEndpoint(appId, id) => DeleteEndpointKeeps(s, cfg, appId, id);
    case DoWorkerWrite(id, status, attempts, next) => WorkerWriteKeeps(s, cfg, id, status, attempts, next);
  }

  lemma BindKeeps(s: State, cfg: Config, step: BindStep)
    requires Inv(s, cfg)
    ensures Inv(ApplyBind(s, cfg, step), cfg)
  {
    hide Inv, BeginBind, InsertBind, RevokeBind;
    match step
    case DoBeginBind(appId, r, phone) => BeginBindKeeps(s, cfg, appId, r, phone);
    case DoInsertBind(id, nonce) => InsertBindKeeps(s, cfg, id, nonce);
    case DoRevokeBind(appId, id) => RevokeBindKeeps(s, cfg, appId, id);
  }

  lemma StartKeeps(s: State, cfg: Config, step: StartStep)
    requires Inv(s, cfg)
    ensures Inv(ApplyStart(s, cfg, step), cfg)
  {
    hide Inv, BeginStart, TakeLock, CountPending, PickReceiver, InsertRow, CommitStart, EndStart;
    match step
    case DoBeginStart(appId, phone, preferred) => BeginStartKeeps(s, cfg, appId, phone, preferred);
    case DoTakeLock(id) => TakeLockKeeps(s, cfg, id);
    case DoCountPending(id) => CountPendingKeeps(s, cfg, id);
    case DoPickReceiver(id, r) => PickReceiverKeeps(s, cfg, id, r);
    case DoInsertRow(id, code) => InsertRowKeeps(s, cfg, id, code);
    case DoCommitStart(id) => CommitStartKeeps(s, cfg, id);
    case DoAbandonStart(id) => EndStartKeeps(s, cfg, id);
  }

  lemma InboundKeeps(s: State, cfg: Config, step: InboundStep)
    requires Inv(s, cfg)
    ensures Inv(ApplyInbound(s, cfg, step), cfg)
  {
    hide Inv, StoreInbound, ReadClock, ClaimVerification, ConsumeNonce, Annotate, CrashCall;
    match step
    case DoStoreInbound(r, from, body, key) => StoreInboundKeeps(s, cfg, r, from, body, key);
    case DoReadClock(id) => ReadClockKeeps(s, cfg, id);
    case DoClaim(id, locked, pick, order) => ClaimKeeps(s, cfg, id, locked, pick, order);
    case DoConsumeNonce(id, pick) => ConsumeNonceKeeps(s, cfg, id, pick);
    case DoAnnotate(id) => AnnotateKeeps(s, cfg, id);
    case DoReturn(id) => CrashCallKeeps(s, cfg, id);
    case DoCrashCall(id) => CrashCallKeeps(s, cfg, id);
  }

  lemma CloseKeeps(s: State, cfg: Config, step: CloseStep)
    requires Inv(s, cfg)
    ensures Inv(ApplyClose(s, step), cfg)
  {
    hide Inv, Cancel, Read, RunExpiry;
    DueTasks(s, cfg);
    match step
    case DoCancel(appId, id, order) => CancelKeeps(s, cfg, appId, id, order);
    case DoRead(id) => ReadKeeps(s, cfg, id);
    case DoRunExpiry(id, order) => RunExpiryKeeps(s, cfg, id, order);
    case DoLoseTask(id) => TasksKeep(s, cfg, s.live.tasks - multiset{id});
    case DoRepeatTask(id) => if id in s.live.tasks { TasksKeep(s, cfg, s.live.tasks + multiset{id}); }
  }

  lemma StepKeeps(s: State, cfg: Config, step: Step)
    requires Inv(s, cfg)
    ensures Inv(Apply(s, cfg, step), cfg)
  {
    hide Inv, ApplyAdmin, ApplyBind, ApplyStart, ApplyInbound, ApplyClose;
    match step
    case Tick(dt) => TickKeeps(s, cfg, dt);
    case Admin(a) => AdminKeeps(s, cfg, a);
    case Binds(b) => BindKeeps(s, cfg, b);
    case Starts(st) => StartKeeps(s, cfg, st);
    case Inbounds(i) => InboundKeeps(s, cfg, i);
    case Closes(c) => CloseKeeps(s, cfg, c);
  }

  /** Safety over every run of every interleaving. */
  lemma {:induction false} RunKeeps(s: State, cfg: Config, run: seq<Step>)
    requires Inv(s, cfg)
    ensures Inv(Exec(s, cfg, run), cfg)
    decreases |run|
  {
    hide Inv;
    if run != [] {
      StepKeeps(s, cfg, run[0]);
      RunKeeps(Apply(s, cfg, run[0]), cfg, run[1..]);
    }
  }
}
