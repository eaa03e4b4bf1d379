/** What a step may do to rows that already exist, and so what every run does
    to them: which columns are fixed, which statuses are final. */
module Evolution {
  import opened Wrappers
  import opened Schema
  import opened Store
  import opened Invariant
  import opened ClaimLemmas
  import opened StepLemmas

  /** A verification leaves `pending` at most once and is frozen from then on. */
  ghost predicate RowsEvolve(vs: map<Id, Verification>, vs': map<Id, Verification>) {
    forall v :: v in vs ==> v in vs' && RowEvolves(vs[v], vs'[v])
  }

  predicate RowEvolves(row: Verification, row': Verification) {
    && (row.status != VerificationStatus.Pending ==> row' == row)
    && (row'.status == VerificationStatus.Pending ==> row' == row)
    && row' == row.(status := row'.status, attempts := row'.attempts, verifiedAt := row'.verifiedAt,
                    cancelledAt := row'.cancelledAt, matchedInbound := row'.matchedInbound)
  }

  /** A binding moves forward only: pending, verified, revoked. */
  ghost predicate BindingsEvolve(bs: map<Id, Binding>, bs': map<Id, Binding>) {
    forall b :: b in bs ==> b in bs' && BindingEvolves(bs[b], bs'[b])
  }

  predicate BindingEvolves(row: Binding, row': Binding) {
    && (row.status == BindingStatus.Revoked ==> row'.status == BindingStatus.Revoked)
    && (row.status == BindingStatus.Verified ==> row'.status != BindingStatus.Pending)
    && (row.boundAt.Some? ==> row'.boundAt == row.boundAt)
    && (row'.status == BindingStatus.Pending ==> row' == row)
    && row' == row.(status := row'.status, boundAt := row'.boundAt, revokedAt := row'.revokedAt)
  }

  /** A message keeps its text and its first match, and one that no call is
      processing is decided for good. */
  ghost predicate MessagesEvolve(inbound: map<Id, Inbound>, calls: map<Id, Call>, inbound': map<Id, Inbound>, calls': map<Id, Call>) {
    forall i :: i in inbound ==>
      && i in inbound'
      && inbound'[i] == inbound[i].(matched := inbound'[i].matched)
      && (inbound[i].matched.Some? ==> inbound'[i] == inbound[i])
      && (i !in calls ==> inbound'[i] == inbound[i] && i !in calls')
  }

  /** Events and the endpoints they went to are append-only. */
  ghost predicate EventsEvolve(s: State, t: State) {
    && (forall e :: e in s.db.events ==> e in t.db.events && t.db.events[e] == s.db.events[e])
    && (forall e :: e in s.past.fanout ==> e in t.past.fanout && t.past.fanout[e] == s.past.fanout[e])
  }

  ghost predicate Evolves(s: State, t: State) {
    && s.now <= t.now
    && RowsEvolve(s.db.verifications, t.db.verifications)
    && BindingsEvolve(s.db.bindings, t.db.bindings)
    && MessagesEvolve(s.db.inbound, s.live.calls, t.db.inbound, t.live.calls)
    && EventsEvolve(s, t)
  }

  // ----- what each step leaves alone ---------------------------------------

  ghost predicate SameRows(s: State, t: State) {
    t.db.verifications == s.db.verifications && t.db.events == s.db.events && t.past.fanout == s.past.fanout
  }

  ghost predicate SameMessages(s: State, t: State) {
    t.db.inbound == s.db.inbound && t.live.calls == s.live.calls && t.past.boundBy == s.past.boundBy
  }

  lemma AdminFrame(s: State, step: AdminStep)
    ensures var t := ApplyAdmin(s, step); SameRows(s, t) && SameMessages(s, t) && t.db.bindings == s.db.bindings && t.now == s.now
  {
  }

  lemma BindFrame(s: State, cfg: Config, step: BindStep)
    ensures var t := ApplyBind(s, cfg, step); SameRows(s, t) && SameMessages(s, t) && t.now == s.now
  {
    hide IsBound;
  }

  lemma StartFrame(s: State, cfg: Config, step: StartStep)
    ensures var t := ApplyStart(s, cfg, step);
      SameMessages(s, t) && t.db.bindings == s.db.bindings && t.now == s.now && (!step.DoCommitStart? ==> SameRows(s, t))
  {
    hide IsBound, LockFree, MustWait, Collides, PendingFor, Eligible, First, NewRow;
  }

  lemma InboundFrame(s: State, cfg: Config, step: InboundStep)
    ensures var t := ApplyInbound(s, cfg, step);
      && t.now == s.now && (!step.DoClaim? ==> SameRows(s, t))
      && (!step.DoConsumeNonce? ==> t.db.bindings == s.db.bindings && t.past.boundBy == s.past.boundBy)
  {
    hide KeyTaken, WellFormed, Sender, Truncate, Promotable, Promote, ActiveUnique, Candidates, FanOut, Subscribed, Lists, DataFor;
  }

  lemma FinishFrame(s: State, id: Id, row: Verification, kind: EventType, order: seq<Id>)
    ensures var t := Finish(s, id, row, kind, order); t.now == s.now && t.db.bindings == s.db.bindings && SameMessages(s, t)
  {
    hide FanOut, Subscribed, DataFor;
  }

  lemma CloseFrame(s: State, step: CloseStep)
    ensures var t := ApplyClose(s, step); t.now == s.now && t.db.bindings == s.db.bindings && SameMessages(s, t)
    ensures step.DoRead? || step.DoLoseTask? || step.DoRepeatTask? ==> SameRows(s, ApplyClose(s, step))
  {
    hide Finish, Subscribed, Lists;
    match step
    case DoCancel(appId, id, order) =>
      if id in s.db.verifications {
        FinishFrame(s, id, s.db.verifications[id].(status := VerificationStatus.Cancelled, cancelledAt := Some(s.now)),
                    VerificationCancelled, order);
      }
    case DoRunExpiry(id, order) =>
      if id in s.db.verifications {
        FinishFrame(s.(live := s.live.(tasks := s.live.tasks - multiset{id})), id,
                    s.db.verifications[id].(status := VerificationStatus.Expired), VerificationExpired, order);
      }
    case _ =>
  }

  // ----- verifications and events ------------------------------------------

  lemma FinishEvolves(s: State, id: Id, row: Verification, kind: EventType, order: seq<Id>)
    requires IdsBelow(s) && s.past.fanout.Keys == s.db.events.Keys
    requires id in s.db.verifications && s.db.verifications[id].status == VerificationStatus.Pending
    requires RowEvolves(s.db.verifications[id], row)
    ensures RowsEvolve(s.db.verifications, Finish(s, id, row, kind, order).db.verifications)
    ensures EventsEvolve(s, Finish(s, id, row, kind, order))
  {
    hide FanOut, Subscribed, DataFor, FanoutBelow;
  }

  lemma CloseEvolves(s: State, step: CloseStep)
    requires IdsBelow(s) && s.past.fanout.Keys == s.db.events.Keys
    ensures RowsEvolve(s.db.verifications, ApplyClose(s, step).db.verifications) && EventsEvolve(s, ApplyClose(s, step))
  {
    hide Finish, IdsBelow, Subscribed, Lists, RowsEvolve;
    CloseFrame(s, step);
    EvolvesReflexive(s);
    match step
    case DoCancel(appId, id, order) =>
      if id in s.db.verifications && s.db.verifications[id].status == VerificationStatus.Pending {
        FinishEvolves(s, id, s.db.verifications[id].(status := VerificationStatus.Cancelled, cancelledAt := Some(s.now)),
                      VerificationCancelled, order);
      }
    case DoRunExpiry(id, order) =>
      if id in s.db.verifications && s.db.verifications[id].status == VerificationStatus.Pending {
        var done := s.(live := s.live.(tasks := s.live.tasks - multiset{id}));
        assert IdsBelow(done) by { TaskIds(s, s.live.tasks - multiset{id}); }
        FinishEvolves(done, id, s.db.verifications[id].(status := VerificationStatus.Expired), VerificationExpired, order);
      }
    case _ =>
  }

  lemma TaskIds(s: State, tasks: multiset<Id>)
    requires IdsBelow(s)
    ensures IdsBelow(s.(live := s.live.(tasks := tasks)))
  {
    hide Below, FanoutBelow;
  }

  lemma CommitEvolves(s: State, id: Id)
    requires IdsBelow(s)
    ensures RowsEvolve(s.db.verifications, CommitStart(s, id).db.verifications) && EventsEvolve(s, CommitStart(s, id))
  {
    hide Below, FanoutBelow;
  }

  lemma ClaimEvolves(s: State, cfg: Config, id: Id, locked: set<Id>, pick: Id, order: seq<Id>)
    requires IdsBelow(s) && s.past.fanout.Keys == s.db.events.Keys
    requires MessagesSound(cfg, s.db.receivers, s.db.verifications, s.db.bindings, s.db.inbound, s.past.boundBy, s.live.calls)
    ensures var t := ClaimVerification(s, id, locked, pick, order);
            RowsEvolve(s.db.verifications, t.db.verifications) && EventsEvolve(s, t)
  {
    hide Finish, IdsBelow, Subscribed, Lists, ClaimVerification, MessagesSound;
    ClaimCases(s, id, locked, pick, order);
    var t := ClaimVerification(s, id, locked, pick, order);
    if t != s && t != CrashCall(s, id) {
      ClaimIds(s, cfg, id, Some(pick));
      FinishEvolves(s.(db := s.db.(inbound := s.db.inbound[id := s.db.inbound[id].(matched := Some(pick))]),
                       live := s.live.(calls := s.live.calls - {id})),
                    pick, Claimed(s.db.verifications[pick], id, s.live.calls[id].phase.serverNow), VerificationVerified, order);
    }
  }

  // ----- bindings ----------------------------------------------------------

  lemma InsertBindEvolves(s: State, id: Id, nonce: string)
    requires IdsBelow(s)
    ensures BindingsEvolve(s.db.bindings, InsertBind(s, id, nonce).db.bindings)
  {
    hide Below, FanoutBelow;
  }

  lemma RevokeEvolves(s: State, appId: string, id: Id)
    ensures BindingsEvolve(s.db.bindings, RevokeBind(s, appId, id).db.bindings)
  {
    if id in s.db.bindings {
      RevokedEvolves(s.db.bindings, id, s.now);
    }
    EvolvesReflexive(s);
    hide BindingsEvolve;
  }

  lemma RevokedEvolves(bs: map<Id, Binding>, id: Id, at: Time)
    requires id in bs
    ensures BindingsEvolve(bs, bs[id := bs[id].(status := BindingStatus.Revoked, revokedAt := Some(at))])
  {
  }

  lemma PromoteEvolves(bs: map<Id, Binding>, which: set<Id>, at: Time)
    requires forall b :: b in which ==> b in bs && bs[b].status == BindingStatus.Pending && bs[b].boundAt.None?
    ensures BindingsEvolve(bs, Promote(bs, which, at))
  {
  }

  lemma PromotableUnbound(cfg: Config, bs: map<Id, Binding>, inbound: map<Id, Inbound>, boundBy: map<Id, Id>,
                          r: Id, phone: string, nonce: string, at: Time)
    requires BindingsSound(cfg, bs, inbound, boundBy)
    ensures forall b :: b in Promotable(bs, r, phone, nonce, at) ==>
      b in bs && bs[b].status == BindingStatus.Pending && bs[b].boundAt.None?
  {
    hide ActiveUnique, BoundWell;
  }

  lemma ConsumeEvolves(s: State, cfg: Config, id: Id, pick: Id)
    requires BindingsSound(cfg, s.db.bindings, s.db.inbound, s.past.boundBy)
    ensures BindingsEvolve(s.db.bindings, ConsumeNonce(s, id, pick).db.bindings)
  {
    hide ActiveUnique, BindingsSound, Promotable, Promote, BindingsEvolve;
    EvolvesReflexive(s);
    if id in s.live.calls && s.live.calls[id].phase.Clocked? && s.live.calls[id].intent.Bind? {
      var call := s.live.calls[id];
      var at := call.phase.serverNow;
      PromotableUnbound(cfg, s.db.bindings, s.db.inbound, s.past.boundBy, call.receiverId, call.from, call.intent.nonce, at);
      PromoteEvolves(s.db.bindings, Promotable(s.db.bindings, call.receiverId, call.from, call.intent.nonce, at), at);
    }
  }

  lemma EvolvesReflexive(s: State)
    ensures RowsEvolve(s.db.verifications, s.db.verifications)
    ensures BindingsEvolve(s.db.bindings, s.db.bindings)
    ensures MessagesEvolve(s.db.inbound, s.live.calls, s.db.inbound, s.live.calls)
    ensures EventsEvolve(s, s)
  {
  }

  // ----- messages ----------------------------------------------------------

  lemma InboundMessagesEvolve(s: State, cfg: Config, step: InboundStep)
    requires IdsBelow(s)
    requires CallsSound(cfg, s.db.inbound, s.past.boundBy, s.live.calls)
    ensures var t := ApplyInbound(s, cfg, step); MessagesEvolve(s.db.inbound, s.live.calls, t.db.inbound, t.live.calls)
  {
    forall c | c in s.live.calls ensures c in s.db.inbound && s.db.inbound[c].matched.None? {
      assert CallOk(cfg, s.db.inbound, s.past.boundBy, c, s.live.calls[c]);
    }
    assert s.nextId !in s.db.inbound;
    EvolvesReflexive(s);
    hide MessagesEvolve, IdsBelow, CallsSound, StoreInbound, ReadClock, ClaimVerification, ConsumeNonce, Annotate, CrashCall;
    match step
    case DoStoreInbound(r, from, body, key) => StoreEvolves(s, cfg, r, from, body, key);
    case DoReadClock(id) => ReadClockEvolves(s, id);
    case DoClaim(id, locked, pick, order) => ClaimMessagesEvolve(s, id, locked, pick, order);
    case DoConsumeNonce(id, pick) => ConsumeMessagesEvolve(s, id, pick);
    case DoAnnotate(id) => AnnotateEvolves(s, id);
    case DoReturn(id) => CrashEvolves(s, id);
    case DoCrashCall(id) => CrashEvolves(s, id);
  }

  /** Every call in flight has its stored row, which has matched nothing. */
  ghost predicate CallsOpen(s: State) {
    forall c :: c in s.live.calls ==> c in s.db.inbound && s.db.inbound[c].matched.None?
  }

  ghost predicate SameOrLater(s: State, t: State) {
    MessagesEvolve(s.db.inbound, s.live.calls, t.db.inbound, t.live.calls)
  }

  lemma StoreEvolves(s: State, cfg: Config, r: Id, from: string, body: string, key: string)
    requires s.nextId !in s.db.inbound
    ensures SameOrLater(s, StoreInbound(s, cfg, r, from, body, key))
  {
    hide KeyTaken, WellFormed, Sender, Truncate;
  }

  lemma ReadClockEvolves(s: State, id: Id)
    ensures SameOrLater(s, ReadClock(s, id))
  {
  }

  lemma ClaimMessagesEvolve(s: State, id: Id, locked: set<Id>, pick: Id, order: seq<Id>)
    requires CallsOpen(s)
    ensures SameOrLater(s, ClaimVerification(s, id, locked, pick, order))
  {
    hide Candidates, FanOut, Subscribed, Lists, DataFor;
  }

  lemma ConsumeMessagesEvolve(s: State, id: Id, pick: Id)
    ensures SameOrLater(s, ConsumeNonce(s, id, pick))
  {
    hide Promotable, Promote, ActiveUnique;
  }

  lemma AnnotateEvolves(s: State, id: Id)
    requires CallsOpen(s)
    ensures SameOrLater(s, Annotate(s, id))
  {
  }

  lemma CrashEvolves(s: State, id: Id)
    ensures SameOrLater(s, CrashCall(s, id))
  {
  }

  // ----- promotions --------------------------------------------------------

  /** A message that no call is processing promotes no binding any more. */
  ghost predicate PromotionsEvolve(s: State, t: State) {
    forall i, b :: i in s.db.inbound && i !in s.live.calls && b in t.past.boundBy && t.past.boundBy[b] == i ==>
      b in s.past.boundBy && s.past.boundBy[b] == i
  }

  lemma ConsumePromotes(s: State, id: Id, pick: Id)
    ensures PromotionsEvolve(s, ConsumeNonce(s, id, pick))
  {
    hide Promotable, Promote, ActiveUnique;
  }

  lemma StepPromotes(s: State, cfg: Config, step: Step)
    ensures PromotionsEvolve(s, Apply(s, cfg, step))
  {
    hide ApplyAdmin, ApplyBind, ApplyStart, ApplyInbound, ApplyClose;
    match step
    case Tick(dt) =>
    case Admin(a) => AdminFrame(s, a);
    case Binds(b) => BindFrame(s, cfg, b);
    case Starts(st) => StartFrame(s, cfg, st);
    case Inbounds(i) =>
      InboundFrame(s, cfg, i);
      if i.DoConsumeNonce? {
        ConsumePromotes(s, i.id, i.pick);
        assert ApplyInbound(s, cfg, i) == ConsumeNonce(s, i.id, i.pick) by { ConsumeIs(s, cfg, i); }
      }
    case Closes(c) => CloseFrame(s, c);
  }

  lemma ConsumeIs(s: State, cfg: Config, step: InboundStep)
    requires step.DoConsumeNonce?
    ensures ApplyInbound(s, cfg, step) == ConsumeNonce(s, step.id, step.pick)
  {
    hide ConsumeNonce;
  }

  lemma {:induction false} RunPromotes(s: State, cfg: Config, run: seq<Step>)
    requires Inv(s, cfg)
    ensures PromotionsEvolve(s, Exec(s, cfg, run))
    decreases |run|
  {
    hide Inv, Apply, RowsEvolve, BindingsEvolve, EventsEvolve;
    if run != [] {
      var t := Apply(s, cfg, run[0]);
      StepKeeps(s, cfg, run[0]);
      StepEvolves(s, cfg, run[0]);
      StepPromotes(s, cfg, run[0]);
      RunPromotes(t, cfg, run[1..]);
    }
  }

  // ----- every step, every run ---------------------------------------------

  lemma FactsForEvolution(s: State, cfg: Config)
    requires Inv(s, cfg)
    ensures IdsBelow(s) && s.past.fanout.Keys == s.db.events.Keys
    ensures MessagesSound(cfg, s.db.receivers, s.db.verifications, s.db.bindings, s.db.inbound, s.past.boundBy, s.live.calls)
    ensures BindingsSound(cfg, s.db.bindings, s.db.inbound, s.past.boundBy)
    ensures CallsSound(cfg, s.db.inbound, s.past.boundBy, s.live.calls)
  {
    hide IdsBelow, Homed, PendingSafe, OnTime, BoundFirst, EventsExact, DeliveriesRefer, DeliveriesSingle, DeliveriesComplete,
         Idempotent, ClaimsSound, BindingsSound, CallsSound;
  }

  lemma StepEvolves(s: State, cfg: Config, step: Step)
    requires Inv(s, cfg)
    ensures Evolves(s, Apply(s, cfg, step))
  {
    hide Inv, IdsBelow, MessagesSound, BindingsSound, CallsSound, ApplyAdmin, ApplyBind, ApplyStart, ApplyInbound, ApplyClose,
         RowsEvolve, BindingsEvolve, MessagesEvolve;
    FactsForEvolution(s, cfg);
    EvolvesReflexive(s);
    match step
    case Tick(dt) =>
    case Admin(a) => AdminFrame(s, a);
    case Binds(b) => BindFrame(s, cfg, b); BindEvolves(s, cfg, b);
    case Starts(st) => StartFrame(s, cfg, st); StartEvolves(s, cfg, st);
    case Inbounds(i) => InboundFrame(s, cfg, i); InboundMessagesEvolve(s, cfg, i); InboundEvolves(s, cfg, i);
    case Closes(c) => CloseFrame(s, c); CloseEvolves(s, c);
  }

  lemma BindEvolves(s: State, cfg: Config, step: BindStep)
    requires IdsBelow(s)
    ensures BindingsEvolve(s.db.bindings, ApplyBind(s, cfg, step).db.bindings)
  {
    hide InsertBind, RevokeBind, IdsBelow, IsBound;
    match step
    case DoBeginBind(appId, r, phone) =>
    case DoInsertBind(id, nonce) => InsertBindEvolves(s, id, nonce);
    case DoRevokeBind(appId, id) => RevokeEvolves(s, appId, id);
  }

  lemma StartEvolves(s: State, cfg: Config, step: StartStep)
    requires IdsBelow(s)
    ensures var t := ApplyStart(s, cfg, step); RowsEvolve(s.db.verifications, t.db.verifications) && EventsEvolve(s, t)
  {
    StartFrame(s, cfg, step);
    hide ApplyStart, IdsBelow, CommitStart;
    if step.DoCommitStart? {
      CommitEvolves(s, step.id);
      assert ApplyStart(s, cfg, step) == CommitStart(s, step.id) by { CommitIs(s, cfg, step); }
    }
  }

  lemma CommitIs(s: State, cfg: Config, step: StartStep)
    requires step.DoCommitStart?
    ensures ApplyStart(s, cfg, step) == CommitStart(s, step.id)
  {
    hide CommitStart;
  }

  lemma InboundEvolves(s: State, cfg: Config, step: InboundStep)
    requires IdsBelow(s) && s.past.fanout.Keys == s.db.events.Keys
    requires MessagesSound(cfg, s.db.receivers, s.db.verifications, s.db.bindings, s.db.inbound, s.past.boundBy, s.live.calls)
    requires BindingsSound(cfg, s.db.bindings, s.db.inbound, s.past.boundBy)
    ensures var t := ApplyInbound(s, cfg, step);
            RowsEvolve(s.db.verifications, t.db.verifications) && EventsEvolve(s, t) && BindingsEvolve(s.db.bindings, t.db.bindings)
  {
    InboundFrame(s, cfg, step);
    hide IdsBelow, MessagesSound, BindingsSound, ClaimVerification, ConsumeNonce, StoreInbound, Annotate, CrashCall, ReadClock;
    match step
    case DoClaim(id, locked, pick, order) => ClaimEvolves(s, cfg, id, locked, pick, order);
    case DoConsumeNonce(id, pick) => ConsumeEvolves(s, cfg, id, pick);
    case _ =>
  }

  lemma EvolvesTransitive(s: State, t: State, u: State)
    requires Evolves(s, t) && Evolves(t, u)
    ensures Evolves(s, u)
  {
  }

  /** Whatever happens in between, a later state has evolved from an earlier. */
  lemma {:induction false} RunEvolves(s: State, cfg: Config, run: seq<Step>)
    requires Inv(s, cfg)
    ensures Evolves(s, Exec(s, cfg, run))
    decreases |run|
  {
    hide Inv;
    if run != [] {
      StepKeeps(s, cfg, run[0]);
      StepEvolves(s, cfg, run[0]);
      RunEvolves(Apply(s, cfg, run[0]), cfg, run[1..]);
      EvolvesTransitive(s, Apply(s, cfg, run[0]), Exec(s, cfg, run));
    }
  }
}
