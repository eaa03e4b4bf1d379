/** What receiver selection comes to over many starts. */
module Selection {
  import opened Wrappers
  import opened Schema
  import opened Store
  import opened Columns
  import opened Invariant
  import opened Evolution
  import opened StepLemmas
  import opened ClaimLemmas

  function Load(vs: map<Id, Verification>, r: Id): nat { |PendingOn(vs, r)| }

  /** No two of these receivers are more than `gap` pending rows apart. */
  ghost predicate GapWithin(vs: map<Id, Verification>, among: set<Id>, gap: nat) {
    forall a, b :: a in among && b in among ==> Load(vs, a) <= Load(vs, b) + gap
  }

  datatype Commit = Commit(id: Id, row: Verification)

  /** A fresh pending row on a receiver that none of the others undercuts. */
  ghost predicate WellRouted(vs: map<Id, Verification>, among: set<Id>, c: Commit) {
    && c.id !in vs && c.row.status == VerificationStatus.Pending && c.row.receiverId in among
    && forall q :: q in among ==> Load(vs, c.row.receiverId) <= Load(vs, q)
  }

  ghost predicate AllWellRouted(vs: map<Id, Verification>, among: set<Id>, cs: seq<Commit>)
    decreases |cs|
  {
    cs != [] ==> WellRouted(vs, among, cs[0]) && AllWellRouted(vs[cs[0].id := cs[0].row], among, cs[1..])
  }

  function Committed(vs: map<Id, Verification>, cs: seq<Commit>): map<Id, Verification>
    decreases |cs|
  {
    if cs == [] then vs else Committed(vs[cs[0].id := cs[0].row], cs[1..])
  }

  /** pickReceiver picks a least loaded one. */
  lemma FirstIsLeastLoaded(s: State, among: set<Id>, r: Id)
    requires among <= s.db.receivers.Keys && First(s, among, r)
    ensures r in among && forall q :: q in among ==> Load(s.db.verifications, r) <= Load(s.db.verifications, q)
  {
    hide PendingOn;
    forall q | q in among ensures Load(s.db.verifications, r) <= Load(s.db.verifications, q) {
      assert !Precedes(s, q, r);
    }
  }

  lemma LoadsAfter(vs: map<Id, Verification>, c: Commit, r: Id)
    requires c.id !in vs && c.row.status == VerificationStatus.Pending
    ensures Load(vs[c.id := c.row], r) == Load(vs, r) + if r == c.row.receiverId then 1 else 0
  {
    var after := vs[c.id := c.row];
    if r == c.row.receiverId {
      assert PendingOn(after, r) == PendingOn(vs, r) + {c.id};
    } else {
      assert PendingOn(after, r) == PendingOn(vs, r);
    }
  }

  /** Over any number of committed starts, the most and the least loaded stay
      within the gap they began with, or one row if that is more. */
  lemma {:induction false} StaysBalanced(vs: map<Id, Verification>, among: set<Id>, cs: seq<Commit>, gap: nat)
    requires GapWithin(vs, among, gap) && AllWellRouted(vs, among, cs)
    ensures GapWithin(Committed(vs, cs), among, if gap >= 1 then gap else 1)
    decreases |cs|
  {
    if cs != [] {
      var after := vs[cs[0].id := cs[0].row];
      var wide := if gap >= 1 then gap else 1;
      hide Load;
      forall a, b | a in among && b in among ensures Load(after, a) <= Load(after, b) + wide {
        LoadsAfter(vs, cs[0], a);
        LoadsAfter(vs, cs[0], b);
      }
      StaysBalanced(after, among, cs[1..], wide);
    }
  }

  /** A start that the server commits is well routed among the app's healthy
      receivers when it has no preference. */
  lemma StartIsWellRouted(s: State, cfg: Config, appId: string, r: Id, id: Id, row: Verification)
    requires First(s, Eligible(s, cfg, appId, None), r) && id !in s.db.verifications
    requires row.status == VerificationStatus.Pending && row.receiverId == r
    ensures WellRouted(s.db.verifications, Healthy(s, cfg, appId, None), Commit(id, row))
  {
    hide First, Healthy;
    FirstIsLeastLoaded(s, Healthy(s, cfg, appId, None), r);
  }

  /** Selection fails only when the app has no healthy receiver at all, and a
      preferred operator is honoured whenever a healthy receiver has it. */
  lemma CompleteAndHonours(s: State, cfg: Config, appId: string, preferred: Option<string>, r: Id)
    ensures Eligible(s, cfg, appId, preferred) == {} <==> Healthy(s, cfg, appId, None) == {}
    ensures First(s, Eligible(s, cfg, appId, preferred), r) && preferred.Some? ==>
      (s.db.receivers[r].operator == preferred <==>
         exists q :: q in Healthy(s, cfg, appId, None) && s.db.receivers[q].operator == preferred)
  {
    hide PendingOn, Fresh;
    var any, some := Healthy(s, cfg, appId, None), Healthy(s, cfg, appId, preferred);
    assert some <= any;
    assert preferred.Some? ==> forall q :: q in some <==> q in any && s.db.receivers[q].operator == preferred;
    if First(s, Eligible(s, cfg, appId, preferred), r) && preferred.Some? {
      assert r in any;
      if some == {} {
        assert s.db.receivers[r].operator != preferred by {
          assert r !in some;
        }
      } else {
        var q :| q in some;
      }
    }
  }

  /** Inside the transaction, in any interleaving: the pick takes a receiver that
      is first in the router's one order, and gives up exactly when the app has no
      routable receiver at all. */
  lemma PickIsRouted(s: State, cfg: Config, id: Id, r: Id)
    requires id in s.live.starts && s.live.starts[id].phase.Counted?
    ensures var start := s.live.starts[id];
            var t := PickReceiver(s, cfg, id, r);
      && t.db == s.db
      && (id in t.live.starts <==> AnyRoutable(s, cfg.heartbeatTimeout, start.appId))
      && (id in t.live.starts && t.live.starts[id].phase == Picked(r) <==> Routed(s, cfg.heartbeatTimeout, start.appId, start.preferred, r))
  {
    hide Eligible, First, AnyRoutable, Routed;
    var start := s.live.starts[id];
    RoutesByOneOrder(s, cfg, start.appId, start.preferred, r);
    if Routed(s, cfg.heartbeatTimeout, start.appId, start.preferred, r) {
      SomeRoutable(s, cfg.heartbeatTimeout, start.appId, start.preferred, r);
    }
  }

  lemma SomeRoutable(s: State, timeout: nat, appId: string, preferred: Option<string>, r: Id)
    requires Routed(s, timeout, appId, preferred, r)
    ensures AnyRoutable(s, timeout, appId)
  {
  }

  // ----- starts in any interleaving ----------------------------------------

  /** The start has a receiver, and no committed row yet. */
  predicate Holds(start: Start) { start.phase.Picked? || start.phase.Inserted? }

  function PickOf(start: Start): Id
    requires Holds(start)
  {
    if start.phase.Picked? then start.phase.receiverId else start.phase.row.receiverId
  }

  predicate HoldsOn(start: Start, r: Id) { Holds(start) && PickOf(start) == r }

  function HeldOn(starts: map<Id, Start>, r: Id): set<Id> { set o | o in starts && HoldsOn(starts[o], r) }

  /** The app's starts in flight that hold a receiver. */
  function Holders(starts: map<Id, Start>, appId: string): set<Id> {
    set o | o in starts && Holds(starts[o]) && starts[o].appId == appId
  }

  /** What a receiver has and is about to have, against what another has. */
  ghost predicate Spread(s: State, among: set<Id>, gap: nat) {
    forall a, b :: a in among && b in among ==>
      Load(s.db.verifications, a) + |HeldOn(s.live.starts, a)| <= Load(s.db.verifications, b) + gap
  }

  /** Throughout the run the app's healthy receivers are the same, its starts
      prefer no operator, and at most k of them hold a receiver at a time. */
  ghost predicate Steady(s: State, cfg: Config, appId: string, among: set<Id>, k: nat, run: seq<Step>)
    decreases |run|
  {
    && Healthy(s, cfg, appId, None) == among
    && (forall o :: o in s.live.starts && s.live.starts[o].appId == appId ==> s.live.starts[o].preferred.None?)
    && |Holders(s.live.starts, appId)| <= k
    && (run != [] ==> Steady(Apply(s, cfg, run[0]), cfg, appId, among, k, run[1..]))
  }

  /** A step that ends a pending row: a claim, a cancellation or an expiry. */
  predicate EndsRow(s: State, t: State, step: Step) {
    (step.Inbounds? || step.Closes?) && t.db.verifications != s.db.verifications
  }

  function Closings(s: State, cfg: Config, run: seq<Step>): nat
    decreases |run|
  {
    if run == [] then 0
    else (if EndsRow(s, Apply(s, cfg, run[0]), run[0]) then 1 else 0) + Closings(Apply(s, cfg, run[0]), cfg, run[1..])
  }

  lemma StartsUntouched(s: State, cfg: Config, step: Step)
    ensures !step.Starts? ==> Apply(s, cfg, step).live.starts == s.live.starts
  {
    hide Subscribed, Lists, FanOut, DataFor, Candidates, Promotable, Promote, ActiveUnique, KeyTaken, WellFormed, Sender, Truncate, IsBound;
  }

  lemma HeldAfter(starts: map<Id, Start>, id: Id, start: Start, r: Id)
    ensures |HeldOn(starts, r)| == |HeldOn(starts - {id}, r)| + if id in starts && HoldsOn(starts[id], r) then 1 else 0
    ensures |HeldOn(starts[id := start], r)| == |HeldOn(starts - {id}, r)| + if HoldsOn(start, r) then 1 else 0
  {
    var rest := HeldOn(starts - {id}, r);
    if id in starts && HoldsOn(starts[id], r) {
      assert HeldOn(starts, r) == rest + {id};
    } else {
      assert HeldOn(starts, r) == rest;
    }
    if HoldsOn(start, r) {
      assert HeldOn(starts[id := start], r) == rest + {id};
    } else {
      assert HeldOn(starts[id := start], r) == rest;
    }
  }

  /** A start that moves on without taking a new receiver, or ends, holds no more
      than it did. */
  lemma SpreadKeepsMove(s: State, t: State, id: Id, among: set<Id>, gap: nat)
    requires Spread(s, among, gap) && t.db.verifications == s.db.verifications
    requires t.live.starts == s.live.starts - {id}
          || (id in t.live.starts && t.live.starts == s.live.starts[id := t.live.starts[id]]
              && forall r :: HoldsOn(t.live.starts[id], r) ==> id in s.live.starts && HoldsOn(s.live.starts[id], r))
    ensures Spread(t, among, gap)
  {
    hide Load, HeldOn, HoldsOn;
    forall a, b | a in among && b in among
      ensures Load(t.db.verifications, a) + |HeldOn(t.live.starts, a)| <= Load(t.db.verifications, b) + gap
    {
      if id in t.live.starts {
        HeldAfter(s.live.starts, id, t.live.starts[id], a);
      } else {
        HeldAfter(s.live.starts, id, Start("", "", None, 0, 0, Idle), a);
      }
    }
  }

  lemma SetInSet(a: set<Id>, b: set<Id>)
    requires a <= b
    ensures |a| <= |b|
  {
    assert b == a + (b - a);
  }

  /** What a start of one app holds is a receiver of that app. */
  lemma HeldByApp(s: State, cfg: Config, appId: string, r: Id)
    requires Inv(s, cfg) && OfApp(s.db.receivers, r, appId)
    ensures |HeldOn(s.live.starts, r)| <= |Holders(s.live.starts, appId)|
  {
    hide IdsBelow, PendingSafe, MessagesSound, OnTime, BoundFirst, OutboxExact;
    SetInSet(HeldOn(s.live.starts, r), Holders(s.live.starts, appId));
  }

  lemma EligibleHome(s: State, cfg: Config, appId: string, preferred: Option<string>)
    ensures forall r :: r in Eligible(s, cfg, appId, preferred) ==> OfApp(s.db.receivers, r, appId)
    ensures forall r :: r in Healthy(s, cfg, appId, None) ==> OfApp(s.db.receivers, r, appId)
    ensures Eligible(s, cfg, appId, None) == Healthy(s, cfg, appId, None)
  {
    hide Fresh;
  }

  /** A new pick is of a least loaded receiver, and all that is held there is
      held by the app's starts, at most k of them. */
  lemma PickSpreads(s: State, cfg: Config, appId: string, among: set<Id>, k: nat, gap: nat, id: Id, r: Id)
    requires Inv(s, cfg) && Inv(PickReceiver(s, cfg, id, r), cfg)
    requires Spread(s, among, gap) && k <= gap && Healthy(s, cfg, appId, None) == among
    requires forall o :: o in s.live.starts && s.live.starts[o].appId == appId ==> s.live.starts[o].preferred.None?
    requires |Holders(PickReceiver(s, cfg, id, r).live.starts, appId)| <= k
    ensures Spread(PickReceiver(s, cfg, id, r), among, gap)
  {
    hide Inv, Eligible, First, Healthy, Load, Holders, OfApp;
    var t := PickReceiver(s, cfg, id, r);
    if id in s.live.starts && s.live.starts[id].phase.Counted? && t != s {
      var start := s.live.starts[id];
      var eligible := Eligible(s, cfg, start.appId, start.preferred);
      EligibleHome(s, cfg, start.appId, start.preferred);
      EligibleHome(s, cfg, appId, None);
      if eligible == {} {
        SpreadKeepsMove(s, t, id, among, gap);
      } else {
        PickedReceiver(s, cfg, id, r);
        FirstIsLeastLoaded(s, eligible, r);
        forall a, b | a in among && b in among
          ensures Load(t.db.verifications, a) + |HeldOn(t.live.starts, a)| <= Load(t.db.verifications, b) + gap
        {
          HeldAfter(s.live.starts, id, start.(phase := Picked(r)), a);
          if a == r {
            SameHome(s.db.receivers, r, start.appId, appId);
            HeldByApp(t, cfg, appId, r);
          }
        }
      }
    }
  }

  lemma SameHome(receivers: map<Id, Receiver>, r: Id, a: string, b: string)
    requires OfApp(receivers, r, a) && OfApp(receivers, r, b)
    ensures a == b
  {
  }

  lemma PickedReceiver(s: State, cfg: Config, id: Id, r: Id)
    requires id in s.live.starts && s.live.starts[id].phase.Counted? && PickReceiver(s, cfg, id, r) != s
    requires Eligible(s, cfg, s.live.starts[id].appId, s.live.starts[id].preferred) != {}
    ensures First(s, Eligible(s, cfg, s.live.starts[id].appId, s.live.starts[id].preferred), r)
    ensures var t := PickReceiver(s, cfg, id, r);
      && t.live.starts == s.live.starts[id := s.live.starts[id].(phase := Picked(r))]
      && t.db == s.db
  {
    hide First, Eligible;
  }

  /** A commit turns one held receiver into one pending row. */
  lemma CommitSpreads(s: State, cfg: Config, id: Id, among: set<Id>, gap: nat)
    requires Inv(s, cfg) && Spread(s, among, gap)
    ensures Spread(CommitStart(s, id), among, gap)
  {
    hide Inv, Load, HeldOn, CommitStart;
    var t := CommitStart(s, id);
    CommitChanges(s, id);
    if id in s.live.starts && s.live.starts[id].phase.Inserted? {
      var row := s.live.starts[id].phase.row;
      InsertedIsNew(s, cfg, id);
      forall a, b | a in among && b in among
        ensures Load(t.db.verifications, a) + |HeldOn(t.live.starts, a)| <= Load(t.db.verifications, b) + gap
      {
        HeldAfter(s.live.starts, id, s.live.starts[id], a);
        LoadsAfter(s.db.verifications, Commit(id, row), a);
        LoadsAfter(s.db.verifications, Commit(id, row), b);
      }
    }
  }

  lemma CommitChanges(s: State, id: Id)
    ensures var t := CommitStart(s, id);
      if id in s.live.starts && s.live.starts[id].phase.Inserted?
      then t.db.verifications == s.db.verifications[id := s.live.starts[id].phase.row] && t.live.starts == s.live.starts - {id}
      else t == s
  {
  }

  lemma InsertedIsNew(s: State, cfg: Config, id: Id)
    requires Inv(s, cfg) && id in s.live.starts && s.live.starts[id].phase.Inserted?
    ensures id !in s.db.verifications && s.live.starts[id].phase.row.status == VerificationStatus.Pending
  {
    hide Homed, MessagesSound, OnTime, BoundFirst, OutboxExact, LocksApart, WithinCap, PendingUnique, Collides;
  }

  lemma StartSpreads(s: State, cfg: Config, appId: string, among: set<Id>, k: nat, gap: nat, step: StartStep)
    requires Inv(s, cfg) && Inv(ApplyStart(s, cfg, step), cfg)
    requires Spread(s, among, gap) && k <= gap && Healthy(s, cfg, appId, None) == among
    requires forall o :: o in s.live.starts && s.live.starts[o].appId == appId ==> s.live.starts[o].preferred.None?
    requires |Holders(ApplyStart(s, cfg, step).live.starts, appId)| <= k
    ensures Spread(ApplyStart(s, cfg, step), among, gap)
  {
    hide Inv, Spread, Healthy, Holders, IsBound, LockFree, MustWait, Collides, PendingFor, Eligible, First, NewRow;
    match step
    case DoPickReceiver(id, r) => PickSpreads(s, cfg, appId, among, k, gap, id, r);
    case DoCommitStart(id) => CommitSpreads(s, cfg, id, among, gap);
    case DoBeginStart(a, phone, preferred) => OtherStartSpreads(s, cfg, among, gap, step, s.nextId);
    case DoTakeLock(id) => OtherStartSpreads(s, cfg, among, gap, step, id);
    case DoCountPending(id) => OtherStartSpreads(s, cfg, among, gap, step, id);
    case DoInsertRow(id, code) => OtherStartSpreads(s, cfg, among, gap, step, id);
    case DoAbandonStart(id) => OtherStartSpreads(s, cfg, among, gap, step, id);
  }

  lemma OtherStartSpreads(s: State, cfg: Config, among: set<Id>, gap: nat, step: StartStep, id: Id)
    requires Spread(s, among, gap) && !step.DoPickReceiver? && !step.DoCommitStart?
    requires if step.DoBeginStart? then id == s.nextId else id == step.id
    ensures Spread(ApplyStart(s, cfg, step), among, gap)
  {
    hide Spread, IsBound, LockFree, MustWait, Collides, PendingFor;
    var t := ApplyStart(s, cfg, step);
    if t != s {
      SpreadKeepsMove(s, t, id, among, gap);
    }
  }

  /** Ending one pending row takes one from the load of its receiver only. */
  lemma LoadsClosed(vs: map<Id, Verification>, id: Id, row: Verification, r: Id)
    requires id in vs && row.receiverId == vs[id].receiverId && row.status != VerificationStatus.Pending
    ensures Load(vs[id := row], r) <= Load(vs, r) <= Load(vs[id := row], r) + 1
  {
    var before, after := PendingOn(vs, r), PendingOn(vs[id := row], r);
    assert after == before - {id};
    SetInSet(after, before);
    SetInSet(before, after + {id});
  }

  /** Claims, cancellations and expiries change one row, if any, to a final one. */
  ghost predicate ClosesOne(s: State, t: State) {
    t.db.verifications == s.db.verifications
    || exists id, row :: id in s.db.verifications && Ended(s.db.verifications[id], row)
                         && t.db.verifications == s.db.verifications[id := row]
  }

  predicate Ended(was: Verification, row: Verification) {
    row.receiverId == was.receiverId && row.status != VerificationStatus.Pending
  }

  lemma ClosesBy(s: State, t: State, id: Id, row: Verification)
    requires id in s.db.verifications && Ended(s.db.verifications[id], row)
    requires t.db.verifications == s.db.verifications || t.db.verifications == s.db.verifications[id := row]
    ensures ClosesOne(s, t)
  {
  }

  lemma InboundClosesOne(s: State, cfg: Config, step: InboundStep)
    ensures ClosesOne(s, ApplyInbound(s, cfg, step))
  {
    InboundFrame(s, cfg, step);
    hide ApplyInbound, ClaimVerification, Finish, Subscribed, Lists;
    if step.DoClaim? {
      ClaimStep(s, cfg, step);
      ClaimCases(s, step.id, step.locked, step.pick, step.order);
      var t := ClaimVerification(s, step.id, step.locked, step.pick, step.order);
      if t != s && t != CrashCall(s, step.id) {
        var call := s.live.calls[step.id];
        CandidateIn(s.db.verifications, call.receiverId, call.from, call.intent.code, call.phase.serverNow, step.pick);
        var row := Claimed(s.db.verifications[step.pick], step.id, call.phase.serverNow);
        FinishRowIs(s.(db := s.db.(inbound := s.db.inbound[step.id := s.db.inbound[step.id].(matched := Some(step.pick))]),
                       live := s.live.(calls := s.live.calls - {step.id})), step.pick, row, VerificationVerified, step.order);
        ClosesBy(s, t, step.pick, row);
      }
    }
  }

  lemma ClaimStep(s: State, cfg: Config, step: InboundStep)
    requires step.DoClaim?
    ensures ApplyInbound(s, cfg, step) == ClaimVerification(s, step.id, step.locked, step.pick, step.order)
  {
    hide ClaimVerification;
  }

  lemma FinishRowIs(s: State, id: Id, row: Verification, kind: EventType, order: seq<Id>)
    ensures Finish(s, id, row, kind, order).db.verifications == s.db.verifications[id := row]
  {
    hide FanOut, Subscribed, DataFor;
  }

  lemma CloseClosesOne(s: State, step: CloseStep)
    ensures ClosesOne(s, ApplyClose(s, step))
  {
    hide Finish, Subscribed, Lists;
    match step
    case DoCancel(appId, id, order) =>
      if id in s.db.verifications {
        var row := s.db.verifications[id].(status := VerificationStatus.Cancelled, cancelledAt := Some(s.now));
        FinishRowIs(s, id, row, VerificationCancelled, order);
        ClosesBy(s, Cancel(s, appId, id, order), id, row);
      }
    case DoRunExpiry(id, order) =>
      if id in s.db.verifications {
        var row := s.db.verifications[id].(status := VerificationStatus.Expired);
        FinishRowIs(s.(live := s.live.(tasks := s.live.tasks - multiset{id})), id, row, VerificationExpired, order);
        ClosesBy(s, RunExpiry(s, id, order), id, row);
      }
    case _ =>
  }

  lemma CloseSpreads(s: State, t: State, among: set<Id>, gap: nat)
    requires Spread(s, among, gap) && ClosesOne(s, t) && t.live.starts == s.live.starts
    ensures Spread(t, among, gap + if t.db.verifications != s.db.verifications then 1 else 0)
  {
    hide Load, HeldOn;
    if t.db.verifications != s.db.verifications {
      var id, row :| id in s.db.verifications && Ended(s.db.verifications[id], row)
                     && t.db.verifications == s.db.verifications[id := row];
      forall a, b | a in among && b in among
        ensures Load(t.db.verifications, a) + |HeldOn(t.live.starts, a)| <= Load(t.db.verifications, b) + gap + 1
      {
        LoadsClosed(s.db.verifications, id, row, a);
        LoadsClosed(s.db.verifications, id, row, b);
      }
    }
  }

  lemma StepSpreads(s: State, cfg: Config, appId: string, among: set<Id>, k: nat, gap: nat, step: Step)
    requires Inv(s, cfg) && Spread(s, among, gap) && k <= gap
    requires Steady(s, cfg, appId, among, k, [step])
    ensures Spread(Apply(s, cfg, step), among, gap + if EndsRow(s, Apply(s, cfg, step), step) then 1 else 0)
  {
    hide Inv, Steady, Spread, Holders, Healthy, ApplyAdmin, ApplyBind, ApplyStart, ApplyInbound, ApplyClose, ClosesOne;
    var t := Apply(s, cfg, step);
    StepKeeps(s, cfg, step);
    SteadyStep(s, cfg, appId, among, k, step);
    StartsUntouched(s, cfg, step);
    match step
    case Tick(dt) => SameSpread(s, t, among, gap);
    case Admin(a) => AdminFrame(s, a); SameSpread(s, t, among, gap);
    case Binds(b) => BindFrame(s, cfg, b); SameSpread(s, t, among, gap);
    case Starts(st) => StartSpreads(s, cfg, appId, among, k, gap, st);
    case Inbounds(i) => InboundClosesOne(s, cfg, i); CloseSpreads(s, t, among, gap);
    case Closes(c) => CloseClosesOne(s, c); CloseSpreads(s, t, among, gap);
  }

  lemma SameSpread(s: State, t: State, among: set<Id>, gap: nat)
    requires Spread(s, among, gap) && t.db.verifications == s.db.verifications && t.live.starts == s.live.starts
    ensures Spread(t, among, gap)
  {
  }

  lemma SteadyStep(s: State, cfg: Config, appId: string, among: set<Id>, k: nat, step: Step)
    requires Steady(s, cfg, appId, among, k, [step])
    ensures Healthy(s, cfg, appId, None) == among
    ensures forall o :: o in s.live.starts && s.live.starts[o].appId == appId ==> s.live.starts[o].preferred.None?
    ensures |Holders(Apply(s, cfg, step).live.starts, appId)| <= k
  {
    hide Apply, Healthy, Holders;
    assert [step][0] == step && [step][1..] == [];
    assert Steady(Apply(s, cfg, step), cfg, appId, among, k, []);
  }

  lemma SteadyFirst(s: State, cfg: Config, appId: string, among: set<Id>, k: nat, run: seq<Step>)
    requires Steady(s, cfg, appId, among, k, run) && run != []
    ensures Steady(s, cfg, appId, among, k, [run[0]])
  {
    assert [run[0]][1..] == [];
    hide Apply, Healthy, Holders;
    assert Steady(Apply(s, cfg, run[0]), cfg, appId, among, k, run[1..]);
    assert Steady(Apply(s, cfg, run[0]), cfg, appId, among, k, []);
  }

  /** In any interleaving of everything the server does, with at most k starts of
      the app holding a receiver at a time: the gap between the most and the
      least loaded of its healthy receivers never exceeds the larger of k and
      what it was, plus one for each row that was ended meanwhile. */
  lemma {:induction false} GapOverRuns(s: State, cfg: Config, appId: string, among: set<Id>, k: nat, gap: nat, run: seq<Step>)
    requires Inv(s, cfg) && Steady(s, cfg, appId, among, k, run)
    requires Spread(s, among, gap) && k <= gap
    ensures Spread(Exec(s, cfg, run), among, gap + Closings(s, cfg, run))
    ensures GapWithin(Exec(s, cfg, run).db.verifications, among, gap + Closings(s, cfg, run))
    decreases |run|
  {
    hide Inv, Apply, Healthy, Holders, Load, HeldOn, EndsRow;
    if run != [] {
      var t := Apply(s, cfg, run[0]);
      SteadyFirst(s, cfg, appId, among, k, run);
      StepKeeps(s, cfg, run[0]);
      StepSpreads(s, cfg, appId, among, k, gap, run[0]);
      GapOverRuns(t, cfg, appId, among, k, gap + if EndsRow(s, t, run[0]) then 1 else 0, run[1..]);
    }
  }

  /** The same, from a state in which no start holds a receiver. */
  lemma GapFromIdle(s: State, cfg: Config, appId: string, among: set<Id>, k: nat, gap: nat, run: seq<Step>)
    requires Inv(s, cfg) && Steady(s, cfg, appId, among, k, run)
    requires (forall o :: o in s.live.starts ==> !Holds(s.live.starts[o])) && GapWithin(s.db.verifications, among, gap)
    ensures GapWithin(Exec(s, cfg, run).db.verifications, among, (if gap >= k then gap else k) + Closings(s, cfg, run))
  {
    hide Inv, Steady, Exec, Load;
    forall a ensures |HeldOn(s.live.starts, a)| == 0 {
      assert HeldOn(s.live.starts, a) == {};
    }
    GapOverRuns(s, cfg, appId, among, k, if gap >= k then gap else k, run);
  }
}
