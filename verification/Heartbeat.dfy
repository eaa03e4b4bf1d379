/** Heartbeat tracking with coalesced writes: the route skips the UPDATE when
    the stored time is young enough. Handlers overlap, and write the time they
    read their clock, not the time they write. */
module Heartbeat {
  import opened Wrappers
  import Store

  /** Milliseconds. */
  type Time = int

  /** RECEIVER_HEARTBEAT_TIMEOUT_SECONDS, and the longest a handler takes from
      its clock to its end, in milliseconds. */
  datatype Params = Params(timeout: nat, delay: nat)

  function CoalesceMs(p: Params): nat { 1000 * (p.timeout / 4) }

  function NextHeartbeatMs(p: Params): nat { 1000 * (p.timeout / 2) }

  datatype Phase = Started | Decided(write: bool)

  datatype Handler = Handler(at: Time, phase: Phase)

  /** `last` is history: the newest heartbeat that was answered. */
  datatype Tracker = Tracker(now: Time, stored: Option<Time>, last: Option<Time>, handlers: map<nat, Handler>)

  const NewTracker := Tracker(0, None, None, map[])

  /** ageSec > coalesceThresholdSec, with no stored time counting as infinite. */
  predicate MustWrite(p: Params, stored: Option<Time>, at: Time) { stored.None? || at - stored.value > CoalesceMs(p) }

  datatype Step = Tick(dt: nat) | Begin(id: nat) | Decide(id: nat) | Finish(id: nat) | Die(id: nat)

  predicate MayTick(s: Tracker, p: Params, dt: nat) {
    forall h :: h in s.handlers ==> s.now + dt <= s.handlers[h].at + p.delay
  }

  function Newer(a: Option<Time>, at: Time): Option<Time> { if a.Some? && a.value > at then a else Some(at) }

  function Apply(s: Tracker, p: Params, step: Step): Tracker {
    match step
    case Tick(dt) => if MayTick(s, p, dt) then s.(now := s.now + dt) else s
    case Begin(id) => if id in s.handlers then s else s.(handlers := s.handlers[id := Handler(s.now, Started)])
    case Decide(id) =>
      if id in s.handlers && s.handlers[id].phase.Started?
      then s.(handlers := s.handlers[id := s.handlers[id].(phase := Decided(MustWrite(p, s.stored, s.handlers[id].at)))])
      else s
    case Finish(id) =>
      if id in s.handlers && s.handlers[id].phase.Decided?
      then var h := s.handlers[id];
           s.(stored := if h.phase.write then Some(h.at) else s.stored, last := Newer(s.last, h.at), handlers := s.handlers - {id})
      else s
    case Die(id) => s.(handlers := s.handlers - {id})
  }

  function Exec(s: Tracker, p: Params, run: seq<Step>): Tracker
    decreases |run|
  {
    if run == [] then s else Exec(Apply(s, p, run[0]), p, run[1..])
  }

  ghost predicate Reachable(s: Tracker, p: Params) { exists run: seq<Step> :: s == Exec(NewTracker, p, run) }

  // ----- how far the stored time lags --------------------------------------

  function Lag(p: Params): nat { if CoalesceMs(p) >= p.delay then CoalesceMs(p) else p.delay }

  ghost predicate HandlerOk(s: Tracker, p: Params, h: Handler) {
    && h.at <= s.now <= h.at + p.delay
    && (h.phase.Decided? && !h.phase.write ==> s.stored.Some? && h.at <= s.stored.value + Lag(p))
  }

  ghost predicate Inv(s: Tracker, p: Params) {
    && (s.stored.Some? <==> s.last.Some?)
    && (s.stored.Some? ==> s.stored.value <= s.last.value <= s.stored.value + Lag(p) && s.last.value <= s.now)
    && forall h :: h in s.handlers ==> HandlerOk(s, p, s.handlers[h])
  }

  lemma StepKeeps(s: Tracker, p: Params, step: Step)
    requires Inv(s, p)
    ensures Inv(Apply(s, p, step), p)
  {
    var t := Apply(s, p, step);
    match step
    case Finish(id) =>
      if id in s.handlers {
        assert HandlerOk(s, p, s.handlers[id]);
        forall h | h in t.handlers ensures HandlerOk(t, p, t.handlers[h]) {
          assert HandlerOk(s, p, s.handlers[h]);
        }
      }
    case _ =>
      forall h | h in t.handlers ensures HandlerOk(t, p, t.handlers[h]) {
        assert h in s.handlers ==> HandlerOk(s, p, s.handlers[h]);
      }
  }

  lemma {:induction false} RunKeeps(s: Tracker, p: Params, run: seq<Step>)
    requires Inv(s, p)
    ensures Inv(Exec(s, p, run), p)
    decreases |run|
  {
    hide Inv;
    if run != [] {
      StepKeeps(s, p, run[0]);
      RunKeeps(Apply(s, p, run[0]), p, run[1..]);
    }
  }

  /** The stored time is never ahead of the newest answered heartbeat, and lags
      it by no more than the coalescing threshold or the handlers' overlap. */
  lemma StoredTracksLast(s: Tracker, p: Params)
    requires Reachable(s, p)
    ensures s.stored.Some? <==> s.last.Some?
    ensures s.stored.Some? ==> s.stored.value <= s.last.value
    ensures s.stored.Some? ==> s.last.value - s.stored.value <= 1000 * (p.timeout / 4) || s.last.value - s.stored.value <= p.delay
  {
    var run: seq<Step> :| s == Exec(NewTracker, p, run);
    RunKeeps(NewTracker, p, run);
  }

  /** The freshness test of receiver selection. */
  predicate Fresh(p: Params, stored: Option<Time>, now: Time) { Store.Fresh(stored, now, 1000 * p.timeout) }

  /** A gateway that has been answered within the interval the server advertises
      is selectable, in every run and at every instant. */
  ghost predicate PunctualAlwaysFresh(p: Params) {
    forall s | Reachable(s, p) && Punctual(p, s) :: Fresh(p, s.stored, s.now)
  }

  predicate Punctual(p: Params, s: Tracker) { s.last.Some? && s.now - s.last.value <= 1000 * (p.timeout / 2) }

  lemma PunctualIsFresh(s: Tracker, p: Params)
    requires Reachable(s, p) && Punctual(p, s) && p.delay + NextHeartbeatMs(p) < 1000 * p.timeout
    ensures Fresh(p, s.stored, s.now)
  {
    hide Reachable;
    StoredTracksLast(s, p);
    assert p.timeout / 4 + p.timeout / 2 < p.timeout;
  }

  /** And never longer than the timeout after its last answered heartbeat: what
      selection calls fresh has been heard from in time. */
  lemma FreshIsRecent(s: Tracker, p: Params)
    requires Reachable(s, p) && Fresh(p, s.stored, s.now)
    ensures s.last.Some? && s.now - s.last.value < 1000 * p.timeout
  {
    hide Reachable;
    StoredTracksLast(s, p);
  }

  /** A handler that takes too long writes its old clock over a newer one, which
      makes a punctual gateway look dead. */
  lemma SlowHandlerHides(p: Params) returns (s: Tracker)
    requires p.delay + NextHeartbeatMs(p) >= 1000 * p.timeout
    ensures Reachable(s, p) && Punctual(p, s) && !Fresh(p, s.stored, s.now)
  {
    var u := 1000 * p.timeout - NextHeartbeatMs(p);
    var slow, quick := Handler(0, Decided(true)), Handler(u, Decided(true));
    hide Reachable;
    StartReachable(p);
    var a := Two(NewTracker, p, Begin(0), Decide(0));
    assert a.handlers == map[0 := slow];
    var b := Then(a, p, Tick(u));
    b := Two(b, p, Begin(1), Decide(1));
    assert b.now == u && b.handlers == map[0 := slow, 1 := quick];
    var d := Two(b, p, Finish(1), Finish(0));
    assert d.now == u && d.stored == Some(0) && d.last == Some(u) && d.handlers == map[];
    s := Then(d, p, Tick(NextHeartbeatMs(p)));
  }

  lemma StartReachable(p: Params)
    ensures Reachable(NewTracker, p)
  {
    assert Exec(NewTracker, p, []) == NewTracker;
  }

  lemma Then(s: Tracker, p: Params, step: Step) returns (t: Tracker)
    requires Reachable(s, p)
    ensures t == Apply(s, p, step) && Reachable(t, p)
  {
    hide Apply;
    var run: seq<Step> :| s == Exec(NewTracker, p, run);
    ExecThen(NewTracker, p, run, step);
    t := Apply(s, p, step);
  }

  lemma Two(s: Tracker, p: Params, x: Step, y: Step) returns (t: Tracker)
    requires Reachable(s, p)
    ensures t == Apply(Apply(s, p, x), p, y) && Reachable(t, p)
  {
    hide Apply, Reachable;
    t := Then(s, p, x);
    t := Then(t, p, y);
  }

  /** Coalescing costs a punctual gateway nothing exactly when the time a handler
      may take fits between the advertised interval and the timeout. */
  lemma PunctualFreshIff(p: Params)
    ensures PunctualAlwaysFresh(p) <==> p.delay + 1000 * (p.timeout / 2) < 1000 * p.timeout
  {
    hide Reachable, Punctual, Fresh;
    if p.delay + NextHeartbeatMs(p) < 1000 * p.timeout {
      forall s | Reachable(s, p) && Punctual(p, s) ensures Fresh(p, s.stored, s.now) {
        PunctualIsFresh(s, p);
      }
    } else {
      var s := SlowHandlerHides(p);
    }
  }

  lemma {:induction false} ExecThen(s: Tracker, p: Params, run: seq<Step>, step: Step)
    ensures Exec(s, p, run + [step]) == Apply(Exec(s, p, run), p, step)
    decreases |run|
  {
    hide Apply;
    if run == [] {
      assert [] + [step] == [step] && [step][1..] == [];
    } else {
      assert (run + [step])[1..] == run[1..] + [step];
      ExecThen(Apply(s, p, run[0]), p, run[1..], step);
    }
  }

  // ----- the route as code -------------------------------------------------

  class Receiver {
    const p: Params
    var now: Time
    var lastHeartbeatAt: Option<Time>
    ghost var last: Option<Time>

    ghost function Snapshot(): Tracker
      reads this
    {
      Tracker(now, lastHeartbeatAt, last, map[])
    }

    constructor (p: Params)
      ensures this.p == p && Snapshot() == NewTracker
    {
      this.p, now, lastHeartbeatAt, last := p, 0, None, None;
    }

    /** The heartbeat route with no other heartbeat in between. It writes unless
        the stored time is younger than the threshold, so two writes are always
        more than a threshold apart. */
    method Beat() returns (applied: bool, nextHeartbeatSeconds: nat)
      modifies this`lastHeartbeatAt, this`last
      ensures Snapshot() == Apply(Apply(Apply(old(Snapshot()), p, Begin(0)), p, Decide(0)), p, Finish(0))
      ensures lastHeartbeatAt == if applied then Some(now) else old(lastHeartbeatAt)
      ensures applied <==> old(lastHeartbeatAt).None? || now - old(lastHeartbeatAt).value > 1000 * (p.timeout / 4)
      ensures lastHeartbeatAt.Some? && now - 1000 * (p.timeout / 4) <= lastHeartbeatAt.value
      ensures nextHeartbeatSeconds == p.timeout / 2
    {
      var threshold := 1000 * (p.timeout / 4);
      applied := lastHeartbeatAt.None? || now - lastHeartbeatAt.value > threshold;
      if applied {
        lastHeartbeatAt := Some(now);
      }
      last := Newer(last, now);
      nextHeartbeatSeconds := p.timeout / 2;
    }
  }
}
