/** The fixed-window limiter: one counter for each key and aligned window, made
    by INCR and given its expiry by the first call only. */
module RateLimit {

  /** Milliseconds; the source counts windows from the epoch. */
  type Time = nat

  datatype Entry = Entry(count: nat, expiresAt: Time)

  /** One call of rateCheck, as it was answered. */
  datatype Hit = Hit(key: string, at: Time, allowed: bool)

  datatype Quota = Quota(limit: nat, windowSeconds: nat)

  type Params = p: Quota | p.windowSeconds > 0 witness Quota(0, 1)

  /** The limits of the keys that share one Redis: by address, by receiver, by
      app, for heartbeats. */
  type Policy = string -> Params

  /** `log` is history. */
  datatype Redis = Redis(now: Time, entries: map<(string, nat), Entry>, log: seq<Hit>)

  const NewRedis := Redis(0, map[], [])

  function Span(p: Params): nat { 1000 * p.windowSeconds }

  /** Math.floor(Date.now() / 1000 / windowSeconds) */
  function Window(p: Params, t: Time): nat {
    t / 1000 / p.windowSeconds
  }

  /** INCR bucket; EXPIRE bucket windowSeconds NX. */
  function Bump(entries: map<(string, nat), Entry>, bucket: (string, nat), now: Time, span: nat): Entry {
    if bucket in entries && now < entries[bucket].expiresAt
    then entries[bucket].(count := entries[bucket].count + 1)
    else Entry(1, now + span)
  }

  datatype Step = Tick(dt: nat) | Check(key: string)

  function Apply(s: Redis, q: Policy, step: Step): Redis {
    match step
    case Tick(dt) => s.(now := s.now + dt)
    case Check(key) =>
      var bucket := (key, Window(q(key), s.now));
      var entry := Bump(s.entries, bucket, s.now, Span(q(key)));
      s.(entries := s.entries[bucket := entry], log := s.log + [Hit(key, s.now, entry.count <= q(key).limit)])
  }

  function Exec(s: Redis, q: Policy, run: seq<Step>): Redis
    decreases |run|
  {
    if run == [] then s else Exec(Apply(s, q, run[0]), q, run[1..])
  }

  // ----- counting the log --------------------------------------------------

  function CallsIn(p: Params, log: seq<Hit>, key: string, w: nat): nat {
    if log == [] then 0
    else CallsIn(p, log[..|log| - 1], key, w) + if InWindow(p, log[|log| - 1], key, w) then 1 else 0
  }

  predicate InWindow(p: Params, h: Hit, key: string, w: nat) {
    h.key == key && Window(p, h.at) == w
  }

  /** The allowed calls of a key at times in [from, to). */
  function AllowedBetween(log: seq<Hit>, key: string, from: int, to: int): nat {
    if log == [] then 0
    else AllowedBetween(log[..|log| - 1], key, from, to) + if AllowedAt(log[|log| - 1], key, from, to) then 1 else 0
  }

  predicate AllowedAt(h: Hit, key: string, from: int, to: int) { h.key == key && h.allowed && from <= h.at < to }

  function AllowedIn(p: Params, log: seq<Hit>, key: string, w: nat): nat {
    if log == [] then 0
    else AllowedIn(p, log[..|log| - 1], key, w)
         + if log[|log| - 1].allowed && InWindow(p, log[|log| - 1], key, w) then 1 else 0
  }

  // ----- invariant ---------------------------------------------------------

  /** A counter outlives its window and has counted every call in it. */
  ghost predicate CounterTrue(s: Redis, p: Params, key: string, w: nat) {
    && ((key, w) in s.entries ==>
          && s.entries[(key, w)].count == CallsIn(p, s.log, key, w)
          && s.entries[(key, w)].expiresAt >= (w + 1) * Span(p))
    && ((key, w) !in s.entries ==> CallsIn(p, s.log, key, w) == 0)
  }

  /** The i-th call of a window was allowed exactly when i <= limit. */
  ghost predicate AnswersTrue(q: Policy, log: seq<Hit>) {
    forall n :: 0 <= n < |log| ==> AnswerTrue(q, log, n)
  }

  ghost predicate AnswerTrue(q: Policy, log: seq<Hit>, n: nat)
    requires n < |log|
  {
    log[n].allowed <==> CallsIn(q(log[n].key), log[..n + 1], log[n].key, Window(q(log[n].key), log[n].at)) <= q(log[n].key).limit
  }

  ghost predicate Inv(s: Redis, q: Policy) {
    && (forall key, w :: CounterTrue(s, q(key), key, w))
    && (forall key, w {:trigger (key, w) in s.entries} :: (key, w) in s.entries ==> w <= Window(q(key), s.now))
    && AnswersTrue(q, s.log)
  }

  lemma WindowBounds(p: Params, t: Time)
    ensures Window(p, t) * Span(p) <= t < (Window(p, t) + 1) * Span(p)
  {
    var sec := t / 1000;
    var w := sec / p.windowSeconds;
    assert w * p.windowSeconds <= sec < w * p.windowSeconds + p.windowSeconds;
    assert w * Span(p) == 1000 * (w * p.windowSeconds);
    assert (w + 1) * Span(p) == 1000 * (w * p.windowSeconds + p.windowSeconds);
  }

  lemma WindowMonotone(p: Params, t: Time, u: Time)
    requires t <= u
    ensures Window(p, t) <= Window(p, u)
  {
    WindowBounds(p, t);
    WindowBounds(p, u);
    if Window(p, u) < Window(p, t) {
      Scale(Window(p, u) + 1, Window(p, t), Span(p));
    }
  }

  lemma Scale(a: nat, b: nat, k: nat)
    requires a <= b
    ensures a * k <= b * k
  {
    assert b * k == a * k + (b - a) * k;
  }

  /** The call finds its counter alive: it continues the count. */
  lemma CheckCounts(s: Redis, q: Policy, key: string)
    requires Inv(s, q)
    ensures var w := Window(q(key), s.now);
      var entry := Bump(s.entries, (key, w), s.now, Span(q(key)));
      && entry.count == CallsIn(q(key), s.log, key, w) + 1
      && entry.expiresAt >= (w + 1) * Span(q(key))
  {
    var w := Window(q(key), s.now);
    WindowBounds(q(key), s.now);
    assert CounterTrue(s, q(key), key, w);
    assert (w + 1) * Span(q(key)) == w * Span(q(key)) + Span(q(key));
  }

  lemma CheckKeeps(s: Redis, q: Policy, key: string)
    requires Inv(s, q)
    ensures Inv(Apply(s, q, Check(key)), q)
  {
    CheckCounts(s, q, key);
    var t := Apply(s, q, Check(key));
    var w := Window(q(key), s.now);
    assert t.log[..|s.log|] == s.log;
    hide Window, Bump, Span;
    forall k, v ensures CounterTrue(t, q(k), k, v) {
      assert CounterTrue(s, q(k), k, v);
    }
    forall n | 0 <= n < |t.log| ensures AnswerTrue(q, t.log, n) {
      if n < |s.log| {
        assert t.log[..n + 1] == s.log[..n + 1];
        assert AnswerTrue(q, s.log, n);
      } else {
        assert t.log[..n + 1] == t.log;
      }
    }
  }

  lemma StepKeeps(s: Redis, q: Policy, step: Step)
    requires Inv(s, q)
    ensures Inv(Apply(s, q, step), q)
  {
    match step
    case Check(key) => CheckKeeps(s, q, key);
    case Tick(dt) =>
      forall key ensures Window(q(key), s.now) <= Window(q(key), s.now + dt) {
        WindowMonotone(q(key), s.now, s.now + dt);
      }
      hide Window;
      forall k, w ensures CounterTrue(Apply(s, q, step), q(k), k, w) {
        assert CounterTrue(s, q(k), k, w);
      }
  }

  lemma {:induction false} RunKeeps(s: Redis, q: Policy, run: seq<Step>)
    requires Inv(s, q)
    ensures Inv(Exec(s, q, run), q)
    decreases |run|
  {
    hide Inv;
    if run != [] {
      StepKeeps(s, q, run[0]);
      RunKeeps(Apply(s, q, run[0]), q, run[1..]);
    }
  }

  /** In any run, the i-th call of a key in an aligned window is allowed exactly
      when i <= limit: the expiry of the counter never restarts the count. */
  lemma AllowedExactly(q: Policy, run: seq<Step>, n: nat)
    requires n < |Exec(NewRedis, q, run).log|
    ensures var log := Exec(NewRedis, q, run).log;
      log[n].allowed <==> CallsIn(q(log[n].key), log[..n + 1], log[n].key, Window(q(log[n].key), log[n].at)) <= q(log[n].key).limit
  {
    hide Window;
    RunKeeps(NewRedis, q, run);
    assert AnswerTrue(q, Exec(NewRedis, q, run).log, n);
  }

  // ----- any span of one window's length -----------------------------------

  lemma {:induction false} AllowedCapped(q: Policy, log: seq<Hit>, key: string, w: nat)
    requires AnswersTrue(q, log)
    ensures AllowedIn(q(key), log, key, w) <= q(key).limit
    ensures AllowedIn(q(key), log, key, w) <= CallsIn(q(key), log, key, w)
    decreases |log|
  {
    hide Window;
    if log != [] {
      var prior := log[..|log| - 1];
      forall n | 0 <= n < |prior| ensures AnswerTrue(q, prior, n) {
        assert AnswerTrue(q, log, n) && prior[..n + 1] == log[..n + 1];
      }
      AllowedCapped(q, prior, key, w);
      assert AnswerTrue(q, log, |log| - 1) && log[..|log|] == log;
    }
  }

  lemma {:induction false} SpanSplits(p: Params, log: seq<Hit>, key: string, from: Time)
    ensures AllowedBetween(log, key, from, from + Span(p))
         <= AllowedIn(p, log, key, Window(p, from)) + AllowedIn(p, log, key, Window(p, from) + 1)
    decreases |log|
  {
    if log != [] {
      SpanSplits(p, log[..|log| - 1], key, from);
      var h := log[|log| - 1];
      if AllowedAt(h, key, from, from + Span(p)) {
        TwoWindows(p, from, h.at);
      }
    }
  }

  lemma TwoWindows(p: Params, from: Time, at: Time)
    requires from <= at < from + Span(p)
    ensures Window(p, at) == Window(p, from) || Window(p, at) == Window(p, from) + 1
  {
    var w := Window(p, from);
    WindowMonotone(p, from, at);
    WindowBounds(p, from);
    WindowBounds(p, at);
    assert (w + 2) * Span(p) == (w + 1) * Span(p) + Span(p);
    if Window(p, at) >= w + 2 {
      Scale(w + 2, Window(p, at), Span(p));
    }
  }

  /** Any span of windowSeconds, aligned or not, holds at most 2 * limit allowed
      calls of a key. */
  lemma SpanCapped(q: Policy, run: seq<Step>, key: string, from: Time)
    ensures AllowedBetween(Exec(NewRedis, q, run).log, key, from, from + Span(q(key))) <= 2 * q(key).limit
  {
    hide Window;
    var log := Exec(NewRedis, q, run).log;
    RunKeeps(NewRedis, q, run);
    SpanSplits(q(key), log, key, from);
    AllowedCapped(q, log, key, Window(q(key), from));
    AllowedCapped(q, log, key, Window(q(key), from) + 1);
  }

  // ----- and the bound is met ----------------------------------------------

  function Checks(key: string, k: nat): seq<Step> { if k == 0 then [] else Checks(key, k - 1) + [Check(key)] }

  lemma {:induction false} ExecThen(s: Redis, q: Policy, run: seq<Step>, step: Step)
    ensures Exec(s, q, run + [step]) == Apply(Exec(s, q, run), q, step)
    decreases |run|
  {
    hide Apply;
    if run == [] {
      assert [] + [step] == [step] && [step][1..] == [];
    } else {
      assert (run + [step])[1..] == run[1..] + [step];
      ExecThen(Apply(s, q, run[0]), q, run[1..], step);
    }
  }

  lemma {:induction false} ExecConcat(s: Redis, q: Policy, a: seq<Step>, b: seq<Step>)
    ensures Exec(s, q, a + b) == Exec(Exec(s, q, a), q, b)
    decreases |a|
  {
    hide Apply;
    if a == [] {
      assert a + b == b;
    } else {
      assert (a + b)[1..] == a[1..] + b;
      ExecConcat(Apply(s, q, a[0]), q, a[1..], b);
    }
  }

  /** Up to `limit` calls at one instant of a window nothing has called in yet
      are all allowed. */
  lemma {:induction false} BurstAllowed(s: Redis, q: Policy, key: string, k: nat, from: int, to: int)
    requires Inv(s, q) && k <= q(key).limit && from <= s.now < to
    requires CallsIn(q(key), s.log, key, Window(q(key), s.now)) == 0
    ensures var t := Exec(s, q, Checks(key, k));
      && Inv(t, q) && t.now == s.now
      && CallsIn(q(key), t.log, key, Window(q(key), s.now)) == k
      && (forall w :: w != Window(q(key), s.now) ==> CallsIn(q(key), t.log, key, w) == CallsIn(q(key), s.log, key, w))
      && AllowedBetween(t.log, key, from, to) == AllowedBetween(s.log, key, from, to) + k
  {
    if k > 0 {
      BurstAllowed(s, q, key, k - 1, from, to);
      var t := Exec(s, q, Checks(key, k - 1));
      hide Window, Bump, Inv;
      ExecThen(s, q, Checks(key, k - 1), Check(key));
      CheckKeeps(t, q, key);
      CheckCounts(t, q, key);
      var u := Apply(t, q, Check(key));
      assert u.log[..|u.log| - 1] == t.log;
    }
  }

  /** Twice the limit is allowed within two milliseconds of the run. */
  ghost predicate DoubleBurst(q: Policy, key: string, run: seq<Step>, from: Time) {
    AllowedBetween(Exec(NewRedis, q, run).log, key, from, from + 2) == 2 * q(key).limit
  }

  /** limit calls at the last millisecond of a window and limit at the first of
      the next: the bound cannot be lowered, whatever the limit. */
  lemma SpanBoundMet(q: Policy, key: string)
    ensures exists run: seq<Step>, from: Time :: DoubleBurst(q, key, run, from)
  {
    var from: Time := Span(q(key)) - 1;
    var to := from + 2;
    assert Window(q(key), from) == 0 by {
      WindowBounds(q(key), from);
      if Window(q(key), from) > 0 {
        Scale(1, Window(q(key), from), Span(q(key)));
      }
    }
    assert Window(q(key), from + 1) == 1 by {
      WindowBounds(q(key), from + 1);
      TwoWindows(q(key), from, from + 1);
    }
    hide Window, Inv;
    var s := Apply(NewRedis, q, Tick(from));
    assert Inv(NewRedis, q) by {
      NewInv(q);
    }
    StepKeeps(NewRedis, q, Tick(from));
    BurstAllowed(s, q, key, q(key).limit, from, to);
    var t := Exec(s, q, Checks(key, q(key).limit));
    StepKeeps(t, q, Tick(1));
    var u := Apply(t, q, Tick(1));
    BurstAllowed(u, q, key, q(key).limit, from, to);
    ExecThen(NewRedis, q, [], Tick(from));
    ExecConcat(NewRedis, q, [] + [Tick(from)], Checks(key, q(key).limit));
    ExecThen(NewRedis, q, [] + [Tick(from)] + Checks(key, q(key).limit), Tick(1));
    var run := [] + [Tick(from)] + Checks(key, q(key).limit) + [Tick(1)];
    ExecConcat(NewRedis, q, run, Checks(key, q(key).limit));
    run := run + Checks(key, q(key).limit);
    assert DoubleBurst(q, key, run, from);
  }

  lemma NewInv(q: Policy)
    ensures Inv(NewRedis, q)
  {
  }

  // ----- the limiter as code -----------------------------------------------

  datatype RateCheck = RateCheck(allowed: bool, count: nat, remaining: nat, resetSeconds: nat)

  class Limiter {
    ghost const q: Policy
    var now: Time
    var entries: map<(string, nat), Entry>
    ghost var log: seq<Hit>

    ghost function Snapshot(): Redis
      reads this
    {
      Redis(now, entries, log)
    }

    ghost predicate Valid()
      reads this
    {
      Inv(Snapshot(), q)
    }

    constructor (ghost q: Policy)
      ensures this.q == q && Snapshot() == NewRedis && Valid()
    {
      this.q := q;
      now, entries, log := 0, map[], [];
      new;
      NewInv(q);
    }

    /** rateCheck, for a key whose limit and window these are. `count` says which
        call of the window this is, and the window ends `resetSeconds` after the
        current second. */
    method Check(key: string, limit: nat, windowSeconds: nat) returns (r: RateCheck)
      requires Valid() && q(key) == Quota(limit, windowSeconds)
      modifies this`entries, this`log
      ensures Valid() && Snapshot() == Apply(old(Snapshot()), q, Step.Check(key))
      ensures r.count == CallsIn(q(key), log, key, Window(q(key), now))
      ensures r.allowed <==> r.count <= limit
      ensures r.remaining == if r.count <= limit then limit - r.count else 0
      ensures now / 1000 + r.resetSeconds == (now / 1000 / windowSeconds + 1) * windowSeconds
    {
      hide Inv, CallsIn, Span;
      ghost var p := q(key);
      CheckCounts(Snapshot(), q, key);
      CheckKeeps(Snapshot(), q, key);
      CheckLogs(log, p, key, now, Bump(entries, (key, Window(p, now)), now, Span(p)).count <= limit);
      var window, reset := WindowAt(now / 1000, windowSeconds);
      assert window == Window(p, now) && Span(p) == 1000 * windowSeconds by {
        SpanIs(p);
      }
      hide Window;
      var bucket := (key, window);
      var live := bucket in entries && now < entries[bucket].expiresAt;
      var count := if live then entries[bucket].count + 1 else 1;
      var expiresAt := if live then entries[bucket].expiresAt else now + 1000 * windowSeconds;
      entries := entries[bucket := Entry(count, expiresAt)];
      log := log + [Hit(key, now, count <= limit)];
      var remaining := if limit - count > 0 then limit - count else 0;
      r := RateCheck(count <= limit, count, remaining, reset);
    }
  }

  /** Which window a second lies in, and how long until the next one. */
  method WindowAt(sec: nat, w: nat) returns (window: nat, reset: nat)
    requires w > 0
    ensures window == sec / w && sec + reset == (sec / w + 1) * w
  {
    window := sec / w;
    ResetEndsWindow(sec, w);
    reset := w - sec % w;
  }

  lemma SpanIs(p: Params)
    ensures Span(p) == 1000 * p.windowSeconds
  {
  }

  lemma CheckLogs(log: seq<Hit>, p: Params, key: string, now: Time, allowed: bool)
    ensures CallsIn(p, log + [Hit(key, now, allowed)], key, Window(p, now)) == CallsIn(p, log, key, Window(p, now)) + 1
  {
    hide Window;
    var all := log + [Hit(key, now, allowed)];
    assert all[..|all| - 1] == log;
  }

  lemma ResetEndsWindow(sec: nat, w: nat)
    requires w > 0
    ensures sec + (w - sec % w) == (sec / w + 1) * w
  {
    assert sec == (sec / w) * w + sec % w;
  }
}
