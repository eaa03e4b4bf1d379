/** The one-time nonce of a signed gateway request: a key set if absent, with a
    lifetime, behind a check of the timestamp's skew. */
module ReplayGuard {
  import opened Wrappers
  import opened Text

  /** Milliseconds. */
  type Time = nat

  /** A correctly signed request: its nonce and the second it is stamped with. */
  datatype Request = Request(nonce: string, ts: int)

  /** Skew and nonce lifetime, in seconds, and the longest a handler takes from
      reading the clock to setting the nonce, in milliseconds. */
  datatype Params = Params(skew: nat, ttl: nat, delay: nat)

  /** A handler that has passed the skew check. */
  datatype Handler = Handler(req: Request, checkedAt: Time)

  /** `accepted` is history: when each acceptance happened. */
  datatype Guard = Guard(now: Time, keys: map<string, Time>, handlers: map<nat, Handler>, accepted: seq<(Request, Time)>)

  const NewGuard := Guard(0, map[], map[], [])

  /** Math.abs(nowSec - ts) > SKEW is refused. */
  predicate InSkew(p: Params, ts: int, at: Time) { ts - p.skew <= at / 1000 <= ts + p.skew }

  predicate Live(keys: map<string, Time>, nonce: string, now: Time) { nonce in keys && now < keys[nonce] }

  datatype Step = Tick(dt: nat) | Arrive(id: nat, req: Request) | SetNonce(id: nat) | Drop(id: nat)

  predicate MayTick(s: Guard, p: Params, dt: nat) {
    forall h :: h in s.handlers ==> s.now + dt <= s.handlers[h].checkedAt + p.delay
  }

  function Apply(s: Guard, p: Params, step: Step): Guard {
    match step
    case Tick(dt) => if MayTick(s, p, dt) then s.(now := s.now + dt) else s
    case Arrive(id, req) =>
      if id !in s.handlers && InSkew(p, req.ts, s.now)
      then s.(handlers := s.handlers[id := Handler(req, s.now)]) else s
    case SetNonce(id) =>
      if id !in s.handlers then s
      else
        var req := s.handlers[id].req;
        var done := s.(handlers := s.handlers - {id});
        if Live(s.keys, req.nonce, s.now) then done   // replay
        else done.(keys := s.keys[req.nonce := s.now + 1000 * p.ttl], accepted := s.accepted + [(req, s.now)])
    case Drop(id) => s.(handlers := s.handlers - {id})
  }

  function Exec(s: Guard, p: Params, run: seq<Step>): Guard
    decreases |run|
  {
    if run == [] then s else Exec(Apply(s, p, run[0]), p, run[1..])
  }

  ghost predicate Reachable(s: Guard, p: Params) { exists run: seq<Step> :: s == Exec(NewGuard, p, run) }

  /** The last millisecond at which a request stamped `ts` can be accepted. */
  function LastChance(p: Params, ts: int): int { 1000 * (ts + p.skew) + 999 + p.delay }

  // ----- invariant ---------------------------------------------------------

  /** Two acceptances of one nonce are a lifetime apart. */
  ghost predicate Apart(p: Params, accepted: seq<(Request, Time)>) {
    forall i, j :: 0 <= i < j < |accepted| && accepted[i].0.nonce == accepted[j].0.nonce ==>
      accepted[i].1 + 1000 * p.ttl <= accepted[j].1
  }

  /** An accepted nonce has a key that lasts as long as any acceptance says. */
  ghost predicate KeysCover(s: Guard, p: Params) {
    forall i :: 0 <= i < |s.accepted| ==>
      s.accepted[i].0.nonce in s.keys && s.accepted[i].1 + 1000 * p.ttl <= s.keys[s.accepted[i].0.nonce]
  }

  ghost predicate InTime(p: Params, req: Request, at: Time) {
    1000 * (req.ts - p.skew) <= at <= LastChance(p, req.ts)
  }

  ghost predicate HandlersFresh(s: Guard, p: Params) {
    forall h :: h in s.handlers ==>
      && s.handlers[h].checkedAt <= s.now <= s.handlers[h].checkedAt + p.delay
      && InSkew(p, s.handlers[h].req.ts, s.handlers[h].checkedAt)
  }

  ghost predicate Inv(s: Guard, p: Params) {
    && Apart(p, s.accepted)
    && KeysCover(s, p)
    && HandlersFresh(s, p)
    && (forall i :: 0 <= i < |s.accepted| ==> InTime(p, s.accepted[i].0, s.accepted[i].1) && s.accepted[i].1 <= s.now)
  }

  lemma SetKeeps(s: Guard, p: Params, id: nat)
    requires Inv(s, p) && id in s.handlers
    ensures Inv(Apply(s, p, SetNonce(id)), p)
  {
    var t := Apply(s, p, SetNonce(id));
    var h := s.handlers[id];
    assert InTime(p, h.req, s.now) by {
      assert h.checkedAt / 1000 <= h.req.ts + p.skew;
    }
    if !Live(s.keys, h.req.nonce, s.now) {
      assert t.accepted == s.accepted + [(h.req, s.now)];
    }
  }

  lemma StepKeeps(s: Guard, p: Params, step: Step)
    requires Inv(s, p)
    ensures Inv(Apply(s, p, step), p)
  {
    match step
    case SetNonce(id) =>
      if id in s.handlers {
        SetKeeps(s, p, id);
      }
    case _ =>
  }

  lemma {:induction false} RunKeeps(s: Guard, p: Params, run: seq<Step>)
    requires Inv(s, p)
    ensures Inv(Exec(s, p, run), p)
    decreases |run|
  {
    hide Inv;
    if run != [] {
      StepKeeps(s, p, run[0]);
      RunKeeps(Apply(s, p, run[0]), p, run[1..]);
    }
  }

  lemma ReachableInv(s: Guard, p: Params)
    requires Reachable(s, p)
    ensures Inv(s, p)
  {
    var run: seq<Step> :| s == Exec(NewGuard, p, run);
    assert Inv(NewGuard, p);
    hide Inv;
    RunKeeps(NewGuard, p, run);
  }

  // ----- exactly when a request can be replayed ----------------------------

  /** Some run accepts the request first at `first` and then once more. */
  ghost predicate Replayable(p: Params, req: Request, first: Time) {
    exists s, i, j :: Reachable(s, p) && 0 <= i < j < |s.accepted| && s.accepted[i] == (req, first) && s.accepted[j].0 == req
  }

  lemma ReplayIsLate(p: Params, req: Request, first: Time)
    requires Replayable(p, req, first)
    ensures first + 1000 * p.ttl <= LastChance(p, req.ts)
  {
    var s, i, j :| Reachable(s, p) && 0 <= i < j < |s.accepted| && s.accepted[i] == (req, first) && s.accepted[j].0 == req;
    hide Reachable;
    ReachableInv(s, p);
  }

  lemma {:induction false} ExecThen(s: Guard, p: Params, run: seq<Step>, step: Step)
    ensures Exec(s, p, run + [step]) == Apply(Exec(s, p, run), p, step)
    decreases |run|
  {
    hide Apply;
    if run == [] {
      assert [] + [step] == [step] && [step][1..] == [];
    } else {
      assert (run + [step])[1..] == run[1..] + [step];
      ExecThen(Apply(s, p, run[0]), p, run[1..], step);
    }
  }

  lemma ReachableNext(s: Guard, p: Params, step: Step)
    requires Reachable(s, p)
    ensures Reachable(Apply(s, p, step), p)
  {
    hide Apply;
    var run: seq<Step> :| s == Exec(NewGuard, p, run);
    ExecThen(NewGuard, p, run, step);
  }

  /** From an idle guard: wait for `checkAt`, then read the clock, then set the
      nonce at `setAt`. */
  lemma AcceptAt(s: Guard, p: Params, req: Request, checkAt: Time, setAt: Time) returns (t: Guard)
    requires Reachable(s, p) && s.handlers == map[] && s.now <= checkAt <= setAt <= checkAt + p.delay
    requires InSkew(p, req.ts, checkAt) && !Live(s.keys, req.nonce, setAt)
    ensures Reachable(t, p) && t.handlers == map[] && t.now == setAt
    ensures t.accepted == s.accepted + [(req, setAt)] && t.keys == s.keys[req.nonce := setAt + 1000 * p.ttl]
  {
    hide Reachable, InSkew;
    var a := Apply(s, p, Tick(checkAt - s.now));
    ReachableNext(s, p, Tick(checkAt - s.now));
    var b := Apply(a, p, Arrive(0, req));
    ReachableNext(a, p, Arrive(0, req));
    var c := Apply(b, p, Tick(setAt - checkAt));
    ReachableNext(b, p, Tick(setAt - checkAt));
    t := Apply(c, p, SetNonce(0));
    ReachableNext(c, p, SetNonce(0));
  }

  lemma LateReplays(p: Params, req: Request, first: Time)
    requires InSkew(p, req.ts, first) && p.delay <= 1000 * p.ttl
    requires first + 1000 * p.ttl <= LastChance(p, req.ts)
    ensures Replayable(p, req, first)
  {
    hide Reachable;
    NewReachable(p);
    var s := AcceptAt(NewGuard, p, req, first, first);
    var again := first + 1000 * p.ttl;
    var checkAt := if again - p.delay > first then again - p.delay else first;
    assert InSkew(p, req.ts, checkAt);
    var t := AcceptAt(s, p, req, checkAt, again);
    assert t.accepted[0] == (req, first) && t.accepted[1].0 == req;
  }

  lemma NewReachable(p: Params)
    ensures Reachable(NewGuard, p)
  {
    assert Exec(NewGuard, p, []) == NewGuard;
  }

  /** A request first accepted at `first` can be accepted again, in some run, if
      and only if its nonce can expire before its last chance. */
  lemma ReplayableIff(p: Params, req: Request, first: Time)
    requires InSkew(p, req.ts, first) && p.delay <= 1000 * p.ttl
    ensures Replayable(p, req, first) <==> first + 1000 * p.ttl <= LastChance(p, req.ts)
  {
    hide Replayable;
    if Replayable(p, req, first) {
      ReplayIsLate(p, req, first);
    } else if first + 1000 * p.ttl <= LastChance(p, req.ts) {
      LateReplays(p, req, first);
    }
  }

  /** As deployed, the lifetime equals the skew. With a handler that takes no
      time, the requests that can be replayed are those stamped no earlier than
      the server's second when they were first accepted: the gateway's clock
      was level with the server's, or ahead. */
  lemma LifetimeOfOneSkew(skew: nat, req: Request, first: Time)
    requires InSkew(Params(skew, skew, 0), req.ts, first)
    ensures Replayable(Params(skew, skew, 0), req, first) <==> first / 1000 <= req.ts
  {
    ReplayableIff(Params(skew, skew, 0), req, first);
  }

  ghost predicate NeverReplayed(p: Params) {
    forall req: Request, first: Time :: InSkew(p, req.ts, first) ==> !Replayable(p, req, first)
  }

  /** A lifetime protects every request of the skew window if and only if it is
      longer than twice the skew and the handler's delay together. */
  lemma LifetimeNeeded(p: Params)
    requires p.delay <= 1000 * p.ttl
    ensures NeverReplayed(p) <==> 1000 * p.ttl > 2000 * p.skew + 999 + p.delay
    ensures p.delay == 0 ==> (NeverReplayed(p) <==> p.ttl > 2 * p.skew)
  {
    hide Replayable;
    if 1000 * p.ttl > 2000 * p.skew + 999 + p.delay {
      forall req: Request, first: Time | InSkew(p, req.ts, first) ensures !Replayable(p, req, first) {
        ReplayableIff(p, req, first);
      }
    } else {
      var req := Request("", p.skew);
      ReplayableIff(p, req, 0);
      assert InSkew(p, req.ts, 0) && Replayable(p, req, 0);
    }
  }

  // ----- the verifier as code ----------------------------------------------

  datatype Receiver = Receiver(enabled: bool, signingKey: Option<string>)   // None: the wrapped key does not open

  datatype Rejection =
    | BadReceiverId | BadNonce | BadSignatureFormat | BadTimestamp | TimestampSkew
    | UnknownReceiver | KeyUnavailable | BadSignature | Replay

  datatype Signed = Signed(receiverId: string, timestamp: string, nonce: string, signature: string, body: string)

  /** Number.parseInt, and the HMAC of timestamp, nonce and body. */
  datatype Crypto = Crypto(parseInt: string -> Option<int>, sign: (string, int, string, string) -> string)

  predicate HexOfLength(s: string, least: nat, most: nat) { IsHex(s) && least <= |s| <= most }

  predicate IsReceiverId(s: string) {
    |s| > 4 && s[..4] == "rcv_" && forall i :: 4 <= i < |s| ==> '0' <= s[i] <= '9' || 'a' <= s[i] <= 'z' || 'A' <= s[i] <= 'Z'
  }

  /** The request carries the signature that its receiver's key makes. */
  predicate Genuine(receivers: map<string, Receiver>, crypto: Crypto, m: Signed) {
    && m.receiverId in receivers && receivers[m.receiverId].enabled && receivers[m.receiverId].signingKey.Some?
    && crypto.parseInt(m.timestamp).Some?
    && m.signature == crypto.sign(receivers[m.receiverId].signingKey.value, crypto.parseInt(m.timestamp).value, m.nonce, m.body)
  }

  predicate HexChars(s: string) {
    forall i :: 0 <= i < |s| ==> '0' <= s[i] <= '9' || 'a' <= s[i] <= 'f' || 'A' <= s[i] <= 'F'
  }

  /** A receiver id, a nonce of 32 to 128 and a signature of 64 hex digits. */
  predicate WellShaped(m: Signed) {
    NamesReceiver(m) && 32 <= |m.nonce| <= 128 && HexChars(m.nonce) && |m.signature| == 64 && HexChars(m.signature)
  }

  predicate NamesReceiver(m: Signed) {
    && |m.receiverId| > 4 && m.receiverId[..4] == "rcv_"
    && forall i :: 4 <= i < |m.receiverId| ==>
         '0' <= m.receiverId[i] <= '9' || 'a' <= m.receiverId[i] <= 'z' || 'A' <= m.receiverId[i] <= 'Z'
  }

  lemma ShapedIff(m: Signed)
    ensures NamesReceiver(m) <==> IsReceiverId(m.receiverId)
    ensures HexOfLength(m.nonce, 32, 128) <==> 32 <= |m.nonce| <= 128 && HexChars(m.nonce)
    ensures WellShaped(m) <==> IsReceiverId(m.receiverId) && HexOfLength(m.nonce, 32, 128) && HexOfLength(m.signature, 64, 64)
  {
  }

  function NonceKey(m: Signed): string { "syrotp:nonce:" + m.receiverId + ":" + m.nonce }

  /** No receiver's nonce spends another's: two requests use one key exactly when
      they name one receiver and one nonce. */
  lemma KeysApart(m: Signed, n: Signed)
    requires WellShaped(m) && WellShaped(n)
    ensures NonceKey(m) == NonceKey(n) <==> m.receiverId == n.receiverId && m.nonce == n.nonce
  {
    if NonceKey(m) == NonceKey(n) {
      var prefix := "syrotp:nonce:";
      var a, b := m.receiverId + ":" + m.nonce, n.receiverId + ":" + n.nonce;
      assert NonceKey(m) == prefix + a && NonceKey(n) == prefix + b;
      assert a == (prefix + a)[|prefix|..] && b == (prefix + b)[|prefix|..];
      assert ':' !in m.receiverId by { NoColon(m); }
      assert ':' !in n.receiverId by { NoColon(n); }
      EndsAtFirst(':', m.receiverId, m.nonce, n.receiverId, n.nonce);
    }
  }

  lemma NoColon(m: Signed)
    requires WellShaped(m)
    ensures ':' !in m.receiverId
  {
    assert forall i :: 0 <= i < 4 ==> m.receiverId[..4][i] == m.receiverId[i];
    assert "rcv_"[0] == 'r' && "rcv_"[1] == 'c' && "rcv_"[2] == 'v' && "rcv_"[3] == '_';
  }

  /** Two seconds no further apart than the skew. */
  predicate Near(a: int, b: int, skew: nat) { b <= a + skew && a <= b + skew }

  class HmacVerifier {
    const p: Params
    const crypto: Crypto
    const receivers: map<string, Receiver>
    var now: Time
    var keys: map<string, Time>
    ghost var accepted: seq<(Request, Time)>

    ghost function Snapshot(): Guard
      reads this
    {
      Guard(now, keys, map[], accepted)
    }

    constructor (p: Params, crypto: Crypto, receivers: map<string, Receiver>)
      ensures this.p == p && this.crypto == crypto && this.receivers == receivers && Snapshot() == NewGuard
    {
      this.p, this.crypto, this.receivers := p, crypto, receivers;
      now, keys, accepted := 0, map[], [];
    }

    /** verifyGatewayHmac, with no other request in between; `took` is the time
        from the clock to the nonce. Accepted means well shaped, genuine, stamped
        inside the skew and with an unused nonce, and only then is one spent. */
    method Verify(m: Signed, took: nat) returns (error: Option<Rejection>)
      requires took <= p.delay
      modifies this`now, this`keys, this`accepted
      ensures error.None? <==>
        && WellShaped(m) && Genuine(receivers, crypto, m) && Near(old(now) / 1000, crypto.parseInt(m.timestamp).value, p.skew)
        && !(NonceKey(m) in old(keys) && now < old(keys)[NonceKey(m)])
      ensures error == Some(BadReceiverId) <==> !NamesReceiver(m)
      ensures error == Some(BadNonce) <==> NamesReceiver(m) && !(32 <= |m.nonce| <= 128 && HexChars(m.nonce))
      ensures error == Some(BadReceiverId) || error == Some(BadNonce) || error == Some(BadSignatureFormat) <==> !WellShaped(m)
      ensures error == Some(BadTimestamp) <==> WellShaped(m) && crypto.parseInt(m.timestamp).None?
      ensures error == Some(TimestampSkew) <==>
        WellShaped(m) && crypto.parseInt(m.timestamp).Some? && !Near(old(now) / 1000, crypto.parseInt(m.timestamp).value, p.skew)
      ensures error == Some(UnknownReceiver) || error == Some(KeyUnavailable) || error == Some(BadSignature) <==>
        WellShaped(m) && crypto.parseInt(m.timestamp).Some? && Near(old(now) / 1000, crypto.parseInt(m.timestamp).value, p.skew)
        && !Genuine(receivers, crypto, m)
      ensures error == Some(UnknownReceiver) ==> !(m.receiverId in receivers && receivers[m.receiverId].enabled)
      ensures error == Some(KeyUnavailable) ==>
        m.receiverId in receivers && receivers[m.receiverId].enabled && receivers[m.receiverId].signingKey.None?
      ensures error == Some(BadSignature) ==>
        m.receiverId in receivers && receivers[m.receiverId].enabled && receivers[m.receiverId].signingKey.Some?
      ensures error == Some(Replay) <==>
        && WellShaped(m) && Genuine(receivers, crypto, m) && Near(old(now) / 1000, crypto.parseInt(m.timestamp).value, p.skew)
        && NonceKey(m) in old(keys) && now < old(keys)[NonceKey(m)]
      ensures error.None? ==> keys == old(keys)[NonceKey(m) := now + 1000 * p.ttl]
      ensures error.None? || error == Some(Replay) ==>
        var req := Request(NonceKey(m), crypto.parseInt(m.timestamp).value);
        Snapshot() == Exec(old(Snapshot()), p, [Arrive(0, req), Tick(took), SetNonce(0)])
      ensures error.Some? ==> keys == old(keys) && accepted == old(accepted)
      ensures now == old(now) + took
    {
      hide WellShaped, NamesReceiver, HexChars, IsReceiverId, HexOfLength, NonceKey;
      ShapedIff(m);
      var checkedAt := now;
      now := now + took;
      if !IsReceiverId(m.receiverId) { return Some(BadReceiverId); }
      if !HexOfLength(m.nonce, 32, 128) { return Some(BadNonce); }
      if !HexOfLength(m.signature, 64, 64) { return Some(BadSignatureFormat); }
      var ts := crypto.parseInt(m.timestamp);
      if ts.None? { return Some(BadTimestamp); }
      var nowSec := checkedAt / 1000;
      if (if nowSec - ts.value >= 0 then nowSec - ts.value else ts.value - nowSec) > p.skew { return Some(TimestampSkew); }
      if m.receiverId !in receivers || !receivers[m.receiverId].enabled { return Some(UnknownReceiver); }
      var signingKey := receivers[m.receiverId].signingKey;
      if signingKey.None? { return Some(KeyUnavailable); }
      if m.signature != crypto.sign(signingKey.value, ts.value, m.nonce, m.body) { return Some(BadSignature); }
      ThreeSteps(Guard(checkedAt, keys, map[], accepted), p, Request(NonceKey(m), ts.value), took);
      if Live(keys, NonceKey(m), now) { return Some(Replay); }
      keys := keys[NonceKey(m) := now + 1000 * p.ttl];
      accepted := accepted + [(Request(NonceKey(m), ts.value), now)];
      error := None;
    }
  }

  lemma ThreeSteps(s: Guard, p: Params, req: Request, took: nat)
    requires s.handlers == map[] && InSkew(p, req.ts, s.now) && took <= p.delay
    ensures Exec(s, p, [Arrive(0, req), Tick(took), SetNonce(0)])
      == if Live(s.keys, req.nonce, s.now + took) then s.(now := s.now + took)
         else Guard(s.now + took, s.keys[req.nonce := s.now + took + 1000 * p.ttl], map[], s.accepted + [(req, s.now + took)])
  {
    var a := Apply(s, p, Arrive(0, req));
    var b := Apply(a, p, Tick(took));
    var run := [Arrive(0, req), Tick(took), SetNonce(0)];
    assert run[1..] == [Tick(took), SetNonce(0)] && run[1..][1..] == [SetNonce(0)] && run[1..][1..][1..] == [];
    assert Exec(b, p, [SetNonce(0)]) == Apply(b, p, SetNonce(0));
    assert Exec(a, p, run[1..]) == Exec(b, p, [SetNonce(0)]);
  }
}
