/** The terms in which the server's operations are held to account: conditions
    on rows and their columns, and nothing else. No operation is defined by them;
    the lemmas say that the state machine's queries select just these rows. */
module Columns {
  import opened Wrappers
  import opened Schema
  import opened Store

  // ----- bindings and pending rows -----------------------------------------

  /** The phone has proved itself to the app. */
  predicate HasActive(bs: map<Id, Binding>, appId: string, phone: string) {
    exists b :: b in bs && bs[b].appId == appId && bs[b].phone == phone && bs[b].status == BindingStatus.Verified
  }

  /** How many verifications of the app and phone are pending. */
  function PendingCount(vs: map<Id, Verification>, appId: string, phone: string): nat {
    |set v | v in vs && vs[v].appId == appId && vs[v].phone == phone && vs[v].status == VerificationStatus.Pending|
  }

  /** A pending verification of this phone on this receiver has the code. */
  predicate CodeTaken(vs: map<Id, Verification>, receiverId: Id, phone: string, code: string) {
    exists v :: v in vs && vs[v].status == VerificationStatus.Pending
                && vs[v].receiverId == receiverId && vs[v].phone == phone && vs[v].code == code
  }

  /** A message from this phone on this receiver with this code, claimed at this
      time, verifies the row. */
  predicate Awaits(row: Verification, receiverId: Id, phone: string, code: string, at: Time) {
    row.status == VerificationStatus.Pending && row.receiverId == receiverId && row.phone == phone && row.code == code
    && at < row.expiresAt
  }

  /** The same of a binding and its nonce. */
  predicate AwaitsBind(row: Binding, receiverId: Id, phone: string, nonce: string, at: Time) {
    row.status == BindingStatus.Pending && row.receiverId == receiverId && row.phone == phone && row.nonce == nonce
    && at < row.expiresAt
  }

  /** Promoting every waiting row would give one app and phone two verified
      bindings. */
  ghost predicate WouldDouble(bs: map<Id, Binding>, receiverId: Id, phone: string, nonce: string, at: Time) {
    exists a, b :: a in bs && b in bs && a != b && AwaitsBind(bs[a], receiverId, phone, nonce, at)
                   && (bs[b].status == BindingStatus.Verified || AwaitsBind(bs[b], receiverId, phone, nonce, at))
                   && bs[a].appId == bs[b].appId && bs[a].phone == bs[b].phone
  }

  /** The sender as it is stored: its normal form, or its first 32 characters. */
  predicate IsSender(cfg: Config, from: string, sender: string) {
    match cfg.normalize(from)
    case Some(e164) => sender == e164
    case None => sender <= from && |sender| == if |from| < 32 then |from| else 32
  }

  // ----- routing -----------------------------------------------------------

  /** The router may use the receiver at all. */
  predicate Routable(r: Receiver, appId: string, now: Time, timeout: nat) {
    r.appId == appId && r.enabled && r.lastHeartbeatAt.Some? && now - r.lastHeartbeatAt.value < timeout
  }

  function PendingAt(vs: map<Id, Verification>, r: Id): nat {
    |set v | v in vs && vs[v].receiverId == r && vs[v].status == VerificationStatus.Pending|
  }

  predicate Preferred(r: Receiver, operator: Option<string>) { operator.Some? && r.operator == operator }

  /** The one order of the router: receivers of the preferred operator come
      first, then those with fewer pending rows, then the older ones. */
  predicate NoLater(s: State, preferred: Option<string>, r: Id, q: Id)
    requires r in s.db.receivers && q in s.db.receivers
  {
    var a, b := s.db.receivers[r], s.db.receivers[q];
    if Preferred(a, preferred) != Preferred(b, preferred) then Preferred(a, preferred)
    else if PendingAt(s.db.verifications, r) != PendingAt(s.db.verifications, q)
    then PendingAt(s.db.verifications, r) < PendingAt(s.db.verifications, q)
    else a.createdAt <= b.createdAt
  }

  ghost predicate Routed(s: State, timeout: nat, appId: string, preferred: Option<string>, r: Id) {
    && r in s.db.receivers && Routable(s.db.receivers[r], appId, s.now, timeout)
    && forall q :: q in s.db.receivers && Routable(s.db.receivers[q], appId, s.now, timeout) ==> NoLater(s, preferred, r, q)
  }

  predicate AnyRoutable(s: State, timeout: nat, appId: string) {
    exists r :: r in s.db.receivers && Routable(s.db.receivers[r], appId, s.now, timeout)
  }

  // ----- what the queries select -------------------------------------------

  lemma BoundIff(bs: map<Id, Binding>, appId: string, phone: string)
    ensures IsBound(bs, appId, phone) <==> HasActive(bs, appId, phone)
  {
  }

  lemma CountIs(vs: map<Id, Verification>, appId: string, phone: string)
    ensures |PendingFor(vs, appId, phone)| == PendingCount(vs, appId, phone)
  {
    assert PendingFor(vs, appId, phone)
      == set v | v in vs && vs[v].appId == appId && vs[v].phone == phone && vs[v].status == VerificationStatus.Pending;
  }

  lemma CollidesIff(vs: map<Id, Verification>, row: Verification)
    ensures Collides(vs, row) <==> CodeTaken(vs, row.receiverId, row.phone, row.code)
  {
    if CodeTaken(vs, row.receiverId, row.phone, row.code) {
      var v :| v in vs && vs[v].status == VerificationStatus.Pending
               && vs[v].receiverId == row.receiverId && vs[v].phone == row.phone && vs[v].code == row.code;
      assert SameTriple(vs[v], row);
    }
  }

  lemma CandidatesAwait(vs: map<Id, Verification>, receiverId: Id, phone: string, code: string, at: Time)
    ensures forall v :: v in Candidates(vs, receiverId, phone, code, at) <==> v in vs && Awaits(vs[v], receiverId, phone, code, at)
  {
  }

  lemma PromotableAwait(bs: map<Id, Binding>, receiverId: Id, phone: string, nonce: string, at: Time)
    ensures forall b :: b in Promotable(bs, receiverId, phone, nonce, at) <==> b in bs && AwaitsBind(bs[b], receiverId, phone, nonce, at)
  {
  }

  /** The index refuses a promotion exactly when it would double a binding. */
  lemma RefusedIff(bs: map<Id, Binding>, receiverId: Id, phone: string, nonce: string, at: Time)
    requires ActiveUnique(bs)
    ensures ActiveUnique(Promote(bs, Promotable(bs, receiverId, phone, nonce, at), at)) <==> !WouldDouble(bs, receiverId, phone, nonce, at)
  {
    hide Promotable;
    var which := Promotable(bs, receiverId, phone, nonce, at);
    PromotableAwait(bs, receiverId, phone, nonce, at);
    var after := Promote(bs, which, at);
    if a, b :| a in bs && b in bs && a != b && AwaitsBind(bs[a], receiverId, phone, nonce, at)
               && (bs[b].status == BindingStatus.Verified || AwaitsBind(bs[b], receiverId, phone, nonce, at))
               && bs[a].appId == bs[b].appId && bs[a].phone == bs[b].phone {
      assert SameActive(after[a], after[b]);
    } else {
      forall a, b | a in after && b in after && SameActive(after[a], after[b]) ensures a == b {
        assert a !in which && b !in which ==> SameActive(bs[a], bs[b]);
      }
    }
  }

  lemma SenderIs(cfg: Config, from: string)
    ensures IsSender(cfg, from, Sender(cfg, from))
    ensures forall sender :: IsSender(cfg, from, sender) ==> sender == Sender(cfg, from)
  {
  }

  lemma LoadIs(vs: map<Id, Verification>, r: Id)
    ensures |PendingOn(vs, r)| == PendingAt(vs, r)
  {
    assert PendingOn(vs, r) == set v | v in vs && vs[v].receiverId == r && vs[v].status == VerificationStatus.Pending;
  }

  lemma HealthyIff(s: State, cfg: Config, appId: string, operator: Option<string>)
    ensures forall r :: (r in Healthy(s, cfg, appId, operator) <==>
      r in s.db.receivers && Routable(s.db.receivers[r], appId, s.now, cfg.heartbeatTimeout)
      && (operator.None? || Preferred(s.db.receivers[r], operator)))
  {
  }

  /** Asking the preferred operator first and everybody else afterwards, each
      time for the least loaded and then the oldest, is asking once for the first
      in one lexicographic order. */
  lemma RoutesByOneOrder(s: State, cfg: Config, appId: string, preferred: Option<string>, r: Id)
    ensures First(s, Eligible(s, cfg, appId, preferred), r) <==> Routed(s, cfg.heartbeatTimeout, appId, preferred, r)
    ensures Eligible(s, cfg, appId, preferred) == {} <==> !AnyRoutable(s, cfg.heartbeatTimeout, appId)
  {
    hide Healthy, Routable, PendingAt, PendingOn;
    HealthyIff(s, cfg, appId, preferred);
    HealthyIff(s, cfg, appId, None);
    forall q ensures |PendingOn(s.db.verifications, q)| == PendingAt(s.db.verifications, q) {
      LoadIs(s.db.verifications, q);
    }
    var among := Eligible(s, cfg, appId, preferred);
    if Routed(s, cfg.heartbeatTimeout, appId, preferred, r) {
      forall q | q in among ensures !Precedes(s, q, r) {
        assert NoLater(s, preferred, r, q);
      }
    }
    if First(s, among, r) {
      forall q | q in s.db.receivers && Routable(s.db.receivers[q], appId, s.now, cfg.heartbeatTimeout) ensures NoLater(s, preferred, r, q) {
        if q in among {
          assert !Precedes(s, q, r);
        }
      }
    }
  }
}
