/** A run that goes all the way, from empty tables through the binding ceremony
    to a verification claimed after a read has reported it expired: the
    guarantees speak of such runs, and one of them exists. */
module Witness {
  import opened Wrappers
  import opened Schema
  import opened Store
  import opened Invariant
  import opened OutboxLemmas
  import opened Guarantees

  /** One phone, the two messages it sends, and their keys. */
  datatype Deal = Deal(phone: string, bindBody: string, nonce: string, bindKey: string, verifyBody: string, code: string, verifyKey: string)

  /** The deployment accepts the phone and reads the two bodies. */
  ghost predicate Works(cfg: Config, d: Deal) {
    && cfg.maxPendingPerPhone >= 1 && cfg.verificationTtl > 0 && cfg.bindingTtl > 0 && cfg.heartbeatTimeout > 0
    && cfg.normalize(d.phone) == Some(d.phone)
    && cfg.parse(d.bindBody) == Bind(d.nonce) && cfg.parse(d.verifyBody) == Verify(d.code)
    && WellFormed(d.phone, d.bindBody, d.bindKey) && WellFormed(d.phone, d.verifyBody, d.verifyKey)
    && d.bindKey != d.verifyKey
  }

  const App: string := "app"

  const Modem: Receiver := Receiver(App, "", None, true, Some(0), 0)

  function Ask(cfg: Config, d: Deal): Binding {
    Binding(App, 0, d.phone, BindingStatus.Pending, d.nonce, cfg.bindingTtl, None, None)
  }

  function BindMessage(d: Deal, matched: Option<Id>): Inbound { Inbound(0, d.phone, d.bindBody, d.bindKey, matched) }

  function Row(cfg: Config, d: Deal): Verification {
    Verification(App, d.phone, 0, d.code, VerificationStatus.Pending, 0, cfg.verificationTtl, None, None, None)
  }

  /** A receiver and a pending binding. */
  function Asked(cfg: Config, d: Deal): State {
    State(0, 2, Tables(map[0 := Modem], map[], map[], map[1 := Ask(cfg, d)], map[], map[], map[]),
          Live(multiset{}, map[], map[], map[]), Past(map[], map[]))
  }

  /** The BIND message has promoted it. */
  function Bound(cfg: Config, d: Deal): State {
    State(0, 3, Tables(map[0 := Modem], map[], map[2 := BindMessage(d, Some(1))],
                       map[1 := Ask(cfg, d).(status := BindingStatus.Verified, boundAt := Some(0))], map[], map[], map[]),
          Live(multiset{}, map[], map[], map[]), Past(map[], map[1 := 2]))
  }

  /** A verification is pending. */
  function Started(cfg: Config, d: Deal): State {
    var s := Bound(cfg, d);
    s.(nextId := 4, db := s.db.(verifications := map[3 := Row(cfg, d)]))
  }

  /** The VERIFY message is stored and its call has read its clock. */
  function Clocking(cfg: Config, d: Deal): State {
    var s := Started(cfg, d);
    s.(nextId := 5,
       db := s.db.(inbound := s.db.inbound[4 := Inbound(0, d.phone, d.verifyBody, d.verifyKey, None)]),
       live := s.live.(calls := map[4 := Call(0, d.phone, Verify(d.code), Clocked(0))]))
  }

  lemma ReachAsked(cfg: Config, d: Deal)
    requires Works(cfg, d)
    ensures Reachable(Asked(cfg, d), cfg)
  {
    hide Reachable, WellFormed;
    EmptyReachable(cfg);
    var a := AddReceiver(Empty, Modem);
    ReachableNext(Empty, cfg, Admin(DoAddReceiver(Modem)));
    var b := BeginBind(a, cfg, App, 0, d.phone);
    ReachableNext(a, cfg, Binds(DoBeginBind(App, 0, d.phone)));
    var c := InsertBind(b, 1, d.nonce);
    ReachableNext(b, cfg, Binds(DoInsertBind(1, d.nonce)));
    assert c == Asked(cfg, d);
  }

  lemma EmptyReachable(cfg: Config)
    ensures Reachable(Empty, cfg)
  {
    assert Exec(Empty, cfg, []) == Empty;
  }

  lemma ReachBound(cfg: Config, d: Deal)
    requires Works(cfg, d)
    ensures Reachable(Bound(cfg, d), cfg)
  {
    hide Reachable, WellFormed;
    ReachAsked(cfg, d);
    var s := Asked(cfg, d);
    var a := StoreInbound(s, cfg, 0, d.phone, d.bindBody, d.bindKey);
    ReachableNext(s, cfg, Inbounds(DoStoreInbound(0, d.phone, d.bindBody, d.bindKey)));
    BindStored(cfg, d);
    var b := ReadClock(a, 2);
    ReachableNext(a, cfg, Inbounds(DoReadClock(2)));
    var c := ConsumeNonce(b, 2, 1);
    ReachableNext(b, cfg, Inbounds(DoConsumeNonce(2, 1)));
    BindConsumed(cfg, d, b);
    ReachableNext(c, cfg, Inbounds(DoAnnotate(2)));
    assert Annotate(c, 2) == Bound(cfg, d);
  }

  function Serving(cfg: Config, d: Deal, phase: CallPhase): State {
    var s := Asked(cfg, d);
    s.(nextId := 3, db := s.db.(inbound := map[2 := BindMessage(d, None)]),
       live := s.live.(calls := map[2 := Call(0, d.phone, Bind(d.nonce), phase)]))
  }

  lemma BindStored(cfg: Config, d: Deal)
    requires Works(cfg, d)
    ensures StoreInbound(Asked(cfg, d), cfg, 0, d.phone, d.bindBody, d.bindKey) == Serving(cfg, d, Stored)
    ensures ReadClock(Serving(cfg, d, Stored), 2) == Serving(cfg, d, Clocked(0))
  {
    assert |d.bindBody| <= MAX_BODY;
  }

  lemma BindConsumed(cfg: Config, d: Deal, s: State)
    requires Works(cfg, d) && s == Serving(cfg, d, Clocked(0))
    ensures var t := Serving(cfg, d, Promoted(1));
      ConsumeNonce(s, 2, 1) == t.(
        db := t.db.(bindings := map[1 := Ask(cfg, d).(status := BindingStatus.Verified, boundAt := Some(0))]),
        past := t.past.(boundBy := map[1 := 2]))
  {
    hide WellFormed;
    var which := Promotable(s.db.bindings, 0, d.phone, d.nonce, 0);
    assert which == {1};
    var after := Promote(s.db.bindings, which, 0);
    assert after == map[1 := Ask(cfg, d).(status := BindingStatus.Verified, boundAt := Some(0))];
    assert ActiveUnique(after);
    assert (map b | b in which :: 2 as Id) == map[1 := 2];
  }

  function Phase(cfg: Config, d: Deal, phase: StartPhase): State {
    var s := Bound(cfg, d);
    s.(nextId := 4, live := s.live.(starts := map[3 := Start(App, d.phone, None, cfg.verificationTtl, 0, phase)]))
  }

  lemma StartBegins(cfg: Config, d: Deal)
    ensures BeginStart(Bound(cfg, d), cfg, App, d.phone, None) == Phase(cfg, d, Idle)
    ensures TakeLock(Phase(cfg, d, Idle), cfg, 3) == Phase(cfg, d, Locked)
  {
    var s := Bound(cfg, d);
    assert s.db.bindings[1].status == BindingStatus.Verified;
  }

  lemma StartCounts(cfg: Config, d: Deal)
    requires Works(cfg, d)
    ensures CountPending(Phase(cfg, d, Locked), cfg, 3) == Phase(cfg, d, Counted)
    ensures PickReceiver(Phase(cfg, d, Counted), cfg, 3, 0) == Phase(cfg, d, Picked(0))
  {
    hide WellFormed;
    var s := Phase(cfg, d, Counted);
    assert PendingFor(s.db.verifications, App, d.phone) == {};
    assert Healthy(s, cfg, App, None) == {0};
    assert !Precedes(s, 0, 0);
    assert First(s, {0}, 0);
  }

  lemma StartInserts(cfg: Config, d: Deal)
    ensures InsertRow(Phase(cfg, d, Picked(0)), cfg, 3, d.code) == Phase(cfg, d, Inserted(Row(cfg, d)))
    ensures CommitStart(Phase(cfg, d, Inserted(Row(cfg, d))), 3) == Started(cfg, d)
  {
  }

  lemma ReachStarted(cfg: Config, d: Deal)
    requires Works(cfg, d)
    ensures Reachable(Started(cfg, d), cfg)
  {
    hide Reachable, WellFormed, BeginStart, TakeLock, CountPending, PickReceiver, InsertRow, CommitStart;
    ReachBound(cfg, d);
    StartBegins(cfg, d);
    StartCounts(cfg, d);
    StartInserts(cfg, d);
    ReachableNext(Bound(cfg, d), cfg, Starts(DoBeginStart(App, d.phone, None)));
    ReachableNext(Phase(cfg, d, Idle), cfg, Starts(DoTakeLock(3)));
    ReachableNext(Phase(cfg, d, Locked), cfg, Starts(DoCountPending(3)));
    ReachableNext(Phase(cfg, d, Counted), cfg, Starts(DoPickReceiver(3, 0)));
    ReachableNext(Phase(cfg, d, Picked(0)), cfg, Starts(DoInsertRow(3, d.code)));
    ReachableNext(Phase(cfg, d, Inserted(Row(cfg, d))), cfg, Starts(DoCommitStart(3)));
  }

  lemma ReachClocking(cfg: Config, d: Deal)
    requires Works(cfg, d)
    ensures Reachable(Clocking(cfg, d), cfg)
  {
    hide Reachable;
    ReachStarted(cfg, d);
    var s := Started(cfg, d);
    var a := StoreInbound(s, cfg, 0, d.phone, d.verifyBody, d.verifyKey);
    ReachableNext(s, cfg, Inbounds(DoStoreInbound(0, d.phone, d.verifyBody, d.verifyKey)));
    assert !KeyTaken(s.db.inbound, 0, d.verifyKey);
    ReachableNext(a, cfg, Inbounds(DoReadClock(4)));
    assert ReadClock(a, 4) == Clocking(cfg, d);
  }

  /** After this run has waited past expires_at, a read reports the row expired. */
  function Late(cfg: Config, d: Deal): State {
    var s := Clocking(cfg, d);
    s.(now := cfg.verificationTtl)
  }

  /** Reported expired, and yet verified later: in some run from empty tables, of
      every deployment that works at all. */
  ghost predicate VerifiedLate(s: State, t: State, cfg: Config, v: Id) {
    && Reachable(s, cfg) && Reachable(t, cfg) && v in s.db.verifications && v in t.db.verifications
    && Reported(s.db.verifications[v], s.now) == VerificationStatus.Expired
    && t.db.verifications[v].status == VerificationStatus.Verified
    && exists run: seq<Step> :: t == Exec(s, cfg, run)
  }

  lemma ReportedExpiredThenVerified(cfg: Config, d: Deal)
    requires Works(cfg, d)
    ensures exists t :: VerifiedLate(Late(cfg, d), t, cfg, 3)
  {
    hide Reachable, WellFormed, Apply;
    var s := Clocking(cfg, d);
    ReachClocking(cfg, d);
    var order: seq<Id> := ListsExist(Subscribed(s.db.endpoints, App, VerificationVerified));
    var late := Apply(s, cfg, Tick(cfg.verificationTtl));
    assert late == Late(cfg, d) by { Ticks(s, cfg, cfg.verificationTtl); }
    ReachableNext(s, cfg, Tick(cfg.verificationTtl));
    SlowClaimVerifiesExpired(s, cfg, 4, 3, order, cfg.verificationTtl);
    var step := Inbounds(DoClaim(4, {}, 3, order));
    ReachableNext(late, cfg, step);
    ExecOne(late, cfg, step);
    assert VerifiedLate(late, Apply(late, cfg, step), cfg, 3);
  }

  lemma Ticks(s: State, cfg: Config, dt: nat)
    ensures Apply(s, cfg, Tick(dt)) == s.(now := s.now + dt)
  {
  }

  /** Such deployments exist: here with the constant lock hash and a cap of one. */
  lemma SomeDeploymentWorks()
    ensures exists cfg, d :: Works(cfg, d)
  {
    var d := Deal("+963900000001", "BIND ABCDEFGH", "ABCDEFGH", "gsm:r:0:1", "VERIFY AAAA", "AAAA", "gsm:r:0:2");
    var parse: string -> Intent :=
      body => if body == "BIND ABCDEFGH" then Bind("ABCDEFGH") else if body == "VERIFY AAAA" then Verify("AAAA") else Nothing;
    var cfg := Config(1, 100, 100, 100, _ => 0, phone => Some(phone), parse);
    assert "BIND ABCDEFGH"[0] == 'B' && "VERIFY AAAA"[0] == 'V';
    assert d.bindKey[8] == '1' && d.verifyKey[8] == '2';
    assert Works(cfg, d);
  }
}
