/** How single table changes keep the predicates about inbound messages, the
    verifications they claimed, the bindings they promoted, and the calls that
    are still processing them. */
module ClaimLemmas {
  import opened Wrappers
  import opened Schema
  import opened Store
  import opened Invariant

  // ----- ClaimsSound -------------------------------------------------------

  lemma ClaimsKeepNewRow(cfg: Config, vs: map<Id, Verification>, inbound: map<Id, Inbound>, id: Id, row: Verification)
    requires ClaimsSound(cfg, vs, inbound) && id !in vs
    requires row.status == VerificationStatus.Pending && Untouched(row) && row.cancelledAt.None?
    ensures ClaimsSound(cfg, vs[id := row], inbound)
  {
  }

  lemma ClaimsKeepNewInbound(cfg: Config, vs: map<Id, Verification>, inbound: map<Id, Inbound>, id: Id, i: Inbound)
    requires ClaimsSound(cfg, vs, inbound) && id !in inbound && i.matched.None?
    ensures ClaimsSound(cfg, vs, inbound[id := i])
  {
    var after := inbound[id := i];
    forall v | v in vs && vs[v].status == VerificationStatus.Verified ensures VerifiedWell(cfg, after, v, vs[v]) {
      assert VerifiedWell(cfg, inbound, v, vs[v]);
    }
  }

  /** A pending row is cancelled or expires. */
  lemma ClaimsKeepClose(cfg: Config, vs: map<Id, Verification>, inbound: map<Id, Inbound>, id: Id, row: Verification)
    requires ClaimsSound(cfg, vs, inbound) && id in vs && vs[id].status == VerificationStatus.Pending
    requires row.status == VerificationStatus.Cancelled || row.status == VerificationStatus.Expired
    requires row.status == VerificationStatus.Cancelled <==> row.cancelledAt.Some?
    requires row == vs[id].(status := row.status, cancelledAt := row.cancelledAt)
    ensures ClaimsSound(cfg, vs[id := row], inbound)
  {
  }

  /** An unmatched inbound claims a pending row, and both name each other. */
  lemma ClaimsKeepClaim(cfg: Config, vs: map<Id, Verification>, inbound: map<Id, Inbound>, id: Id, pick: Id, row: Verification)
    requires ClaimsSound(cfg, vs, inbound)
    requires id in inbound && inbound[id].matched.None?
    requires pick in vs && vs[pick].status == VerificationStatus.Pending
    requires row.status == VerificationStatus.Verified && row.cancelledAt.None?
    requires VerifiedWell(cfg, inbound[id := inbound[id].(matched := Some(pick))], pick, row) && row.matchedInbound == Some(id)
    ensures ClaimsSound(cfg, vs[pick := row], inbound[id := inbound[id].(matched := Some(pick))])
  {
    var vs', inbound' := vs[pick := row], inbound[id := inbound[id].(matched := Some(pick))];
    forall v | v in vs' && vs'[v].status == VerificationStatus.Verified ensures VerifiedWell(cfg, inbound', v, vs'[v]) {
      if v != pick {
        assert VerifiedWell(cfg, inbound, v, vs[v]);
      }
    }
    forall i | i in inbound' && inbound'[i].matched.Some? && cfg.parse(inbound'[i].body).Verify?
      ensures inbound'[i].matched.value in vs' && vs'[inbound'[i].matched.value].matchedInbound == Some(i)
    {
      if i != id {
        assert vs[inbound[i].matched.value].matchedInbound == Some(i);
        assert Untouched(vs[pick]);
      }
    }
  }

  lemma ClaimsKeepAnnotate(cfg: Config, vs: map<Id, Verification>, inbound: map<Id, Inbound>, id: Id, b: Id)
    requires ClaimsSound(cfg, vs, inbound)
    requires id in inbound && cfg.parse(inbound[id].body).Bind?
    ensures ClaimsSound(cfg, vs, inbound[id := inbound[id].(matched := Some(b))])
  {
    var after := inbound[id := inbound[id].(matched := Some(b))];
    forall v | v in vs && vs[v].status == VerificationStatus.Verified ensures VerifiedWell(cfg, after, v, vs[v]) {
      assert VerifiedWell(cfg, inbound, v, vs[v]);
    }
  }

  // ----- BindingsSound -----------------------------------------------------

  lemma BindingsKeepNewRow(cfg: Config, bs: map<Id, Binding>, inbound: map<Id, Inbound>, boundBy: map<Id, Id>, id: Id, row: Binding)
    requires BindingsSound(cfg, bs, inbound, boundBy) && id !in bs
    requires row.status == BindingStatus.Pending && row.boundAt.None? && row.revokedAt.None?
    ensures BindingsSound(cfg, bs[id := row], inbound, boundBy)
  {
  }

  lemma BindingsKeepRevoke(cfg: Config, bs: map<Id, Binding>, inbound: map<Id, Inbound>, boundBy: map<Id, Id>, id: Id, at: Time)
    requires BindingsSound(cfg, bs, inbound, boundBy) && id in bs
    ensures BindingsSound(cfg, bs[id := bs[id].(status := BindingStatus.Revoked, revokedAt := Some(at))], inbound, boundBy)
  {
    var after := bs[id := bs[id].(status := BindingStatus.Revoked, revokedAt := Some(at))];
    forall b | b in after && after[b].boundAt.Some? ensures BoundWell(cfg, inbound, boundBy, b, after[b]) {
      assert BoundWell(cfg, inbound, boundBy, b, bs[b]);
    }
    forall a, b | a in after && b in after && SameActive(after[a], after[b]) ensures a == b {
      assert SameActive(bs[a], bs[b]);
    }
  }

  lemma BindingsKeepNewInbound(cfg: Config, bs: map<Id, Binding>, inbound: map<Id, Inbound>, boundBy: map<Id, Id>, id: Id, i: Inbound)
    requires BindingsSound(cfg, bs, inbound, boundBy) && id !in inbound && i.matched.None?
    ensures BindingsSound(cfg, bs, inbound[id := i], boundBy)
  {
    forall b | b in bs && bs[b].boundAt.Some? ensures BoundWell(cfg, inbound[id := i], boundBy, b, bs[b]) {
      assert BoundWell(cfg, inbound, boundBy, b, bs[b]);
    }
  }

  /** Setting `matched` of a message keeps it as evidence. */
  lemma BindingsKeepMatch(cfg: Config, bs: map<Id, Binding>, inbound: map<Id, Inbound>, boundBy: map<Id, Id>, id: Id, m: Id)
    requires BindingsSound(cfg, bs, inbound, boundBy) && id in inbound
    requires cfg.parse(inbound[id].body).Bind? ==> m in boundBy && boundBy[m] == id
    ensures BindingsSound(cfg, bs, inbound[id := inbound[id].(matched := Some(m))], boundBy)
  {
    hide ActiveUnique;
    var after := inbound[id := inbound[id].(matched := Some(m))];
    forall b | b in bs && bs[b].boundAt.Some? ensures BoundWell(cfg, after, boundBy, b, bs[b]) {
      assert BoundWell(cfg, inbound, boundBy, b, bs[b]);
    }
  }

  /** Rows one nonce selects share their receiver, hence their app: at most one
      of them can pass the partial unique index, however nonces collide. */
  lemma PromotesAtMostOne(receivers: map<Id, Receiver>, bs: map<Id, Binding>, r: Id, phone: string, nonce: string, at: Time,
                          a: Id, b: Id)
    requires forall k :: k in bs ==> OfApp(receivers, bs[k].receiverId, bs[k].appId)
    requires var which := Promotable(bs, r, phone, nonce, at);
             a in which && b in which && ActiveUnique(Promote(bs, which, at))
    ensures a == b
  {
    var which := Promotable(bs, r, phone, nonce, at);
    var after := Promote(bs, which, at);
    assert SameActive(after[a], after[b]);
  }

  lemma PromotableRows(bs: map<Id, Binding>, r: Id, phone: string, nonce: string, at: Time)
    ensures forall b :: b in Promotable(bs, r, phone, nonce, at) ==>
      && b in bs && bs[b].nonce == nonce && bs[b].status == BindingStatus.Pending
      && bs[b].receiverId == r && bs[b].phone == phone && at < bs[b].expiresAt
  {
  }

  lemma BindingsKeepPromote(cfg: Config, receivers: map<Id, Receiver>, bs: map<Id, Binding>, inbound: map<Id, Inbound>,
                            boundBy: map<Id, Id>, id: Id, nonce: string, at: Time)
    requires BindingsSound(cfg, bs, inbound, boundBy)
    requires forall k :: k in bs ==> OfApp(receivers, bs[k].receiverId, bs[k].appId)
    requires id in inbound && cfg.parse(inbound[id].body) == Bind(nonce) && inbound[id].matched.None?
    requires forall b :: b in boundBy ==> boundBy[b] != id
    requires var which := Promotable(bs, inbound[id].receiverId, inbound[id].from, nonce, at);
             which != {} && ActiveUnique(Promote(bs, which, at))
    ensures var which := Promotable(bs, inbound[id].receiverId, inbound[id].from, nonce, at);
            BindingsSound(cfg, Promote(bs, which, at), inbound, boundBy + (map b | b in which :: id))
  {
    hide ActiveUnique, Promotable, Promote, BoundWell;
    var which := Promotable(bs, inbound[id].receiverId, inbound[id].from, nonce, at);
    PromotableRows(bs, inbound[id].receiverId, inbound[id].from, nonce, at);
    forall b | b in which ensures b !in boundBy {
      assert bs[b].boundAt.None?;
    }
    forall a, b | a in which && b in which ensures a == b {
      PromotesAtMostOne(receivers, bs, inbound[id].receiverId, inbound[id].from, nonce, at, a, b);
    }
    BoundAfterPromote(cfg, bs, inbound, boundBy, id, nonce, at);
    ColumnsAfterPromote(bs, which, at);
    HistoryAfterPromote(cfg, inbound, boundBy, which, id);
  }

  /** Adding a message's own promotions to the history of the others. */
  lemma HistoryAfterPromote(cfg: Config, inbound: map<Id, Inbound>, boundBy: map<Id, Id>, which: set<Id>, id: Id)
    requires forall a, b | a in boundBy && b in boundBy && boundBy[a] == boundBy[b] :: a == b
    requires forall b :: b in boundBy ==> boundBy[b] != id
    requires forall a, b :: a in which && b in which ==> a == b
    requires forall b :: b in which ==> b !in boundBy
    requires forall i :: i in inbound && inbound[i].matched.Some? && cfg.parse(inbound[i].body).Bind? ==>
      inbound[i].matched.value in boundBy && boundBy[inbound[i].matched.value] == i
    ensures var after := boundBy + (map b | b in which :: id);
      && after.Keys == boundBy.Keys + which
      && (forall a, b | a in after && b in after && after[a] == after[b] :: a == b)
      && (forall i :: i in inbound && inbound[i].matched.Some? && cfg.parse(inbound[i].body).Bind? ==>
            inbound[i].matched.value in after && after[inbound[i].matched.value] == i)
  {
  }

  lemma ColumnsAfterPromote(bs: map<Id, Binding>, which: set<Id>, at: Time)
    requires forall b :: b in bs && bs[b].status == BindingStatus.Pending ==> bs[b].boundAt.None?
    requires forall b :: b in bs && bs[b].status == BindingStatus.Verified ==> bs[b].boundAt.Some?
    requires forall b :: b in bs ==> (bs[b].status == BindingStatus.Revoked <==> bs[b].revokedAt.Some?)
    requires forall b :: b in which ==> b in bs && bs[b].status == BindingStatus.Pending
    ensures var after := Promote(bs, which, at);
      && after.Keys == bs.Keys
      && (forall b :: b in after && after[b].status == BindingStatus.Pending ==> after[b].boundAt.None?)
      && (forall b :: b in after && after[b].status == BindingStatus.Verified ==> after[b].boundAt.Some?)
      && (forall b :: b in after ==> (after[b].status == BindingStatus.Revoked <==> after[b].revokedAt.Some?))
      && (forall b :: b in bs ==> after[b].boundAt == if b in which then Some(at) else bs[b].boundAt)
  {
  }

  lemma BoundAfterPromote(cfg: Config, bs: map<Id, Binding>, inbound: map<Id, Inbound>, boundBy: map<Id, Id>,
                          id: Id, nonce: string, at: Time)
    requires forall b :: b in bs && bs[b].boundAt.Some? ==> BoundWell(cfg, inbound, boundBy, b, bs[b])
    requires id in inbound && cfg.parse(inbound[id].body) == Bind(nonce)
    requires forall b :: b in Promotable(bs, inbound[id].receiverId, inbound[id].from, nonce, at) ==> b !in boundBy
    ensures var which := Promotable(bs, inbound[id].receiverId, inbound[id].from, nonce, at);
            var after, boundBy' := Promote(bs, which, at), boundBy + (map b | b in which :: id);
      forall b :: b in after && after[b].boundAt.Some? ==> BoundWell(cfg, inbound, boundBy', b, after[b])
  {
    var which := Promotable(bs, inbound[id].receiverId, inbound[id].from, nonce, at);
    PromotableRows(bs, inbound[id].receiverId, inbound[id].from, nonce, at);
    hide Promotable;
    var after, boundBy' := Promote(bs, which, at), boundBy + (map b | b in which :: id);
    forall b | b in after && after[b].boundAt.Some? ensures BoundWell(cfg, inbound, boundBy', b, after[b]) {
      if b !in which {
        assert BoundWell(cfg, inbound, boundBy, b, bs[b]);
      }
    }
  }

  // ----- CallsSound --------------------------------------------------------

  lemma CallsKeepNewInbound(cfg: Config, inbound: map<Id, Inbound>, boundBy: map<Id, Id>, calls: map<Id, Call>,
                            id: Id, i: Inbound, call: Call)
    requires CallsSound(cfg, inbound, boundBy, calls) && id !in inbound && i.matched.None?
    requires call == Call(i.receiverId, i.from, cfg.parse(i.body), Stored)
    ensures CallsSound(cfg, inbound[id := i], boundBy, calls[id := call])
  {
    forall c | c in calls && c != id ensures CallOk(cfg, inbound[id := i], boundBy, c, calls[c]) {
      assert CallOk(cfg, inbound, boundBy, c, calls[c]);
    }
  }

  lemma CallsKeepClock(cfg: Config, inbound: map<Id, Inbound>, boundBy: map<Id, Id>, calls: map<Id, Call>, id: Id, now: Time)
    requires CallsSound(cfg, inbound, boundBy, calls) && id in calls && calls[id].phase.Stored?
    ensures CallsSound(cfg, inbound, boundBy, calls[id := calls[id].(phase := Clocked(now))])
  {
    assert CallOk(cfg, inbound, boundBy, id, calls[id]);
  }

  /** A call ends, having set `matched` of its own message or not. */
  lemma CallsKeepEnd(cfg: Config, inbound: map<Id, Inbound>, boundBy: map<Id, Id>, calls: map<Id, Call>, id: Id, m: Option<Id>)
    requires CallsSound(cfg, inbound, boundBy, calls)
    ensures CallsSound(cfg, inbound, boundBy, calls - {id})
    ensures id in inbound ==> CallsSound(cfg, inbound[id := inbound[id].(matched := m)], boundBy, calls - {id})
  {
    if id in inbound {
      forall c | c in calls - {id}
        ensures CallOk(cfg, inbound[id := inbound[id].(matched := m)], boundBy, c, calls[c])
      {
        assert CallOk(cfg, inbound, boundBy, c, calls[c]);
      }
    }
  }

  lemma CallsKeepPromote(cfg: Config, inbound: map<Id, Inbound>, boundBy: map<Id, Id>, calls: map<Id, Call>,
                         id: Id, which: set<Id>, pick: Id)
    requires CallsSound(cfg, inbound, boundBy, calls)
    requires id in calls && calls[id].intent.Bind? && !calls[id].phase.Promoted?
    requires pick in which && which !! boundBy.Keys
    ensures CallsSound(cfg, inbound, boundBy + (map b | b in which :: id), calls[id := calls[id].(phase := Promoted(pick))])
  {
    var boundBy', calls' := boundBy + (map b | b in which :: id), calls[id := calls[id].(phase := Promoted(pick))];
    forall c | c in calls' ensures CallOk(cfg, inbound, boundBy', c, calls'[c]) {
      assert CallOk(cfg, inbound, boundBy, c, calls[c]);
      assert CallOk(cfg, inbound, boundBy, id, calls[id]);
    }
  }

  // ----- the four together -------------------------------------------------

  lemma MessagesKeepReceivers(cfg: Config, receivers: map<Id, Receiver>, vs: map<Id, Verification>, bs: map<Id, Binding>,
                              inbound: map<Id, Inbound>, boundBy: map<Id, Id>, calls: map<Id, Call>, after: map<Id, Receiver>)
    requires MessagesSound(cfg, receivers, vs, bs, inbound, boundBy, calls)
    requires receivers.Keys <= after.Keys
    ensures MessagesSound(cfg, after, vs, bs, inbound, boundBy, calls)
  {
    hide ClaimsSound, BindingsSound, CallsSound;
  }

  lemma MessagesKeepNewRow(cfg: Config, receivers: map<Id, Receiver>, vs: map<Id, Verification>, bs: map<Id, Binding>,
                           inbound: map<Id, Inbound>, boundBy: map<Id, Id>, calls: map<Id, Call>, id: Id, row: Verification)
    requires MessagesSound(cfg, receivers, vs, bs, inbound, boundBy, calls) && id !in vs
    requires row.status == VerificationStatus.Pending && Untouched(row) && row.cancelledAt.None?
    ensures MessagesSound(cfg, receivers, vs[id := row], bs, inbound, boundBy, calls)
  {
    hide ClaimsSound, BindingsSound, CallsSound, Idempotent;
    ClaimsKeepNewRow(cfg, vs, inbound, id, row);
  }

  lemma MessagesKeepClose(cfg: Config, receivers: map<Id, Receiver>, vs: map<Id, Verification>, bs: map<Id, Binding>,
                          inbound: map<Id, Inbound>, boundBy: map<Id, Id>, calls: map<Id, Call>, id: Id, row: Verification)
    requires MessagesSound(cfg, receivers, vs, bs, inbound, boundBy, calls)
    requires id in vs && vs[id].status == VerificationStatus.Pending
    requires row.status == VerificationStatus.Cancelled || row.status == VerificationStatus.Expired
    requires row.status == VerificationStatus.Cancelled <==> row.cancelledAt.Some?
    requires row == vs[id].(status := row.status, cancelledAt := row.cancelledAt)
    ensures MessagesSound(cfg, receivers, vs[id := row], bs, inbound, boundBy, calls)
  {
    hide ClaimsSound, BindingsSound, CallsSound, Idempotent;
    ClaimsKeepClose(cfg, vs, inbound, id, row);
  }

  lemma MessagesKeepNewInbound(cfg: Config, receivers: map<Id, Receiver>, vs: map<Id, Verification>, bs: map<Id, Binding>,
                               inbound: map<Id, Inbound>, boundBy: map<Id, Id>, calls: map<Id, Call>, id: Id, i: Inbound)
    requires MessagesSound(cfg, receivers, vs, bs, inbound, boundBy, calls) && id !in inbound && i.matched.None?
    requires i.receiverId in receivers && 1 <= |i.body| <= MAX_BODY && !KeyTaken(inbound, i.receiverId, i.idempotencyKey)
    ensures MessagesSound(cfg, receivers, vs, bs, inbound[id := i], boundBy,
                          calls[id := Call(i.receiverId, i.from, cfg.parse(i.body), Stored)])
  {
    hide ClaimsSound, BindingsSound, CallsSound;
    ClaimsKeepNewInbound(cfg, vs, inbound, id, i);
    BindingsKeepNewInbound(cfg, bs, inbound, boundBy, id, i);
    CallsKeepNewInbound(cfg, inbound, boundBy, calls, id, i, Call(i.receiverId, i.from, cfg.parse(i.body), Stored));
  }

  lemma MessagesKeepClock(cfg: Config, receivers: map<Id, Receiver>, vs: map<Id, Verification>, bs: map<Id, Binding>,
                          inbound: map<Id, Inbound>, boundBy: map<Id, Id>, calls: map<Id, Call>, id: Id, now: Time)
    requires MessagesSound(cfg, receivers, vs, bs, inbound, boundBy, calls) && id in calls && calls[id].phase.Stored?
    ensures MessagesSound(cfg, receivers, vs, bs, inbound, boundBy, calls[id := calls[id].(phase := Clocked(now))])
  {
    hide ClaimsSound, BindingsSound, CallsSound, Idempotent;
    CallsKeepClock(cfg, inbound, boundBy, calls, id, now);
  }

  lemma MessagesKeepEnd(cfg: Config, receivers: map<Id, Receiver>, vs: map<Id, Verification>, bs: map<Id, Binding>,
                        inbound: map<Id, Inbound>, boundBy: map<Id, Id>, calls: map<Id, Call>, id: Id)
    requires MessagesSound(cfg, receivers, vs, bs, inbound, boundBy, calls)
    ensures MessagesSound(cfg, receivers, vs, bs, inbound, boundBy, calls - {id})
  {
    hide ClaimsSound, BindingsSound, CallsSound, Idempotent;
    CallsKeepEnd(cfg, inbound, boundBy, calls, id, None);
  }

  lemma IdempotentKeepsMatch(receivers: map<Id, Receiver>, inbound: map<Id, Inbound>, id: Id, m: Option<Id>)
    requires Idempotent(receivers, inbound) && id in inbound
    ensures Idempotent(receivers, inbound[id := inbound[id].(matched := m)])
  {
  }

  lemma MessagesKeepAnnotate(cfg: Config, receivers: map<Id, Receiver>, vs: map<Id, Verification>, bs: map<Id, Binding>,
                             inbound: map<Id, Inbound>, boundBy: map<Id, Id>, calls: map<Id, Call>, id: Id)
    requires MessagesSound(cfg, receivers, vs, bs, inbound, boundBy, calls)
    requires id in calls && calls[id].phase.Promoted?
    ensures id in inbound
    ensures MessagesSound(cfg, receivers, vs, bs, inbound[id := inbound[id].(matched := Some(calls[id].phase.bindingId))],
                          boundBy, calls - {id})
  {
    assert CallOk(cfg, inbound, boundBy, id, calls[id]);
    hide ClaimsSound, BindingsSound, CallsSound, Idempotent;
    var b := calls[id].phase.bindingId;
    IdempotentKeepsMatch(receivers, inbound, id, Some(b));
    ClaimsKeepAnnotate(cfg, vs, inbound, id, b);
    BindingsKeepMatch(cfg, bs, inbound, boundBy, id, b);
    CallsKeepEnd(cfg, inbound, boundBy, calls, id, Some(b));
  }

  lemma MessagesKeepPromote(cfg: Config, receivers: map<Id, Receiver>, vs: map<Id, Verification>, bs: map<Id, Binding>,
                            inbound: map<Id, Inbound>, boundBy: map<Id, Id>, calls: map<Id, Call>, id: Id, pick: Id)
    requires MessagesSound(cfg, receivers, vs, bs, inbound, boundBy, calls)
    requires forall k :: k in bs ==> OfApp(receivers, bs[k].receiverId, bs[k].appId)
    requires id in calls && calls[id].phase.Clocked? && calls[id].intent.Bind?
    requires var which := Promotable(bs, calls[id].receiverId, calls[id].from, calls[id].intent.nonce, calls[id].phase.serverNow);
             pick in which && ActiveUnique(Promote(bs, which, calls[id].phase.serverNow))
    ensures var at := calls[id].phase.serverNow;
            var which := Promotable(bs, calls[id].receiverId, calls[id].from, calls[id].intent.nonce, at);
            MessagesSound(cfg, receivers, vs, Promote(bs, which, at), inbound,
                          boundBy + (map b | b in which :: id), calls[id := calls[id].(phase := Promoted(pick))])
  {
    var call := calls[id];
    var at := call.phase.serverNow;
    var which := Promotable(bs, call.receiverId, call.from, call.intent.nonce, at);
    assert CallOk(cfg, inbound, boundBy, id, call);
    forall b | b in which ensures b !in boundBy {
      assert bs[b].boundAt.None?;
    }
    hide ClaimsSound, BindingsSound, CallsSound, Idempotent, ActiveUnique, Promote;
    BindingsKeepPromote(cfg, receivers, bs, inbound, boundBy, id, call.intent.nonce, at);
    CallsKeepPromote(cfg, inbound, boundBy, calls, id, which, pick);
  }

  lemma MessagesKeepBinding(cfg: Config, receivers: map<Id, Receiver>, vs: map<Id, Verification>, bs: map<Id, Binding>,
                            inbound: map<Id, Inbound>, boundBy: map<Id, Id>, calls: map<Id, Call>, after: map<Id, Binding>)
    requires MessagesSound(cfg, receivers, vs, bs, inbound, boundBy, calls)
    requires BindingsSound(cfg, bs, inbound, boundBy) ==> BindingsSound(cfg, after, inbound, boundBy)
    ensures MessagesSound(cfg, receivers, vs, after, inbound, boundBy, calls)
  {
    hide ClaimsSound, BindingsSound, CallsSound, Idempotent;
  }

  /** What a claim writes to the row it picks. */
  function Claimed(row: Verification, id: Id, at: Time): Verification {
    row.(status := VerificationStatus.Verified, verifiedAt := Some(at), matchedInbound := Some(id), attempts := row.attempts + 1)
  }

  lemma MessagesKeepClaim(cfg: Config, receivers: map<Id, Receiver>, vs: map<Id, Verification>, bs: map<Id, Binding>,
                          inbound: map<Id, Inbound>, boundBy: map<Id, Id>, calls: map<Id, Call>, id: Id, pick: Id)
    requires MessagesSound(cfg, receivers, vs, bs, inbound, boundBy, calls)
    requires id in calls && calls[id].phase.Clocked? && calls[id].intent.Verify?
    requires pick in Candidates(vs, calls[id].receiverId, calls[id].from, calls[id].intent.code, calls[id].phase.serverNow)
    ensures id in inbound
    ensures MessagesSound(cfg, receivers, vs[pick := Claimed(vs[pick], id, calls[id].phase.serverNow)], bs,
                          inbound[id := inbound[id].(matched := Some(pick))], boundBy, calls - {id})
  {
    assert CallOk(cfg, inbound, boundBy, id, calls[id]);
    assert Untouched(vs[pick]);
    assert vs[pick].cancelledAt.None?;
    hide ClaimsSound, BindingsSound, CallsSound, Idempotent;
    IdempotentKeepsMatch(receivers, inbound, id, Some(pick));
    ClaimsKeepClaim(cfg, vs, inbound, id, pick, Claimed(vs[pick], id, calls[id].phase.serverNow));
    BindingsKeepMatch(cfg, bs, inbound, boundBy, id, pick);
    CallsKeepEnd(cfg, inbound, boundBy, calls, id, Some(pick));
  }

  // ----- what ends a call --------------------------------------------------

  lemma ReachedCall(s: State, cfg: Config, id: Id)
    requires Inv(s, cfg) && id in s.live.calls
    ensures id in s.db.inbound
  {
    hide IdsBelow, Homed, PendingSafe, OnTime, BoundFirst, OutboxExact, Idempotent, ClaimsSound, BindingsSound;
    assert CallOk(cfg, s.db.inbound, s.past.boundBy, id, s.live.calls[id]);
  }

  lemma CandidateIn(vs: map<Id, Verification>, r: Id, phone: string, code: string, at: Time, pick: Id)
    requires pick in Candidates(vs, r, phone, code, at)
    ensures pick in vs && vs[pick].status == VerificationStatus.Pending
  {
  }

  lemma ClaimNone(s: State, id: Id, order: seq<Id>)
    requires id in s.live.calls && id in s.db.inbound && s.live.calls[id].phase.Clocked? && s.live.calls[id].intent.Verify?
    requires var c := s.live.calls[id];
             Candidates(s.db.verifications, c.receiverId, c.from, c.intent.code, c.phase.serverNow) == {}
    ensures ClaimVerification(s, id, {}, 0, order) == CrashCall(s, id)
  {
    hide Finish, Lists, Subscribed, Candidates;
  }

  lemma ClaimOne(s: State, id: Id, pick: Id, order: seq<Id>)
    requires id in s.live.calls && id in s.db.inbound && s.live.calls[id].phase.Clocked? && s.live.calls[id].intent.Verify?
    requires var c := s.live.calls[id];
             pick in Candidates(s.db.verifications, c.receiverId, c.from, c.intent.code, c.phase.serverNow)
    requires pick in s.db.verifications
    requires Lists(order, Subscribed(s.db.endpoints, s.db.verifications[pick].appId, VerificationVerified))
    ensures ClaimVerification(s, id, {}, pick, order) == Finish(MatchedBy(s, id, pick), pick,
      Claimed(s.db.verifications[pick], id, s.live.calls[id].phase.serverNow), VerificationVerified, order)
  {
    hide Finish, Lists, Subscribed, Candidates;
  }

  function MatchedBy(s: State, id: Id, pick: Id): State
    requires id in s.db.inbound
  {
    s.(db := s.db.(inbound := s.db.inbound[id := s.db.inbound[id].(matched := Some(pick))]),
       live := s.live.(calls := s.live.calls - {id}))
  }

  lemma ConsumeRefused(s: State, cfg: Config, id: Id)
    requires id in s.live.calls && s.live.calls[id].phase.Clocked? && s.live.calls[id].intent.Bind?
    requires var c := s.live.calls[id];
             var which := Promotable(s.db.bindings, c.receiverId, c.from, c.intent.nonce, c.phase.serverNow);
             which == {} || !ActiveUnique(Promote(s.db.bindings, which, c.phase.serverNow))
    ensures Apply(s, cfg, Inbounds(DoConsumeNonce(id, 0))) == CrashCall(s, id)
  {
    hide Promotable, Promote, ActiveUnique;
  }

  lemma ConsumeTaken(s: State, cfg: Config, id: Id, pick: Id)
    requires id in s.live.calls && s.live.calls[id].phase.Clocked? && s.live.calls[id].intent.Bind?
    requires var c := s.live.calls[id];
             var which := Promotable(s.db.bindings, c.receiverId, c.from, c.intent.nonce, c.phase.serverNow);
             pick in which && ActiveUnique(Promote(s.db.bindings, which, c.phase.serverNow))
    ensures var c := s.live.calls[id];
            var which := Promotable(s.db.bindings, c.receiverId, c.from, c.intent.nonce, c.phase.serverNow);
      Apply(s, cfg, Inbounds(DoConsumeNonce(id, pick)))
        == s.(db := s.db.(bindings := Promote(s.db.bindings, which, c.phase.serverNow)),
              past := s.past.(boundBy := s.past.boundBy + (map b | b in which :: id)),
              live := s.live.(calls := s.live.calls[id := c.(phase := Promoted(pick))]))
  {
    hide Promotable, Promote, ActiveUnique;
  }

  lemma PromotableIn(bs: map<Id, Binding>, r: Id, phone: string, nonce: string, at: Time)
    ensures Promotable(bs, r, phone, nonce, at) <= bs.Keys
  {
  }
}
