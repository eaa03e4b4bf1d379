/** How single table changes keep the predicates about pending rows, the
    advisory lock and the cap per (app, phone). */
module PendingLemmas {
  import opened Wrappers
  import opened Schema
  import opened Store
  import opened Invariant

  lemma SubsetSize(a: set<Id>, b: set<Id>)
    requires a <= b
    ensures |a| <= |b|
  {
    assert b == a + (b - a);
  }

  /** A pending row leaves `pending`: nothing about the others gets harder. */
  lemma PendingKeepsClose(cfg: Config, vs: map<Id, Verification>, starts: map<Id, Start>, id: Id, row: Verification)
    requires PendingSafe(cfg, vs, starts)
    requires id in vs && row.status != VerificationStatus.Pending
    ensures PendingSafe(cfg, vs[id := row], starts)
  {
    var after := vs[id := row];
    forall appId, phone ensures |PendingFor(after, appId, phone)| <= |PendingFor(vs, appId, phone)| {
      SubsetSize(PendingFor(after, appId, phone), PendingFor(vs, appId, phone));
    }
    forall o | o in starts && starts[o].phase.Inserted? ensures !Collides(after, starts[o].phase.row) {
      assert !Collides(vs, starts[o].phase.row);
    }
  }

  lemma PendingAfterInsert(vs: map<Id, Verification>, id: Id, row: Verification, appId: string, phone: string)
    requires id !in vs && row.status == VerificationStatus.Pending
    ensures id !in PendingFor(vs, appId, phone)
    ensures forall v ::
      (v in PendingFor(vs[id := row], appId, phone) <==> v in PendingFor(vs, appId, phone) || (v == id && appId == row.appId && phone == row.phone))
  {
  }

  lemma PendingAfterCommit(vs: map<Id, Verification>, id: Id, row: Verification, appId: string, phone: string)
    requires id !in vs && row.status == VerificationStatus.Pending
    ensures |PendingFor(vs[id := row], appId, phone)|
         == |PendingFor(vs, appId, phone)| + if appId == row.appId && phone == row.phone then 1 else 0
  {
    var before, after := PendingFor(vs, appId, phone), PendingFor(vs[id := row], appId, phone);
    hide PendingFor;
    PendingAfterInsert(vs, id, row, appId, phone);
    if appId == row.appId && phone == row.phone {
      assert after == before + {id};
    } else {
      assert after == before;
    }
  }

  lemma CommitKeepsIndex(vs: map<Id, Verification>, starts: map<Id, Start>, id: Id)
    requires PendingUnique(vs) && InsertsSafe(vs, starts)
    requires id in starts && starts[id].phase.Inserted? && id !in vs
    ensures PendingUnique(vs[id := starts[id].phase.row])
    ensures InsertsSafe(vs[id := starts[id].phase.row], starts - {id})
  {
    var row, rest := starts[id].phase.row, starts - {id};
    var after := vs[id := row];
    assert !Collides(vs, row);
    forall o | o in rest && rest[o].phase.Inserted? ensures !Collides(after, rest[o].phase.row) {
      assert !Collides(vs, starts[o].phase.row);
      assert !SameTriple(row, starts[o].phase.row);
    }
  }

  /** The only step that adds a pending row. The lock makes its caller the one
      call past the count for this (app, phone). */
  lemma CommitKeepsCap(cfg: Config, vs: map<Id, Verification>, starts: map<Id, Start>, id: Id)
    requires InsertsSafe(vs, starts) && LocksApart(cfg, starts) && WithinCap(cfg, vs, starts)
    requires id in starts && starts[id].phase.Inserted? && id !in vs
    ensures WithinCap(cfg, vs[id := starts[id].phase.row], starts - {id})
  {
    var row := starts[id].phase.row;
    var after := vs[id := row];
    forall appId, phone ensures |PendingFor(after, appId, phone)| <= cfg.maxPendingPerPhone {
      PendingAfterCommit(vs, id, row, appId, phone);
    }
    forall o | o in starts - {id} && PastCount(starts[o])
      ensures |PendingFor(after, starts[o].appId, starts[o].phone)| < cfg.maxPendingPerPhone
    {
      PendingAfterCommit(vs, id, row, starts[o].appId, starts[o].phone);
      assert KeyOf(cfg, starts[o]) != KeyOf(cfg, starts[id]);
    }
  }

  lemma PendingKeepsCommit(cfg: Config, vs: map<Id, Verification>, starts: map<Id, Start>, id: Id)
    requires PendingSafe(cfg, vs, starts)
    requires id in starts && starts[id].phase.Inserted? && id !in vs
    ensures PendingSafe(cfg, vs[id := starts[id].phase.row], starts - {id})
  {
    CommitKeepsIndex(vs, starts, id);
    CommitKeepsCap(cfg, vs, starts, id);
  }

  /** A call moves on inside or into its transaction. */
  lemma StartsKeepPhase(cfg: Config, vs: map<Id, Verification>, starts: map<Id, Start>, id: Id, start: Start)
    requires PendingSafe(cfg, vs, starts)
    requires id in starts && start.appId == starts[id].appId && start.phone == starts[id].phone
    requires !start.phase.Inserted?
    requires HoldsLock(start) ==> HoldsLock(starts[id]) || LockFree(starts, cfg, id)
    requires PastCount(start) ==>
      PastCount(starts[id]) || |PendingFor(vs, start.appId, start.phone)| < cfg.maxPendingPerPhone
    ensures PendingSafe(cfg, vs, starts[id := start])
  {
    var after := starts[id := start];
    forall a, b | a in after && b in after && HoldsLock(after[a]) && HoldsLock(after[b])
                  && KeyOf(cfg, after[a]) == KeyOf(cfg, after[b])
      ensures a == b
    {
      if HoldsLock(starts[id]) {
        assert HoldsLock(starts[a]) && HoldsLock(starts[b]);
      }
    }
  }

  lemma StartsKeepInsert(cfg: Config, vs: map<Id, Verification>, starts: map<Id, Start>, id: Id, row: Verification)
    requires PendingSafe(cfg, vs, starts)
    requires id in starts && starts[id].phase.Picked? && !Collides(vs, row) && !MustWait(starts, row)
    requires row == NewRow(starts[id], row.receiverId, row.code)
    ensures PendingSafe(cfg, vs, starts[id := starts[id].(phase := Inserted(row))])
  {
    var after := starts[id := starts[id].(phase := Inserted(row))];
    forall a, b | a in after && b in after && HoldsLock(after[a]) && HoldsLock(after[b])
                  && KeyOf(cfg, after[a]) == KeyOf(cfg, after[b])
      ensures a == b
    {
      assert HoldsLock(starts[a]) && HoldsLock(starts[b]);
    }
  }

  lemma StartsKeepNew(cfg: Config, vs: map<Id, Verification>, starts: map<Id, Start>, id: Id, start: Start)
    requires PendingSafe(cfg, vs, starts)
    requires id !in starts && start.phase.Idle?
    ensures PendingSafe(cfg, vs, starts[id := start])
  {
  }

  lemma StartsKeepEnd(cfg: Config, vs: map<Id, Verification>, starts: map<Id, Start>, id: Id)
    requires PendingSafe(cfg, vs, starts)
    ensures PendingSafe(cfg, vs, starts - {id})
  {
  }

  // ----- Homed and BoundFirst ----------------------------------------------

  lemma HomedKeepsReceivers(before: map<Id, Receiver>, after: map<Id, Receiver>, vs: map<Id, Verification>,
                            starts: map<Id, Start>, bs: map<Id, Binding>, bindStarts: map<Id, BindStart>)
    requires Homed(before, vs, starts, bs, bindStarts)
    requires forall r :: r in before ==> r in after && after[r].appId == before[r].appId
    ensures Homed(after, vs, starts, bs, bindStarts)
  {
    forall r, appId | OfApp(before, r, appId) ensures OfApp(after, r, appId) {
    }
  }

  lemma HomedKeepsRow(receivers: map<Id, Receiver>, vs: map<Id, Verification>, starts: map<Id, Start>,
                      bs: map<Id, Binding>, bindStarts: map<Id, BindStart>, id: Id, row: Verification)
    requires Homed(receivers, vs, starts, bs, bindStarts) && OfApp(receivers, row.receiverId, row.appId)
    ensures Homed(receivers, vs[id := row], starts, bs, bindStarts)
  {
  }

  lemma HomedKeepsStart(receivers: map<Id, Receiver>, vs: map<Id, Verification>, starts: map<Id, Start>,
                        bs: map<Id, Binding>, bindStarts: map<Id, BindStart>, id: Id, start: Start)
    requires Homed(receivers, vs, starts, bs, bindStarts)
    requires start.phase.Picked? ==> OfApp(receivers, start.phase.receiverId, start.appId)
    requires start.phase.Inserted? ==> OfApp(receivers, start.phase.row.receiverId, start.appId)
    ensures Homed(receivers, vs, starts[id := start], bs, bindStarts)
    ensures Homed(receivers, vs, starts - {id}, bs, bindStarts)
  {
  }

  lemma HomedKeepsBindings(receivers: map<Id, Receiver>, vs: map<Id, Verification>, starts: map<Id, Start>,
                           bs: map<Id, Binding>, bindStarts: map<Id, BindStart>, after: map<Id, Binding>)
    requires Homed(receivers, vs, starts, bs, bindStarts)
    requires forall b :: b in after ==> OfApp(receivers, after[b].receiverId, after[b].appId)
    ensures Homed(receivers, vs, starts, after, bindStarts)
  {
  }

  lemma HomedKeepsBindStart(receivers: map<Id, Receiver>, vs: map<Id, Verification>, starts: map<Id, Start>,
                            bs: map<Id, Binding>, bindStarts: map<Id, BindStart>, id: Id, b: BindStart)
    requires Homed(receivers, vs, starts, bs, bindStarts)
    ensures OfApp(receivers, b.receiverId, b.appId) ==> Homed(receivers, vs, starts, bs, bindStarts[id := b])
    ensures Homed(receivers, vs, starts, bs, bindStarts - {id})
  {
  }

  /** A binding keeps its phone, and having been verified. */
  predicate StillBound(before: Binding, after: Binding) {
    after.appId == before.appId && after.phone == before.phone && (before.boundAt.Some? ==> after.boundAt.Some?)
  }

  lemma BoundFirstGrows(before: map<Id, Binding>, after: map<Id, Binding>, vs: map<Id, Verification>, starts: map<Id, Start>)
    requires BoundFirst(vs, starts, before)
    requires forall b :: b in before ==> b in after && StillBound(before[b], after[b])
    ensures BoundFirst(vs, starts, after)
  {
    forall appId, phone | OnceBound(before, appId, phone) ensures OnceBound(after, appId, phone) {
      var b :| b in before && before[b].appId == appId && before[b].phone == phone && before[b].boundAt.Some?;
      assert b in after;
    }
  }

  lemma BoundFirstKeepsRow(vs: map<Id, Verification>, starts: map<Id, Start>, bs: map<Id, Binding>, id: Id, row: Verification)
    requires BoundFirst(vs, starts, bs) && OnceBound(bs, row.appId, row.phone)
    ensures BoundFirst(vs[id := row], starts, bs)
  {
  }

  lemma BoundFirstKeepsStart(vs: map<Id, Verification>, starts: map<Id, Start>, bs: map<Id, Binding>, id: Id, start: Start)
    requires BoundFirst(vs, starts, bs)
    ensures OnceBound(bs, start.appId, start.phone) ==> BoundFirst(vs, starts[id := start], bs)
    ensures BoundFirst(vs, starts - {id}, bs)
  {
  }
}
