/** What the transactions guarantee together: the link between each asset and its current
    leg, when that link survives and when the code lets it break, and the effect of
    sequences of transactions. */
module Properties {
  import opened Assets
  import opened Legs
  import opened Ledger
  import opened Transitions

  /** `key` holds a leg, stored under its own id, that belongs to `qr`. */
  ghost predicate LegOf(st: map<string, Value>, qr: string, key: string)
  {
    key in st && st[key].LegValue? && st[key].leg.id == key && st[key].leg.basil == qr
  }

  /** Every stored asset is keyed by its own code and points at a leg of its own; every
      stored leg belongs to a stored asset that points at it. */
  ghost predicate Consistent(st: map<string, Value>)
  {
    && (forall k | k in st && st[k].BasilValue? :: st[k].basil.qr == k && LegOf(st, k, st[k].basil.basilLeg))
    && (forall k | k in st && st[k].LegValue? ::
          && st[k].leg.id == k
          && st[k].leg.basil in st
          && st[st[k].leg.basil].BasilValue?
          && st[st[k].leg.basil].basil.basilLeg == k)
  }

  /** The clock gives a key no stored record uses. */
  ghost predicate FreshClock(w: World, now: int64)
  {
    LegKey(now) !in w.state
  }

  lemma EmptyLedgerIsConsistent()
    ensures Consistent(map[])
  {
  }

  /** On a consistent ledger every asset resolves to a leg that points back at it. */
  lemma ActualTrackingResolves(w: World, qr: string)
    requires Consistent(w.state)
    requires qr in w.state && w.state[qr].BasilValue?
    ensures GetActualTracking(w, qr).Ok?
    ensures var s := GetActualTracking(w, qr).value;
            s.basil.qr == qr && s.basilLeg.LegValue? && s.basilLeg.leg.basil == qr
            && s.basilLeg.leg.id == s.basil.basilLeg
  {
  }

  lemma CreatePreservesConsistent(w: World, qr: string, extraInfo: string, gpsPosition: string,
                                  caller: string, now: int64)
    requires Consistent(w.state)
    requires FreshClock(w, now) && qr != LegKey(now)
    ensures Consistent(CreateTracking(w, qr, extraInfo, gpsPosition, caller, now).1.state)
  {
  }

  lemma StopPreservesConsistent(w: World, qr: string, caller: string)
    requires Consistent(w.state)
    ensures Consistent(StopTracking(w, qr, caller).1.state)
  {
  }

  lemma TransferPreservesConsistent(w: World, qr: string, newOwner: string, caller: string)
    requires Consistent(w.state)
    ensures Consistent(TransferTracking(w, qr, newOwner, caller).1.state)
  {
  }

  /** An update by the owner keeps the ledger consistent when the clock gives a fresh leg key
      or the asset's own current one (a second update within the same second). */
  lemma UpdatePreservesConsistent(w: World, qr: string, gpsPosition: string, caller: string, now: int64)
    requires Consistent(w.state)
    requires OwnedBy(w, qr, caller)
    requires FreshClock(w, now) || LegKey(now) == w.state[qr].basil.basilLeg
    ensures Consistent(UpdateTracking(w, qr, gpsPosition, caller, now).1.state)
  {
    var st := w.state;
    var b := st[qr].basil;
    var L := LegKey(now);
    var st' := UpdateTracking(w, qr, gpsPosition, caller, now).1.state;
    assert st' == (st - {b.basilLeg})[qr := BasilValue(b.(basilLeg := L))][L := LegValue(NewLeg(now, gpsPosition, qr))];
    forall k | k in st' && st'[k].BasilValue?
      ensures st'[k].basil.qr == k && LegOf(st', k, st'[k].basil.basilLeg)
    {
      if k != qr {
        assert k in st && st'[k] == st[k];
        var l := st[k].basil.basilLeg;
        assert LegOf(st, k, l);
        assert l != b.basilLeg && l != qr && l != L;
      }
    }
    forall k | k in st' && st'[k].LegValue?
      ensures st'[k].leg.id == k && st'[k].leg.basil in st' && st'[st'[k].leg.basil].BasilValue?
      ensures st'[st'[k].leg.basil].basil.basilLeg == k
    {
      if k != L {
        assert k in st && k != b.basilLeg && k != qr && st'[k] == st[k];
        var a := st[k].leg.basil;
        assert a in st && st[a].BasilValue? && st[a].basil.basilLeg == k;
        assert a != qr && a != L && st'[a] == st[a];
      }
    }
  }

  /** Under the platform's commit, every update keeps the ledger consistent. */
  lemma SubmittedUpdatePreservesConsistent(w: World, qr: string, gpsPosition: string, caller: string, now: int64)
    requires Consistent(w.state)
    requires OwnedBy(w, qr, caller) ==> FreshClock(w, now) || LegKey(now) == w.state[qr].basil.basilLeg
    ensures Consistent(Commit(w, UpdateTracking(w, qr, gpsPosition, caller, now)).1.state)
  {
    if OwnedBy(w, qr, caller) {
      UpdatePreservesConsistent(w, qr, gpsPosition, caller, now);
    }
  }

  /** Literally, an update by someone other than the owner fails with the asset unchanged
      but its leg already deleted: the asset then no longer resolves. */
  lemma LiteralUpdateByNonOwnerLeavesDanglingLeg(w: World, qr: string, gpsPosition: string, caller: string, now: int64)
    requires Consistent(w.state)
    requires qr in w.state && w.state[qr].BasilValue? && w.state[qr].basil.owner != caller
    ensures var o := UpdateTracking(w, qr, gpsPosition, caller, now);
            && o.0 == Err(NotTheOwner)
            && o.1.state[qr] == w.state[qr]
            && GetActualTracking(o.1, qr) == Err(RuntimeFailure)
            && !Consistent(o.1.state)
  {
  }

  /** A ledger differs from itself with one more deletion recorded. */
  lemma DelIsVisible(w: World, key: string)
    ensures w.Del(key) != w
  {
    assert |w.Del(key).HistoryOf(key)| == |w.HistoryOf(key)| + 1;
  }

  /** Literal and committed semantics agree for every transaction but UpdateTracking, and
      for that one they differ exactly on a NotTheOwner failure. */
  lemma LiteralDiffersFromCommittedOnlyInUpdate(w: World, qr: string, extraInfo: string, gpsPosition: string,
                                               caller: string, newOwner: string, now: int64)
    ensures Commit(w, CreateTracking(w, qr, extraInfo, gpsPosition, caller, now)) == CreateTracking(w, qr, extraInfo, gpsPosition, caller, now)
    ensures Commit(w, StopTracking(w, qr, caller)) == StopTracking(w, qr, caller)
    ensures Commit(w, TransferTracking(w, qr, newOwner, caller)) == TransferTracking(w, qr, newOwner, caller)
    ensures var o := UpdateTracking(w, qr, gpsPosition, caller, now);
            Commit(w, o) != o <==> o.0 == Err(NotTheOwner)
  {
    var o := UpdateTracking(w, qr, gpsPosition, caller, now);
    if o.0 == Err(NotTheOwner) {
      DelIsVisible(w, w.state[qr].basil.basilLeg);
    }
  }

  /** A code can be created once: afterwards it exists, and a second creation fails with
      nothing written. */
  lemma CreateThenCreateFails(w: World, qr: string, extraInfo: string, gpsPosition: string,
                              caller: string, now: int64, extraInfo': string, gpsPosition': string,
                              caller': string, now': int64)
    requires qr !in w.state
    ensures var o := CreateTracking(w, qr, extraInfo, gpsPosition, caller, now);
            && o.0.Ok? && qr in o.1.state
            && CreateTracking(o.1, qr, extraInfo', gpsPosition', caller', now') == (Err(BasilAlreadyExists), o.1)
  {
  }

  /** A code spelled like a leg key hits the same existence check as the leg. */
  lemma CreateOnLegKeyFails(w: World, t: int64, extraInfo: string, gpsPosition: string, caller: string, now: int64)
    requires LegKey(t) in w.state && w.state[LegKey(t)].LegValue?
    ensures CreateTracking(w, LegKey(t), extraInfo, gpsPosition, caller, now) == (Err(BasilAlreadyExists), w)
  {
  }

  /** Creating a code equal to the current leg key overwrites the new leg with the asset,
      which then points at itself. */
  lemma CreateOnOwnLegKeyPointsAtItself(w: World, extraInfo: string, gpsPosition: string, caller: string, now: int64)
    requires FreshClock(w, now)
    ensures var qr := LegKey(now);
            var o := CreateTracking(w, qr, extraInfo, gpsPosition, caller, now);
            var b := BasilRecord(qr, extraInfo, caller, qr);
            && o.0.Ok?
            && o.1.state.Keys == w.state.Keys + {qr}
            && GetActualTracking(o.1, qr) == Ok(Snapshot(b, BasilValue(b)))
  {
  }

  /** Two assets created in the same second share one leg key: the second overwrites the
      first one's leg, and stopping the second leaves the first without a leg. */
  lemma SameSecondCreatesShareLeg(w: World, q1: string, q2: string, extra1: string, extra2: string,
                                  gps1: string, gps2: string, org1: string, org2: string, now: int64)
    requires q1 !in w.state && q2 !in w.state && q1 != q2
    requires FreshClock(w, now) && q1 != LegKey(now) && q2 != LegKey(now)
    ensures var o1 := CreateTracking(w, q1, extra1, gps1, org1, now);
            var o2 := CreateTracking(o1.1, q2, extra2, gps2, org2, now);
            var o3 := StopTracking(o2.1, q2, org2);
            && o1.0.Ok? && o2.0.Ok? && o3.0.Ok?
            && GetActualTracking(o2.1, q1) == Ok(Snapshot(BasilRecord(q1, extra1, org1, LegKey(now)), LegValue(NewLeg(now, gps2, q2))))
            && !Consistent(o2.1.state)
            && GetActualTracking(o3.1, q1) == Err(RuntimeFailure)
  {
    var o2 := CreateTracking(CreateTracking(w, q1, extra1, gps1, org1, now).1, q2, extra2, gps2, org2, now);
    assert o2.1.state[LegKey(now)].leg.basil == q2;
  }

  /** After an update by the owner the old leg is gone (unless the clock gave the same key),
      and the asset resolves to a new leg at the given position. */
  lemma UpdateMovesLeg(w: World, qr: string, gpsPosition: string, caller: string, now: int64)
    requires Consistent(w.state)
    requires OwnedBy(w, qr, caller)
    requires FreshClock(w, now)
    ensures var b := w.state[qr].basil;
            var o := UpdateTracking(w, qr, gpsPosition, caller, now);
            && o.0 == Ok(Updated)
            && b.basilLeg !in o.1.state
            && GetActualTracking(o.1, qr) == Ok(Snapshot(b.(basilLeg := LegKey(now)), LegValue(NewLeg(now, gpsPosition, qr))))
  {
  }

  /** A transfer hands the owner check over: the old owner now fails it, the new owner passes. */
  lemma TransferHandsOver(w: World, qr: string, oldOwner: string, newOwner: string)
    requires OwnedBy(w, qr, oldOwner) && oldOwner != newOwner
    ensures var o := TransferTracking(w, qr, newOwner, oldOwner);
            && o.0.Ok?
            && o.1.state[qr].basil.basilLeg == w.state[qr].basil.basilLeg
            && StopTracking(o.1, qr, oldOwner) == (Err(NotTheOwner), o.1)
            && StopTracking(o.1, qr, newOwner).0.Ok?
  {
  }

  /** A transfer to the current owner succeeds and changes no state, only the history. */
  lemma TransferToSelfKeepsState(w: World, qr: string, owner: string)
    requires OwnedBy(w, qr, owner)
    ensures var o := TransferTracking(w, qr, owner, owner);
            o.0.Ok? && o.1.state == w.state
  {
  }

  /** Create, update and transfer each add one entry to the code's history, in that order. */
  lemma HistoryOfCreateUpdateTransfer(w: World, qr: string, extraInfo: string, gpsPosition: string,
                                      gpsPosition': string, org: string, newOwner: string, t1: int64, t2: int64)
    requires qr !in w.state && qr != LegKey(t1) && qr != LegKey(t2)
    ensures var o1 := CreateTracking(w, qr, extraInfo, gpsPosition, org, t1);
            var o2 := UpdateTracking(o1.1, qr, gpsPosition', org, t2);
            var o3 := TransferTracking(o2.1, qr, newOwner, org);
            var a1 := BasilRecord(qr, extraInfo, org, LegKey(t1));
            var a2 := a1.(basilLeg := LegKey(t2));
            var a3 := a2.(owner := newOwner);
            && o1.0.Ok? && o2.0.Ok? && o3.0.Ok?
            && GetHistory(o3.1, qr) == Ok(w.HistoryOf(qr) + [Write(BasilValue(a1)), Write(BasilValue(a2)), Write(BasilValue(a3))])
  {
    var a1 := BasilRecord(qr, extraInfo, org, LegKey(t1));
    var a2 := a1.(basilLeg := LegKey(t2));
    var o1 := CreateTracking(w, qr, extraInfo, gpsPosition, org, t1);
    // The update deletes the old leg and writes the new one: neither touches the history of qr.
    var w1 := o1.1.Del(LegKey(t1)).Put(qr, BasilValue(a2));
    var o2 := UpdateTracking(o1.1, qr, gpsPosition', org, t2);
    assert o2.1 == w1.Put(LegKey(t2), LegValue(NewLeg(t2, gpsPosition', qr)));
    assert o2.1.HistoryOf(qr) == w1.HistoryOf(qr);
    var o3 := TransferTracking(o2.1, qr, newOwner, org);
    var h, e1, e2, e3 := w.HistoryOf(qr), Write(BasilValue(a1)), Write(BasilValue(a2)), Write(BasilValue(a2.(owner := newOwner)));
    assert o3.1.HistoryOf(qr) == h + [e1] + [e2] + [e3] == h + [e1, e2, e3];
  }

  lemma LegKeyIsNotQr1(now: int64)
    ensures LegKey(now) != "QR1"
  {
    assert LegKey(now)[0] == 'B';
  }

  /** The create, read, stop, read sequence on code "QR1". */
  lemma Qr1Scenario(w: World, org: string, now: int64)
    requires "QR1" !in w.state && FreshClock(w, now)
    ensures var o1 := CreateTracking(w, "QR1", "basil batch", "45.0,9.0", org, now);
            var o2 := StopTracking(o1.1, "QR1", org);
            && o1.0 == Ok(Created)
            && GetActualTracking(o1.1, "QR1") == Ok(Snapshot(BasilRecord("QR1", "basil batch", org, LegKey(now)),
                                                              LegValue(LegRecord(LegKey(now), now, "45.0,9.0", "QR1"))))
            && o2.0 == Ok(Deleted)
            && GetActualTracking(o2.1, "QR1") == Err(BasilNotFound)
  {
    LegKeyIsNotQr1(now);
  }
}
