/** The six transactions of BasilContract.java as pure functions from the ledger before a
    call to its result and the ledger after it. These are the literal semantics: writes made
    before a failure stay in the returned ledger; `Commit` adds the platform's discarding of
    a failed transaction's writes. */
module Transitions {
  import opened Assets
  import opened Legs
  import opened Ledger

  /** The contract's three error kinds, and a failure raised by the Java runtime itself
      (a null dereference or a deserialisation error) rather than by the contract. */
  datatype Error = BasilNotFound | BasilAlreadyExists | NotTheOwner | RuntimeFailure

  datatype Result<T> = Ok(value: T) | Err(error: Error)

  /** What GetActualTracking returns: the asset and whatever is stored under its leg key. */
  datatype Snapshot = Snapshot(basil: BasilRecord, basilLeg: Value)

  type Outcome = (Result<string>, World)

  const Created: string := "Plant created successfully"
  const Deleted: string := "Plant deleted successfully"
  const Updated: string := "Plant updated successfully"
  const Transferred: string := "Plant changed the owner"

  /** The caller passes the owner check on what is stored under `qr`. */
  predicate OwnedBy(w: World, qr: string, caller: string)
  {
    qr in w.state && w.state[qr].BasilValue? && w.state[qr].basil.owner == caller
  }

  function CreateTracking(w: World, qr: string, extraInfo: string, gpsPosition: string,
                          caller: string, now: int64): (o: Outcome)
    ensures o.0.Err? <==> qr in w.state
    ensures o.0.Err? ==> o.0.error == BasilAlreadyExists && o.1 == w
    ensures o.0.Ok? ==> o.0.value == Created
    ensures o.0.Ok? ==> o.1.state.Keys == w.state.Keys + {qr, LegKey(now)}
    ensures o.0.Ok? ==> o.1.state[qr] == BasilValue(BasilRecord(qr, extraInfo, caller, LegKey(now)))
    ensures o.0.Ok? && qr != LegKey(now) ==> o.1.state[LegKey(now)] == LegValue(NewLeg(now, gpsPosition, qr))
    ensures o.0.Ok? ==> AgreeOutside(o.1.state, w.state, {qr, LegKey(now)})
    ensures o.0.Ok? ==> AgreeOutside(o.1.history, w.history, {qr, LegKey(now)})
    ensures o.0.Ok? ==>
      var leg, basil := LegValue(NewLeg(now, gpsPosition, qr)), BasilValue(BasilRecord(qr, extraInfo, caller, LegKey(now)));
      && o.1.HistoryOf(LegKey(now)) == w.HistoryOf(LegKey(now)) + [Write(leg)] + EntryAt(LegKey(now), qr, Write(basil))
      && o.1.HistoryOf(qr) == w.HistoryOf(qr) + EntryAt(qr, LegKey(now), Write(leg)) + [Write(basil)]
  {
    if qr in w.state then (Err(BasilAlreadyExists), w)
    else
      var leg := NewLeg(now, gpsPosition, qr);
      var w1 := w.Put(leg.id, LegValue(leg));
      var w2 := w1.Put(qr, BasilValue(BasilRecord(qr, extraInfo, caller, leg.id)));
      PutPut(w, leg.id, LegValue(leg), qr, BasilValue(BasilRecord(qr, extraInfo, caller, leg.id)));
      (Ok(Created), w2)
  }

  function StopTracking(w: World, qr: string, caller: string): (o: Outcome)
    ensures o.0 == Err(BasilNotFound) <==> qr !in w.state
    ensures o.0 == Err(RuntimeFailure) <==> qr in w.state && w.state[qr].LegValue?
    ensures o.0 == Err(NotTheOwner) <==> qr in w.state && w.state[qr].BasilValue? && !OwnedBy(w, qr, caller)
    ensures o.0.Ok? <==> OwnedBy(w, qr, caller)
    ensures o.0.Err? ==> o.1 == w
    ensures o.0.Ok? ==> o.0.value == Deleted && o.1.state == w.state - {qr, w.state[qr].basil.basilLeg}
    ensures o.0.Ok? ==>
      var leg := w.state[qr].basil.basilLeg;
      && AgreeOutside(o.1.history, w.history, {qr, leg})
      && o.1.HistoryOf(qr) == w.HistoryOf(qr) + [Delete] + EntryAt(qr, leg, Delete)
      && o.1.HistoryOf(leg) == w.HistoryOf(leg) + EntryAt(leg, qr, Delete) + [Delete]
  {
    if qr !in w.state then (Err(BasilNotFound), w)
    else match w.state[qr]
      case LegValue(_) => (Err(RuntimeFailure), w)
      case BasilValue(basil) =>
        if basil.owner != caller then (Err(NotTheOwner), w)
        else (Ok(Deleted), w.Del(qr).Del(basil.basilLeg))
  }

  /** The current leg is deleted before the owner check, so a NotTheOwner failure has
      already removed it. */
  function UpdateTracking(w: World, qr: string, gpsPosition: string, caller: string, now: int64): (o: Outcome)
    ensures o.0 == Err(BasilNotFound) <==> qr !in w.state
    ensures o.0 == Err(RuntimeFailure) <==> qr in w.state && w.state[qr].LegValue?
    ensures o.0 == Err(NotTheOwner) <==> qr in w.state && w.state[qr].BasilValue? && !OwnedBy(w, qr, caller)
    ensures o.0.Ok? <==> OwnedBy(w, qr, caller)
    ensures o.0 == Err(BasilNotFound) || o.0 == Err(RuntimeFailure) ==> o.1 == w
    ensures o.0 == Err(NotTheOwner) ==> o.1.state == w.state - {w.state[qr].basil.basilLeg}
    ensures o.0 == Err(NotTheOwner) ==>
      var leg := w.state[qr].basil.basilLeg;
      o.1.history == w.history[leg := w.HistoryOf(leg) + [Delete]]
    ensures o.0.Ok? ==> o.0.value == Updated
    ensures o.0.Ok? ==>
      var b := w.state[qr].basil;
      && o.1.state.Keys == w.state.Keys - {b.basilLeg} + {b.qr, LegKey(now)}
      && o.1.state[LegKey(now)] == LegValue(NewLeg(now, gpsPosition, b.qr))
      && (b.qr != LegKey(now) ==> o.1.state[b.qr] == BasilValue(b.(basilLeg := LegKey(now))))
      && AgreeOutside(o.1.state, w.state, {b.basilLeg, b.qr, LegKey(now)})
    ensures o.0.Ok? ==>
      var b := w.state[qr].basil;
      var basil, leg := Write(BasilValue(b.(basilLeg := LegKey(now)))), Write(LegValue(NewLeg(now, gpsPosition, b.qr)));
      && AgreeOutside(o.1.history, w.history, {b.basilLeg, b.qr, LegKey(now)})
      && o.1.HistoryOf(b.basilLeg) == w.HistoryOf(b.basilLeg) + [Delete] + EntryAt(b.basilLeg, b.qr, basil) + EntryAt(b.basilLeg, LegKey(now), leg)
      && o.1.HistoryOf(b.qr) == w.HistoryOf(b.qr) + EntryAt(b.qr, b.basilLeg, Delete) + [basil] + EntryAt(b.qr, LegKey(now), leg)
      && o.1.HistoryOf(LegKey(now)) == w.HistoryOf(LegKey(now)) + EntryAt(LegKey(now), b.basilLeg, Delete) + EntryAt(LegKey(now), b.qr, basil) + [leg]
  {
    if qr !in w.state then (Err(BasilNotFound), w)
    else match w.state[qr]
      case LegValue(_) => (Err(RuntimeFailure), w)
      case BasilValue(basil) =>
        var w1 := w.Del(basil.basilLeg);
        if basil.owner != caller then (Err(NotTheOwner), w1)
        else
          var leg := NewLeg(now, gpsPosition, basil.qr);
          var w2 := w1.Put(basil.qr, BasilValue(basil.(basilLeg := leg.id)));
          var w3 := w2.Put(leg.id, LegValue(leg));
          DelPutPut(w, basil.basilLeg, basil.qr, BasilValue(basil.(basilLeg := leg.id)), leg.id, LegValue(leg));
          DelPutPutHistoryElsewhere(w, basil.basilLeg, basil.qr, BasilValue(basil.(basilLeg := leg.id)), leg.id, LegValue(leg));
          DelPutPutHistory(w, basil.basilLeg, basil.qr, BasilValue(basil.(basilLeg := leg.id)), leg.id, LegValue(leg), basil.basilLeg);
          DelPutPutHistory(w, basil.basilLeg, basil.qr, BasilValue(basil.(basilLeg := leg.id)), leg.id, LegValue(leg), basil.qr);
          DelPutPutHistory(w, basil.basilLeg, basil.qr, BasilValue(basil.(basilLeg := leg.id)), leg.id, LegValue(leg), leg.id);
          (Ok(Updated), w3)
  }

  function GetActualTracking(w: World, qr: string): (r: Result<Snapshot>)
    ensures r == Err(BasilNotFound) <==> qr !in w.state
    ensures r.Ok? <==> qr in w.state && w.state[qr].BasilValue? && w.state[qr].basil.basilLeg in w.state
    ensures r.Err? ==> r.error == BasilNotFound || r.error == RuntimeFailure
    ensures r.Ok? ==> r.value.basil == w.state[qr].basil && r.value.basilLeg == w.state[r.value.basil.basilLeg]
  {
    if qr !in w.state then Err(BasilNotFound)
    else match w.state[qr]
      case LegValue(_) => Err(RuntimeFailure)
      case BasilValue(basil) =>
        if basil.basilLeg !in w.state then Err(RuntimeFailure)
        else Ok(Snapshot(basil, w.state[basil.basilLeg]))
  }

  function GetHistory(w: World, qr: string): (r: Result<seq<Entry>>)
    ensures r.Err? <==> qr !in w.state
    ensures r.Err? ==> r.error == BasilNotFound
    ensures r.Ok? ==> r.value == w.HistoryOf(qr)
  {
    if qr !in w.state then Err(BasilNotFound) else Ok(w.HistoryOf(qr))
  }

  function TransferTracking(w: World, qr: string, newOwner: string, caller: string): (o: Outcome)
    ensures o.0 == Err(BasilNotFound) <==> qr !in w.state
    ensures o.0 == Err(RuntimeFailure) <==> qr in w.state && w.state[qr].LegValue?
    ensures o.0 == Err(NotTheOwner) <==> qr in w.state && w.state[qr].BasilValue? && !OwnedBy(w, qr, caller)
    ensures o.0.Ok? <==> OwnedBy(w, qr, caller)
    ensures o.0.Err? ==> o.1 == w
    ensures o.0.Ok? ==> o.0.value == Transferred
    ensures o.0.Ok? ==> o.1.state == w.state[qr := BasilValue(w.state[qr].basil.(owner := newOwner))]
    ensures o.0.Ok? ==> o.1.HistoryOf(qr) == w.HistoryOf(qr) + [Write(o.1.state[qr])]
    ensures o.0.Ok? ==> AgreeOutside(o.1.history, w.history, {qr})
  {
    if qr !in w.state then (Err(BasilNotFound), w)
    else match w.state[qr]
      case LegValue(_) => (Err(RuntimeFailure), w)
      case BasilValue(basil) =>
        if basil.owner != caller then (Err(NotTheOwner), w)
        else (Ok(Transferred), w.Put(qr, BasilValue(basil.(owner := newOwner))))
  }

  /** The platform's commit: the ledger after a successful transaction, the ledger before
      it when the transaction failed. */
  function Commit(w: World, o: Outcome): Outcome
  {
    if o.0.Ok? then o else (o.0, w)
  }
}
