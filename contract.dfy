/** The transactions of BasilContract.java, step by step against the platform's stub.
    The contract object holds no state of its own, so each transaction is a method taking
    the stub; the caller's organisation and the transaction's clock are parameters. */
module BasilContract {
  import opened Assets
  import opened Legs
  import opened Ledger
  import opened Transitions

  /** checkIfExists: some record, asset or leg alike, is stored under `id`. A serialised
      record is never the empty text, so "non-null and non-empty" is presence. */
  function CheckIfExists(stub: Stub, id: string): (b: bool)
    reads stub
    ensures b <==> id in stub.state
  {
    stub.GetStringState(id).Some?
  }

  /** Deserialising a stored value into a Basil object; a stored leg yields no usable Basil
      (null), which makes the next use of it fail. */
  method Deserialize(v: Value) returns (basil: Basil?)
    ensures basil != null <==> v.BasilValue?
    ensures basil != null ==> fresh(basil) && basil.Value() == v.basil
  {
    if v.LegValue? {
      return null;
    }
    basil := new Basil(v.basil.qr, v.basil.extraInfo, v.basil.owner, v.basil.basilLeg);
  }

  method CreateTracking(stub: Stub, qr: string, extraInfo: string, gpsPosition: string,
                        caller: string, now: int64) returns (r: Result<string>)
    modifies stub
    ensures (r, stub.Contents()) == Transitions.CreateTracking(old(stub.Contents()), qr, extraInfo, gpsPosition, caller, now)
  {
    if CheckIfExists(stub, qr) {
      return Err(BasilAlreadyExists);
    }
    var submittingOrg := caller;
    var basilLeg := new BasilLeg(now, gpsPosition, qr);
    stub.PutStringState(basilLeg.id, LegValue(basilLeg.Value()));
    var newBasil := new Basil(qr, extraInfo, submittingOrg, basilLeg.id);
    stub.PutStringState(qr, BasilValue(newBasil.Value()));
    return Ok(Created);
  }

  method StopTracking(stub: Stub, qr: string, caller: string) returns (r: Result<string>)
    modifies stub
    ensures (r, stub.Contents()) == Transitions.StopTracking(old(stub.Contents()), qr, caller)
  {
    if !CheckIfExists(stub, qr) {
      return Err(BasilNotFound);
    }
    var submittingOrg := caller;
    var basil := Deserialize(stub.GetStringState(qr).value);
    if basil == null {
      return Err(RuntimeFailure);
    }
    if basil.owner != submittingOrg {
      return Err(NotTheOwner);
    }
    stub.DelState(qr);
    stub.DelState(basil.basilLeg);
    return Ok(Deleted);
  }

  /** As written: the current leg is deleted before the owner check. */
  method UpdateTracking(stub: Stub, qr: string, gpsPosition: string, caller: string, now: int64)
    returns (r: Result<string>)
    modifies stub
    ensures (r, stub.Contents()) == Transitions.UpdateTracking(old(stub.Contents()), qr, gpsPosition, caller, now)
  {
    if !CheckIfExists(stub, qr) {
      return Err(BasilNotFound);
    }
    var submittingOrg := caller;
    var basil := Deserialize(stub.GetStringState(qr).value);
    if basil == null {
      return Err(RuntimeFailure);
    }
    stub.DelState(basil.basilLeg);
    if basil.owner != submittingOrg {
      return Err(NotTheOwner);
    }
    var basilLeg := new BasilLeg(now, gpsPosition, basil.qr);
    basil.SetBasilLeg(basilLeg.id);
    stub.PutStringState(basil.qr, BasilValue(basil.Value()));
    stub.PutStringState(basilLeg.id, LegValue(basilLeg.Value()));
    return Ok(Updated);
  }

  /** UpdateTracking run as the platform runs a transaction: a failure discards its writes. */
  method SubmitUpdateTracking(stub: Stub, qr: string, gpsPosition: string, caller: string, now: int64)
    returns (r: Result<string>)
    modifies stub
    ensures (r, stub.Contents()) == Commit(old(stub.Contents()), Transitions.UpdateTracking(old(stub.Contents()), qr, gpsPosition, caller, now))
  {
    var before := stub.Contents();
    r := UpdateTracking(stub, qr, gpsPosition, caller, now);
    if r.Err? {
      stub.Discard(before);
    }
  }

  /** Read-only: the asset under `qr` and the record under its leg key. */
  method GetActualTracking(stub: Stub, qr: string) returns (r: Result<Snapshot>)
    ensures r == Transitions.GetActualTracking(stub.Contents(), qr)
  {
    var basilJson := stub.GetStringState(qr);
    if basilJson.None? {
      return Err(BasilNotFound);
    }
    var basil := Deserialize(basilJson.value);
    if basil == null {
      return Err(RuntimeFailure);
    }
    var basilLegJson := stub.GetStringState(basil.basilLeg);
    if basilLegJson.None? {
      return Err(RuntimeFailure);
    }
    return Ok(Snapshot(basil.Value(), basilLegJson.value));
  }

  /** Read-only: every history entry of `qr`, copied in the order the platform delivers them. */
  method GetHistory(stub: Stub, qr: string) returns (r: Result<seq<Entry>>)
    ensures r == Transitions.GetHistory(stub.Contents(), qr)
  {
    var basilJson := stub.GetStringState(qr);
    if basilJson.None? {
      return Err(BasilNotFound);
    }
    var historyForKey := stub.GetHistoryForKey(qr);
    var result: seq<Entry> := [];
    var i := 0;
    while i < |historyForKey|
      invariant 0 <= i <= |historyForKey|
      invariant result == historyForKey[..i]
    {
      result := result + [historyForKey[i]];
      i := i + 1;
    }
    assert historyForKey[..i] == historyForKey;
    return Ok(result);
  }

  method TransferTracking(stub: Stub, qr: string, newOwner: string, caller: string) returns (r: Result<string>)
    modifies stub
    ensures (r, stub.Contents()) == Transitions.TransferTracking(old(stub.Contents()), qr, newOwner, caller)
  {
    if !CheckIfExists(stub, qr) {
      return Err(BasilNotFound);
    }
    var submittingOrg := caller;
    var basil := Deserialize(stub.GetStringState(qr).value);
    if basil == null {
      return Err(RuntimeFailure);
    }
    if basil.owner != submittingOrg {
      return Err(NotTheOwner);
    }
    basil.SetOwner(newOwner);
    stub.PutStringState(qr, BasilValue(basil.Value()));
    return Ok(Transferred);
  }
}
