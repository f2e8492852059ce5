/** The leg record of BasilLeg.java: one timestamped position of a tracked plant. */
module Legs {
  import opened Decimal

  /** Java's `long`. */
  newtype int64 = x: int | -0x8000_0000_0000_0000 <= x < 0x8000_0000_0000_0000

  const LegPrefix: string := "BasilLeg: "

  /** The store key of the leg created at `timestamp`: the prefix followed by the decimal timestamp. */
  function LegKey(timestamp: int64): (k: string)
    ensures |k| > |LegPrefix| && k[..|LegPrefix|] == LegPrefix
  {
    LegPrefix + IntToString(timestamp as int)
  }

  /** Two legs get the same key exactly when they were created at the same second. */
  lemma LegKeyInjective(t1: int64, t2: int64)
    ensures LegKey(t1) == LegKey(t2) <==> t1 == t2
  {
    if LegKey(t1) == LegKey(t2) {
      assert IntToString(t1 as int) == LegKey(t1)[|LegPrefix|..] == LegKey(t2)[|LegPrefix|..] == IntToString(t2 as int);
      IntToStringInjective(t1 as int, t2 as int);
    }
  }

  /** The stored form of a leg: the fields a serialised BasilLeg carries. */
  datatype LegRecord = LegRecord(id: string, timestamp: int64, gpsPosition: string, basil: string)

  /** The leg a fresh BasilLeg object serialises to: its id is derived from the timestamp alone. */
  function NewLeg(timestamp: int64, gpsPosition: string, basil: string): (leg: LegRecord)
    ensures leg.id == LegKey(timestamp)
    ensures leg.timestamp == timestamp && leg.gpsPosition == gpsPosition && leg.basil == basil
  {
    LegRecord(LegKey(timestamp), timestamp, gpsPosition, basil)
  }

  /** Legs created in the same second share their id whatever plant and position they carry. */
  lemma SameSecondSameId(t: int64, g1: string, b1: string, g2: string, b2: string)
    ensures NewLeg(t, g1, b1).id == NewLeg(t, g2, b2).id
    ensures b1 != b2 ==> NewLeg(t, g1, b1) != NewLeg(t, g2, b2)
  {
  }

  /** The comparison BasilLeg.equals makes between two distinct objects, as written:
      this leg's (id, timestamp, gpsPosition) against the other's (id, timestamp, basil). */
  predicate LegMatchesAsWritten(a: LegRecord, b: LegRecord)
  {
    (a.id, a.timestamp, a.gpsPosition) == (b.id, b.timestamp, b.basil)
  }

  /** The comparison evidently intended: every field against the same field, the fields
      hashCode combines. */
  predicate LegMatches(a: LegRecord, b: LegRecord)
  {
    (a.id, a.timestamp, a.gpsPosition, a.basil) == (b.id, b.timestamp, b.gpsPosition, b.basil)
  }

  /** As written, a field-for-field copy matches only when its position equals its plant. */
  lemma LegMatchesAsWrittenRejectsCopies(a: LegRecord)
    ensures LegMatchesAsWritten(a, a) <==> a.gpsPosition == a.basil
  {
  }

  /** As written, the comparison is not symmetric: a leg x matches a leg y that does not match x. */
  lemma LegMatchesAsWrittenNotSymmetric()
    ensures exists x: LegRecord, y: LegRecord :: LegMatchesAsWritten(x, y) && !LegMatchesAsWritten(y, x)
  {
    var x := LegRecord("BasilLeg: 1", 1, "45.0,9.0", "QR1");
    var y := LegRecord("BasilLeg: 1", 1, "46.1,8.9", "45.0,9.0");
    assert y.gpsPosition[0] != x.basil[0];
    assert LegMatchesAsWritten(x, y) && !LegMatchesAsWritten(y, x);
  }

  /** The intended comparison is an equivalence, and it is equality of the stored records. */
  lemma LegMatchesIsEquivalence(a: LegRecord, b: LegRecord, c: LegRecord)
    ensures LegMatches(a, a)
    ensures LegMatches(a, b) ==> LegMatches(b, a)
    ensures LegMatches(a, b) && LegMatches(b, c) ==> LegMatches(a, c)
    ensures LegMatches(a, b) <==> a == b
  {
  }

  /** The Java BasilLeg object. `id` and `basil` have no setters, so they are constants. */
  class BasilLeg {
    const id: string
    var timestamp: int64
    var gpsPosition: string
    const basil: string

    /** The id is derived from the timestamp; the other fields are stored as passed. */
    constructor (timestamp: int64, gpsPosition: string, basil: string)
      ensures Value() == NewLeg(timestamp, gpsPosition, basil)
    {
      this.id := LegKey(timestamp);
      this.timestamp := timestamp;
      this.gpsPosition := gpsPosition;
      this.basil := basil;
    }

    /** The record this object serialises to. */
    function Value(): LegRecord
      reads this
    {
      LegRecord(id, timestamp, gpsPosition, basil)
    }

    /** Changes the timestamp without re-deriving the id, which then no longer names it. */
    method SetTimestamp(timestamp: int64)
      modifies this`timestamp
      ensures Value() == old(Value()).(timestamp := timestamp)
      ensures old(id == LegKey(this.timestamp)) ==> (id == LegKey(this.timestamp) <==> timestamp == old(this.timestamp))
    {
      LegKeyInjective(timestamp, this.timestamp);
      this.timestamp := timestamp;
    }

    /** Changes the position and nothing else. */
    method SetGpsPosition(gpsPosition: string)
      modifies this`gpsPosition
      ensures Value() == old(Value()).(gpsPosition := gpsPosition)
    {
      this.gpsPosition := gpsPosition;
    }

    /** BasilLeg.equals as written: the same object, or a BasilLeg whose (id, timestamp, basil)
        equals this one's (id, timestamp, gpsPosition). */
    predicate Equals(obj: object?)
      reads this, obj
      ensures obj == this ==> Equals(obj)
      ensures !(obj is BasilLeg) ==> !Equals(obj)
      ensures obj is BasilLeg && obj != this ==> (Equals(obj) <==> LegMatchesAsWritten(Value(), (obj as BasilLeg).Value()))
    {
      obj is BasilLeg && (obj == this || LegMatchesAsWritten(Value(), (obj as BasilLeg).Value()))
    }
  }
}
