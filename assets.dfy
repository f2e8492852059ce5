/** The asset record of Basil.java: a tracked plant keyed by its QR code. */
module Assets {

  /** The stored form of an asset: the fields a serialised Basil carries. */
  datatype BasilRecord = BasilRecord(qr: string, extraInfo: string, owner: string, basilLeg: string)

  /** The comparison Basil.equals makes between two distinct objects: qr, extraInfo and owner. */
  predicate SameBasil(a: BasilRecord, b: BasilRecord)
  {
    (a.qr, a.extraInfo, a.owner) == (b.qr, b.extraInfo, b.owner)
  }

  /** The comparison is an equivalence, and it ignores exactly the leg reference. */
  lemma SameBasilIgnoresLeg(a: BasilRecord, b: BasilRecord, c: BasilRecord)
    ensures SameBasil(a, a)
    ensures SameBasil(a, b) ==> SameBasil(b, a)
    ensures SameBasil(a, b) && SameBasil(b, c) ==> SameBasil(a, c)
    ensures SameBasil(a, b) <==> a.(basilLeg := b.basilLeg) == b
  {
  }

  /** The Java Basil object. `qr` and `extraInfo` have no setters, so they are constants. */
  class Basil {
    const qr: string
    const extraInfo: string
    var owner: string
    var basilLeg: string

    /** Stores the four fields as passed. */
    constructor (qr: string, extraInfo: string, owner: string, basilLeg: string)
      ensures Value() == BasilRecord(qr, extraInfo, owner, basilLeg)
    {
      this.qr := qr;
      this.extraInfo := extraInfo;
      this.owner := owner;
      this.basilLeg := basilLeg;
    }

    /** The record this object serialises to. */
    function Value(): BasilRecord
      reads this
    {
      BasilRecord(qr, extraInfo, owner, basilLeg)
    }

    /** Changes the owner and nothing else. */
    method SetOwner(owner: string)
      modifies this`owner
      ensures Value() == old(Value()).(owner := owner)
    {
      this.owner := owner;
    }

    /** Changes the leg reference and nothing else. */
    method SetBasilLeg(basilLeg: string)
      modifies this`basilLeg
      ensures Value() == old(Value()).(basilLeg := basilLeg)
    {
      this.basilLeg := basilLeg;
    }

    /** Basil.equals: the same object, or a Basil with the same qr, extraInfo and owner. */
    predicate Equals(obj: object?)
      reads this, obj
      ensures obj == this ==> Equals(obj)
      ensures !(obj is Basil) ==> !Equals(obj)
      ensures obj is Basil ==> (Equals(obj) <==> SameBasil(Value(), (obj as Basil).Value()))
    {
      obj is Basil && (obj == this || SameBasil(Value(), (obj as Basil).Value()))
    }
  }
}
