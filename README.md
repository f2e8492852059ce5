# Basil provenance chaincode, modelled in Dafny

The model covers the Hyperledger Fabric chaincode `BasilContract` and the two records it stores.
The contract tracks a plant ("basil") by its QR code: who owns it, and the leg (a timestamped
GPS position) it was last seen at. Assets and legs share one flat string-keyed ledger. An asset
lives under its `qr`. A leg lives under `"BasilLeg: " + timestamp`. There are six transactions:
`CreateTracking`, `StopTracking`, `UpdateTracking`, `GetActualTracking`, `GetHistory` and
`TransferTracking`. Every mutating one except creation checks that the calling organisation
is the stored owner.

Layout:

- `decimal.dfy` (`Decimal`): Java's decimal rendering of a `long`, with proofs that it is injective.
- `legs.dfy` (`Legs`): the leg key, the stored leg record, the `BasilLeg` class (its setters and
  `equals`), and the finding about `equals`.
- `assets.dfy` (`Assets`): the stored asset record and the `Basil` class (its setters and `equals`).
- `ledger.dfy` (`Ledger`): the platform side. `World` is a value: the state (key to stored record)
  plus each key's history. `Stub` is the store a transaction changes in place, with
  `getStringState`, `putStringState`, `delState` and `getHistoryForKey`.
- `transitions.dfy` (`Transitions`): each transaction as a pure function from the ledger before the
  call to its result and the ledger after it. Writes made before a failure stay in the result
  (the "literal" reading). `Commit` adds the platform's rule that a failed transaction's writes
  are discarded (the "atomic" reading).
- `contract.dfy` (`BasilContract`): the transactions step by step against the stub, in the source's
  order of reads, writes and deletes. Each one is proved equal to its pure function.
  `SubmitUpdateTracking` is `UpdateTracking` under the platform's commit.
- `properties.dfy` (`Properties`): the invariant "every asset points at its own leg". The lemmas
  say when the transactions preserve it and how the leg-key collisions the code allows break it.
  They also cover a create, read and stop sequence on the code "QR1", and the history a create,
  an update and a transfer leave behind.

Inputs from the platform are parameters: the caller's MSP id is `caller` and the transaction's
epoch second is `now`. The history query reads the `history` field that every put and delete
appends to.

Errors: the contract's three kinds are `BasilNotFound`, `BasilAlreadyExists` and `NotTheOwner`.
A fourth kind, `RuntimeFailure`, stands for failures the Java runtime raises rather than the
contract:
- A code whose stored record is a leg cannot be read as a `Basil`. In the model this fails;
  in the source the deserialised asset has no owner, and the owner check dereferences it.
- `GetActualTracking` fails when the asset's leg key holds nothing. The platform returns an
  empty value for an absent key, so at `BasilContract.java:145` the JSON library is handed
  empty text, which the model takes to be rejected (see "## Left out").

Facts about the code that the model keeps:
- The leg key prefix is `"BasilLeg: "`.
- `GetActualTracking` does not check that the leg exists; it has no "not found" error for it.
- Nothing prevents a code from colliding with a leg key.
- Legs have setters, although the contract never calls them.

## Model

| member | source | states |
|---|---|---|
| `Decimal.NatToString` | chaincode/src/main/java/org/hyperledger/fabric/samples/BasilLeg.java:52 | the rendering of a timestamp is a non-empty string of decimal digits, one digit long exactly below 10 |
| `Decimal.IntToString` | chaincode/src/main/java/org/hyperledger/fabric/samples/BasilLeg.java:52 | a negative `long` is rendered with a leading '-', a non-negative one without |
| `Decimal.NatToStringInjective` | chaincode/src/main/java/org/hyperledger/fabric/samples/BasilLeg.java:52 | different natural numbers never render to the same digits |
| `Decimal.IntToStringInjective` | chaincode/src/main/java/org/hyperledger/fabric/samples/BasilLeg.java:52 | two integers render the same exactly when they are equal |
| `Legs.LegKey` | chaincode/src/main/java/org/hyperledger/fabric/samples/BasilLeg.java:52 | a leg key is the prefix `"BasilLeg: "` followed by more text |
| `Legs.LegKeyInjective` | chaincode/src/main/java/org/hyperledger/fabric/samples/BasilLeg.java:52 | two timestamps give the same leg key exactly when they are equal |
| `Legs.NewLeg` | chaincode/src/main/java/org/hyperledger/fabric/samples/BasilLeg.java:50-56 | a new leg's id is the key of its timestamp; timestamp, position and plant are stored as passed |
| `Legs.SameSecondSameId` | chaincode/src/main/java/org/hyperledger/fabric/samples/BasilLeg.java:52 | legs created in the same second share their id whatever plant or position they carry, yet are different records when their plants differ |
| `Legs.LegMatchesAsWrittenRejectsCopies` | chaincode/src/main/java/org/hyperledger/fabric/samples/BasilLeg.java:68-72 | as written, equals accepts a field-for-field copy exactly when its position equals its plant |
| `Legs.LegMatchesAsWrittenNotSymmetric` | chaincode/src/main/java/org/hyperledger/fabric/samples/BasilLeg.java:68-72 | as written, equals is not symmetric: a pair of legs where one accepts the other but not back |
| `Legs.LegMatchesIsEquivalence` | chaincode/src/main/java/org/hyperledger/fabric/samples/BasilLeg.java:68-72 | the intended comparison, every field against the same field, is reflexive, symmetric and transitive, and holds exactly when the two leg records are equal |
| `Legs.BasilLeg.constructor` | chaincode/src/main/java/org/hyperledger/fabric/samples/BasilLeg.java:50-56 | the constructed object serialises to the new leg: derived id, other fields as passed |
| `Legs.BasilLeg.SetTimestamp` | chaincode/src/main/java/org/hyperledger/fabric/samples/BasilLeg.java:42-44 | changes only the timestamp; an id that named the old timestamp names the new one only if the timestamp did not change |
| `Legs.BasilLeg.SetGpsPosition` | chaincode/src/main/java/org/hyperledger/fabric/samples/BasilLeg.java:46-48 | changes only the position; id and plant are constants |
| `Legs.BasilLeg.Equals` | chaincode/src/main/java/org/hyperledger/fabric/samples/BasilLeg.java:58-74 | true for the same object, false for null or an object of another class, otherwise the as-written comparison |
| `Assets.SameBasilIgnoresLeg` | chaincode/src/main/java/org/hyperledger/fabric/samples/Basil.java:69-73 | the asset comparison is an equivalence, and two assets compare equal exactly when they differ at most in the leg reference |
| `Assets.Basil.constructor` | chaincode/src/main/java/org/hyperledger/fabric/samples/Basil.java:51-57 | qr, extraInfo, owner and basilLeg are stored as passed; qr and extraInfo are constants |
| `Assets.Basil.SetOwner` | chaincode/src/main/java/org/hyperledger/fabric/samples/Basil.java:37-39 | changes the owner and nothing else |
| `Assets.Basil.SetBasilLeg` | chaincode/src/main/java/org/hyperledger/fabric/samples/Basil.java:46-48 | changes the leg reference and nothing else |
| `Assets.Basil.Equals` | chaincode/src/main/java/org/hyperledger/fabric/samples/Basil.java:59-75 | true for the same object, false for null or an object of another class, otherwise qr, extraInfo and owner compared |
| `Ledger.World.Put` | chaincode/src/main/java/org/hyperledger/fabric/samples/BasilContract.java:56 | the key holds the value afterwards, its history gains one write, every other key is untouched |
| `Ledger.World.Del` | chaincode/src/main/java/org/hyperledger/fabric/samples/BasilContract.java:91-92 | the key is absent afterwards, its history gains one deletion, every other key is untouched |
| `Ledger.Stub.GetStringState` | chaincode/src/main/java/org/hyperledger/fabric/samples/BasilContract.java:210 | a value is returned exactly when one is stored, and it is the stored one |
| `Ledger.Stub.GetHistoryForKey` | chaincode/src/main/java/org/hyperledger/fabric/samples/BasilContract.java:167 | the key's history as the platform keeps it |
| `Ledger.Stub.PutStringState` | chaincode/src/main/java/org/hyperledger/fabric/samples/BasilContract.java:65 | the store afterwards is the ledger's put of the value |
| `Ledger.Stub.DelState` | chaincode/src/main/java/org/hyperledger/fabric/samples/BasilContract.java:111 | the store afterwards is the ledger's delete of the key |
| `BasilContract.CheckIfExists` | chaincode/src/main/java/org/hyperledger/fabric/samples/BasilContract.java:208-213 | true exactly when some record, asset or leg alike, is stored under the key |
| `BasilContract.Deserialize` | chaincode/src/main/java/org/hyperledger/fabric/samples/BasilContract.java:82-83 | a stored asset becomes a new Basil object with the same fields; a stored leg yields no usable Basil |
| `Transitions.CreateTracking` | chaincode/src/main/java/org/hyperledger/fabric/samples/BasilContract.java:39-68 | fails `BasilAlreadyExists` with nothing written exactly when the code exists; otherwise adds exactly the code and the leg key; the asset has the caller as owner and points at the leg key; the leg carries the position and the code; the leg key's history gains the leg write and the code's the asset write, and no other key's history changes |
| `Transitions.StopTracking` | chaincode/src/main/java/org/hyperledger/fabric/samples/BasilContract.java:70-94 | fails `BasilNotFound` when absent, `NotTheOwner` when the caller is not the owner, with the ledger unchanged; on success removes exactly the code and its current leg key, each of whose histories gains one deletion per delete that hit it, and no other key's history changes |
| `Transitions.UpdateTracking` | chaincode/src/main/java/org/hyperledger/fabric/samples/BasilContract.java:96-127 | fails `BasilNotFound` when absent with nothing changed; a `NotTheOwner` failure has already removed the current leg and nothing else; on success the asset points at the new leg key with qr, extraInfo and owner kept, the new leg carries the position, the old leg key is gone unless it is the new one, nothing else changes; the three touched keys' histories gain exactly the delete and two writes that hit them, in order, and no other history changes; a `NotTheOwner` failure adds exactly one deletion to the old leg's history |
| `Transitions.GetActualTracking` | chaincode/src/main/java/org/hyperledger/fabric/samples/BasilContract.java:130-152 | fails `BasilNotFound` exactly when the code is absent; succeeds exactly when an asset is stored there and its leg key holds a record; returns that asset and that record |
| `Transitions.GetHistory` | chaincode/src/main/java/org/hyperledger/fabric/samples/BasilContract.java:154-177 | fails `BasilNotFound` exactly when the code is absent; otherwise returns the code's history |
| `Transitions.TransferTracking` | chaincode/src/main/java/org/hyperledger/fabric/samples/BasilContract.java:180-205 | fails `BasilNotFound` or `NotTheOwner` with the ledger unchanged; on success only the owner of the asset changes, to the new owner, and the code's history gains the new asset, no other history changing |
| `BasilContract.CreateTracking` | chaincode/src/main/java/org/hyperledger/fabric/samples/BasilContract.java:39-68 | the step-by-step transaction yields the result and the ledger of `Transitions.CreateTracking` |
| `BasilContract.StopTracking` | chaincode/src/main/java/org/hyperledger/fabric/samples/BasilContract.java:70-94 | the step-by-step transaction yields the result and the ledger of `Transitions.StopTracking` |
| `BasilContract.UpdateTracking` | chaincode/src/main/java/org/hyperledger/fabric/samples/BasilContract.java:96-127 | the step-by-step transaction, deleting before the owner check, yields the literal result and ledger of `Transitions.UpdateTracking` |
| `BasilContract.SubmitUpdateTracking` | chaincode/src/main/java/org/hyperledger/fabric/samples/BasilContract.java:96-127 | the same transaction under the platform's commit: a failure leaves the store as it was |
| `BasilContract.GetActualTracking` | chaincode/src/main/java/org/hyperledger/fabric/samples/BasilContract.java:130-152 | reads only, and returns what `Transitions.GetActualTracking` specifies |
| `BasilContract.GetHistory` | chaincode/src/main/java/org/hyperledger/fabric/samples/BasilContract.java:154-177 | reads only; the loop copies every history entry in delivered order, one entry per item |
| `BasilContract.TransferTracking` | chaincode/src/main/java/org/hyperledger/fabric/samples/BasilContract.java:180-205 | the step-by-step transaction yields the result and the ledger of `Transitions.TransferTracking` |
| `Properties.EmptyLedgerIsConsistent` | chaincode/src/main/java/org/hyperledger/fabric/samples/BasilContract.java:39-68 | the empty ledger satisfies the asset-leg link invariant |
| `Properties.ActualTrackingResolves` | chaincode/src/main/java/org/hyperledger/fabric/samples/BasilContract.java:141-149 | on a consistent ledger every asset resolves to a leg whose id is its leg key and whose plant is its code |
| `Properties.CreatePreservesConsistent` | chaincode/src/main/java/org/hyperledger/fabric/samples/BasilContract.java:49-65 | creation keeps the invariant when the clock gives an unused leg key and the code is not that key |
| `Properties.StopPreservesConsistent` | chaincode/src/main/java/org/hyperledger/fabric/samples/BasilContract.java:91-92 | stopping keeps the invariant |
| `Properties.TransferPreservesConsistent` | chaincode/src/main/java/org/hyperledger/fabric/samples/BasilContract.java:200-202 | transferring keeps the invariant |
| `Properties.UpdatePreservesConsistent` | chaincode/src/main/java/org/hyperledger/fabric/samples/BasilContract.java:111-124 | an owner's update keeps the invariant when the new leg key is unused or is the asset's own current one |
| `Properties.SubmittedUpdatePreservesConsistent` | chaincode/src/main/java/org/hyperledger/fabric/samples/BasilContract.java:111-116 | under the platform's commit every update, failed or not, keeps the invariant |
| `Properties.LiteralUpdateByNonOwnerLeavesDanglingLeg` | chaincode/src/main/java/org/hyperledger/fabric/samples/BasilContract.java:111-116 | literally, a non-owner's update fails `NotTheOwner` with the asset unchanged but its leg gone, so the asset no longer resolves and the invariant is broken |
| `Properties.DelIsVisible` | chaincode/src/main/java/org/hyperledger/fabric/samples/BasilContract.java:111 | a deletion always changes the ledger, at least its history |
| `Properties.LiteralDiffersFromCommittedOnlyInUpdate` | chaincode/src/main/java/org/hyperledger/fabric/samples/BasilContract.java:111-116 | the literal and the committed readings agree for create, stop and transfer; for update they differ exactly on `NotTheOwner` |
| `Properties.CreateThenCreateFails` | chaincode/src/main/java/org/hyperledger/fabric/samples/BasilContract.java:43-47 | a new code is created and then exists; a second creation fails `BasilAlreadyExists` and writes nothing |
| `Properties.CreateOnLegKeyFails` | chaincode/src/main/java/org/hyperledger/fabric/samples/BasilContract.java:208-213 | a code spelled like a stored leg key fails creation with `BasilAlreadyExists` |
| `Properties.CreateOnOwnLegKeyPointsAtItself` | chaincode/src/main/java/org/hyperledger/fabric/samples/BasilContract.java:51-65 | a code equal to the new leg key replaces that leg with the asset, which then resolves to itself |
| `Properties.SameSecondCreatesShareLeg` | chaincode/src/main/java/org/hyperledger/fabric/samples/BasilContract.java:51-56 | a second creation in the same second replaces the first asset's leg; stopping the second asset leaves the first without a leg |
| `Properties.UpdateMovesLeg` | chaincode/src/main/java/org/hyperledger/fabric/samples/BasilContract.java:108-124 | after an owner's update the old leg is gone and the asset resolves to the new leg at the given position |
| `Properties.TransferHandsOver` | chaincode/src/main/java/org/hyperledger/fabric/samples/BasilContract.java:195-202 | after a transfer the old owner's stop fails `NotTheOwner` and the new owner's succeeds; the leg reference is kept |
| `Properties.TransferToSelfKeepsState` | chaincode/src/main/java/org/hyperledger/fabric/samples/BasilContract.java:195-202 | a transfer to the current owner succeeds and leaves the state as it was |
| `Properties.HistoryOfCreateUpdateTransfer` | chaincode/src/main/java/org/hyperledger/fabric/samples/BasilContract.java:165-175 | create, update and transfer add exactly three asset entries to the code's history, in that order |
| `Properties.LegKeyIsNotQr1` | chaincode/src/main/java/org/hyperledger/fabric/samples/BasilLeg.java:52 | no leg key equals the code "QR1" |
| `Properties.Qr1Scenario` | chaincode/src/main/java/org/hyperledger/fabric/samples/BasilContract.java:39-152 | create "QR1", read its asset and leg, stop it, and the read fails `BasilNotFound` |

## Left out

- JSON serialisation: records are stored as datatypes, not as text.
  - A serialised record is never empty, so the "non-null, non-empty" existence check is presence in the map.
  - `GetHistory` returns the history entries themselves, not their text.
  - `GetActualTracking` returns the two records, not `toString()` of a map.
- GetActualTracking: a missing leg is modelled as a `RuntimeFailure`, on the assumption that the JSON library rejects the empty text the platform returns for an absent key. If the library returned null instead, the source would succeed with no leg. `Properties.LiteralUpdateByNonOwnerLeavesDanglingLeg` and `Properties.SameSecondCreatesShareLeg` rest on that assumption where they say the asset no longer resolves.
- The JSON library's behaviour on a record of the wrong kind is modelled only coarsely. Reading a leg as an asset is a `RuntimeFailure`. An asset stored under a leg key is returned as stored. The library would instead build a leg with default fields.
- Null arguments and null fields, for example `other.getOwner().toString()` in `Basil.equals`: Dafny strings are never null.
- History granularity: every put and delete appends one entry. The platform records one entry per key per committed transaction, so a delete followed by a put on one key in one transaction shows as one entry there.
- The platform's isolation, endorsement and ordering. No transaction reads a key after writing it, so read-your-writes does not arise.
- The committed reading is written out as a method (`SubmitUpdateTracking`) only for `UpdateTracking`. For the other transactions, `Properties.LiteralDiffersFromCommittedOnlyInUpdate` proves the two readings equal.
- Getters are field reads. `hashCode`, `toString` and the console logging are foreign hashing and text output.
- `Owner.java` is not part of this model: nothing in the contract uses it.
- The client application `App.java` is not part of this model: it only does network set-up and a console menu.
- The caller's certificate handling and the transaction clock: they are the parameters `caller` and `now`.

## Findings

| source | as written | input that shows it | evidently intended | confidence | as-written member | corrected member |
|---|---|---|---|---|---|---|
| chaincode/src/main/java/org/hyperledger/fabric/samples/BasilLeg.java:70-72 | `equals` compares this leg's `gpsPosition` with the other's `basil` | legs with id "BasilLeg: 1" and timestamp 1: x has position "45.0,9.0" and plant "QR1"; y has position "46.1,8.9" and plant "45.0,9.0". x equals y but y does not equal x, and a copy of x does not equal x | compare all four fields, `id`, `timestamp`, `gpsPosition` and `basil`, each with the same field of the other leg, the fields `hashCode` at line 79 combines; that is, record equality | high, not executed | `Legs.LegMatchesAsWrittenNotSymmetric` | `Legs.LegMatchesIsEquivalence` |
