/** The ledger the contract runs against: one flat string-keyed store shared by assets
    and legs, and the per-key history of what was written. */
module Ledger {
  import opened Assets
  import opened Legs

  datatype Option<T> = None | Some(value: T)

  /** What is stored under a key: a serialised Basil or a serialised BasilLeg. */
  datatype Value = BasilValue(basil: BasilRecord) | LegValue(leg: LegRecord)

  /** One entry of a key's history: a write of a value, or a deletion. */
  datatype Entry = Write(value: Value) | Delete

  /** The two maps agree on every key outside `keys`. */
  predicate AgreeOutside<V(==)>(m1: map<string, V>, m2: map<string, V>, keys: set<string>)
  {
    m1 - keys == m2 - keys
  }

  /** Agreement outside two sets of keys composes into agreement outside their union. */
  lemma AgreeOutsideCompose<V>(m1: map<string, V>, m2: map<string, V>, m3: map<string, V>,
                                  keys1: set<string>, keys2: set<string>)
    requires AgreeOutside(m2, m1, keys1) && AgreeOutside(m3, m2, keys2)
    ensures AgreeOutside(m3, m1, keys1 + keys2)
  {
    assert m3 - (keys1 + keys2) == (m3 - keys2) - keys1;
    assert m1 - (keys1 + keys2) == (m1 - keys1) - keys2;
    assert m2 - (keys1 + keys2) == (m2 - keys2) - keys1 == (m2 - keys1) - keys2;
  }

  /** The one-entry sequence `[e]` when `k` is `key`, and nothing otherwise: what a write of
      `e` under `key` adds to the history of `k`. */
  function EntryAt(k: string, key: string, e: Entry): seq<Entry>
  {
    if k == key then [e] else []
  }

  /** A snapshot of the ledger: the current state and every key's history, oldest first. */
  datatype World = World(state: map<string, Value>, history: map<string, seq<Entry>>) {

    /** The history query: everything written under `key`, oldest first. */
    function HistoryOf(key: string): seq<Entry>
    {
      if key in history then history[key] else []
    }

    /** putStringState: `key` now holds `v`; its history gains one write; nothing else changes. */
    function Put(key: string, v: Value): (w: World)
      ensures key in w.state && w.state[key] == v
      ensures AgreeOutside(w.state, state, {key})
      ensures w.HistoryOf(key) == HistoryOf(key) + [Write(v)]
      ensures AgreeOutside(w.history, history, {key})
    {
      World(state[key := v], history[key := HistoryOf(key) + [Write(v)]])
    }

    /** delState: `key` is absent afterwards; its history gains one deletion; nothing else changes. */
    function Del(key: string): (w: World)
      ensures key !in w.state
      ensures AgreeOutside(w.state, state, {key})
      ensures w.HistoryOf(key) == HistoryOf(key) + [Delete]
      ensures AgreeOutside(w.history, history, {key})
    {
      World(state - {key}, history[key := HistoryOf(key) + [Delete]])
    }
  }

  /** What a put adds to the history of any key `k`. */
  lemma PutHistory(w: World, key: string, v: Value, k: string)
    ensures w.Put(key, v).HistoryOf(k) == w.HistoryOf(k) + EntryAt(k, key, Write(v))
  {
  }

  /** What a delete adds to the history of any key `k`. */
  lemma DelHistory(w: World, key: string, k: string)
    ensures w.Del(key).HistoryOf(k) == w.HistoryOf(k) + EntryAt(k, key, Delete)
  {
  }

  /** Two puts, as a creation performs them: the keys and values left behind, what each
      written key's history gains, and that no other key changes. */
  lemma PutPut(w: World, k1: string, v1: Value, k2: string, v2: Value)
    ensures var w' := w.Put(k1, v1).Put(k2, v2);
      && w'.state.Keys == w.state.Keys + {k1, k2}
      && w'.state[k2] == v2
      && (k1 != k2 ==> w'.state[k1] == v1)
      && AgreeOutside(w'.state, w.state, {k1, k2})
      && AgreeOutside(w'.history, w.history, {k1, k2})
      && w'.HistoryOf(k1) == w.HistoryOf(k1) + [Write(v1)] + EntryAt(k1, k2, Write(v2))
      && w'.HistoryOf(k2) == w.HistoryOf(k2) + EntryAt(k2, k1, Write(v1)) + [Write(v2)]
  {
    var w1 := w.Put(k1, v1);
    AgreeOutsideCompose(w.state, w1.state, w1.Put(k2, v2).state, {k1}, {k2});
    AgreeOutsideCompose(w.history, w1.history, w1.Put(k2, v2).history, {k1}, {k2});
    PutHistory(w, k1, v1, k1);
    PutHistory(w, k1, v1, k2);
    PutHistory(w1, k2, v2, k1);
    PutHistory(w1, k2, v2, k2);
  }

  /** A delete followed by two puts, as an update performs them: the keys and values
      left behind, and that no other key's value changes. */
  lemma DelPutPut(w: World, k1: string, k2: string, v2: Value, k3: string, v3: Value)
    ensures var w' := w.Del(k1).Put(k2, v2).Put(k3, v3);
      && w'.state.Keys == w.state.Keys - {k1} + {k2, k3}
      && w'.state[k3] == v3
      && (k2 != k3 ==> w'.state[k2] == v2)
      && AgreeOutside(w'.state, w.state, {k1, k2, k3})
  {
    var w2 := w.Del(k1).Put(k2, v2);
    AgreeOutsideCompose(w.state, w.Del(k1).state, w2.state, {k1}, {k2});
    AgreeOutsideCompose(w.state, w2.state, w2.Put(k3, v3).state, {k1} + {k2}, {k3});
    assert {k1} + {k2} + {k3} == {k1, k2, k3};
  }

  /** No key's history changes under a delete followed by two puts but the three's. */
  lemma DelPutPutHistoryElsewhere(w: World, k1: string, k2: string, v2: Value, k3: string, v3: Value)
    ensures AgreeOutside(w.Del(k1).Put(k2, v2).Put(k3, v3).history, w.history, {k1, k2, k3})
  {
    var w2 := w.Del(k1).Put(k2, v2);
    AgreeOutsideCompose(w.history, w.Del(k1).history, w2.history, {k1}, {k2});
    AgreeOutsideCompose(w.history, w2.history, w2.Put(k3, v3).history, {k1} + {k2}, {k3});
    assert {k1} + {k2} + {k3} == {k1, k2, k3};
  }

  /** What the history of any key gains from a delete followed by two puts: one entry
      for each of the three operations that touched that key, in order. */
  lemma DelPutPutHistory(w: World, k1: string, k2: string, v2: Value, k3: string, v3: Value, k: string)
    ensures w.Del(k1).Put(k2, v2).Put(k3, v3).HistoryOf(k)
         == w.HistoryOf(k) + EntryAt(k, k1, Delete) + EntryAt(k, k2, Write(v2)) + EntryAt(k, k3, Write(v3))
  {
    var w1 := w.Del(k1);
    var w2 := w1.Put(k2, v2);
    DelHistory(w, k1, k);
    PutHistory(w1, k2, v2, k);
    PutHistory(w2, k3, v3, k);
  }

  /** The platform's stub: the store a transaction reads and writes in place. */
  class Stub {
    var state: map<string, Value>
    var history: map<string, seq<Entry>>

    /** The ledger as the platform hands it to a transaction. */
    constructor (w: World)
      ensures Contents() == w
    {
      state := w.state;
      history := w.history;
    }

    /** The current content of the store. */
    function Contents(): World
      reads this
    {
      World(state, history)
    }

    /** getStringState: the value under `key`, or None when nothing is stored there. */
    function GetStringState(key: string): (v: Option<Value>)
      reads this
      ensures v.Some? <==> key in state
      ensures v.Some? ==> v.value == state[key]
    {
      if key in state then Some(state[key]) else None
    }

    /** getHistoryForKey: the values written under `key`, oldest first. */
    function GetHistoryForKey(key: string): seq<Entry>
      reads this
    {
      Contents().HistoryOf(key)
    }

    method PutStringState(key: string, v: Value)
      modifies this
      ensures Contents() == old(Contents()).Put(key, v)
    {
      history := history[key := GetHistoryForKey(key) + [Write(v)]];
      state := state[key := v];
    }

    method DelState(key: string)
      modifies this
      ensures Contents() == old(Contents()).Del(key)
    {
      history := history[key := GetHistoryForKey(key) + [Delete]];
      state := state - {key};
    }

    /** The platform discarding a failed transaction's writes: the store returns to `w`. */
    method Discard(w: World)
      modifies this
      ensures Contents() == w
    {
      state := w.state;
      history := w.history;
    }
  }
}
