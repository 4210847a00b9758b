/** The tenant's key-value store (the Askar wallet records the handlers read
    and write), as a map from record key to JSON value plus the log of every
    write in the order it happened. */
module Storage {
  import opened Json

  /** `store_data` inserts a record; `update_data` replaces one. */
  datatype WriteKind = Insert | Replace

  datatype Write = Write(kind: WriteKind, key: string, value: Value)

  /** The records after `writes` are made, in order, to `entries`. */
  function Applied(entries: map<string, Value>, writes: seq<Write>): map<string, Value>
  {
    if writes == [] then entries
    else
      var last := writes[|writes| - 1];
      Applied(entries, writes[..|writes| - 1])[last.key := last.value]
  }

  /** After the writes, the records are the old ones plus one for each key written. */
  lemma {:induction false} AppliedKeys(entries: map<string, Value>, writes: seq<Write>)
    ensures Applied(entries, writes).Keys == entries.Keys + set w | w in writes :: w.key
  {
    if writes != [] {
      var init := writes[..|writes| - 1];
      AppliedKeys(entries, init);
      assert writes == init + [writes[|writes| - 1]];
    }
  }

  /** One more write updates the records the earlier writes left. */
  lemma AppliedSnoc(entries: map<string, Value>, writes: seq<Write>, w: Write)
    ensures Applied(entries, writes + [w]) == Applied(entries, writes)[w.key := w.value]
  {
    assert (writes + [w])[..|writes|] == writes;
  }

  /** Writes that all go to one key leave that key holding the last value
      written and every other record as it was. */
  lemma {:induction false} AppliedToOneKey(entries: map<string, Value>, writes: seq<Write>, key: string)
    requires forall i :: 0 <= i < |writes| ==> writes[i].key == key
    ensures writes == [] ==> Applied(entries, writes) == entries
    ensures writes != [] ==> Applied(entries, writes) == entries[key := writes[|writes| - 1].value]
  {
    if writes != [] {
      var init := writes[..|writes| - 1];
      AppliedToOneKey(entries, init, key);
    }
  }

  class Store {
    var entries: map<string, Value>
    var writes: seq<Write>

    constructor (initial: map<string, Value>)
      ensures entries == initial && writes == []
    {
      entries := initial;
      writes := [];
    }

    /** `fetch_data`: the record under `key`, if there is one. */
    function Fetch(key: string): (r: Option<Value>)
      reads this
      ensures r.Some? <==> key in entries
      ensures r.Some? ==> r.value == entries[key]
    {
      if key in entries then Some(entries[key]) else None
    }

    /** `store_data`: record `value` under `key` and log the insert. */
    method StoreData(key: string, value: Value)
      modifies this
      ensures entries == old(entries)[key := value]
      ensures writes == old(writes) + [Write(Insert, key, value)]
    {
      entries := entries[key := value];
      writes := writes + [Write(Insert, key, value)];
    }

    /** `update_data`: replace the record under `key` and log the update. */
    method UpdateData(key: string, value: Value)
      modifies this
      ensures entries == old(entries)[key := value]
      ensures writes == old(writes) + [Write(Replace, key, value)]
    {
      entries := entries[key := value];
      writes := writes + [Write(Replace, key, value)];
    }
  }
}
