/** `pkg/variablestore/recordcache.go`: entries listed once and then looked up by the text of their key. */
module RecordCache {
  import opened Wrappers
  import opened Bytes
  import opened Keys

  datatype Entry = Entry(key: Key, value: seq<Byte>, revision: seq<Byte>)

  /** The last entry listed under this very key. */
  function Latest(listed: seq<Entry>, key: Key): (found: Option<Entry>)
    ensures found.Some? ==> found.value in listed && found.value.key == key
    ensures found.None? ==> forall e :: e in listed ==> e.key != key
  {
    if listed == [] then None
    else if listed[|listed| - 1].key == key then Some(listed[|listed| - 1])
    else Latest(listed[..|listed| - 1], key)
  }

  predicate AreWellFormed(listed: seq<Entry>) {
    forall e :: e in listed ==> IsWellFormed(e.key)
  }

  class Cache {
    var byName: map<seq<Byte>, Entry>
    /** Every entry loaded, in order. */
    ghost var listed: seq<Entry>

    constructor ()
      ensures Valid() && listed == []
    {
      byName, listed := map[], [];
    }

    /** The map holds under each text what was last listed under the key that has it. */
    ghost predicate Valid()
      reads this
    {
      && AreWellFormed(listed)
      && forall k :: IsWellFormed(k) ==>
           if Text(k) in byName then Latest(listed, k) == Some(byName[Text(k)]) else Latest(listed, k) == None
    }

    method Load(stored: seq<Entry>)
      requires Valid() && AreWellFormed(stored)
      modifies this
      ensures Valid() && listed == old(listed) + stored
    {
      for i := 0 to |stored|
        invariant Valid() && listed == old(listed) + stored[..i]
      {
        Remember(stored[i]);
      }
      assert stored[..|stored|] == stored;
    }

    method Remember(entry: Entry)
      requires Valid() && IsWellFormed(entry.key)
      modifies this
      ensures Valid() && listed == old(listed) + [entry]
    {
      forall k | IsWellFormed(k) && Text(k) == Text(entry.key) ensures k == entry.key {
        KeysHaveTheirOwnText(k, entry.key);
      }
      assert (listed + [entry])[..|listed|] == listed;
      byName, listed := byName[Text(entry.key) := entry], listed + [entry];
    }

    /** Finds exactly the entry that was listed under the key, and nothing under a key that was not listed. */
    function At(key: Key): (found: Option<Entry>)
      requires Valid() && IsWellFormed(key)
      reads this
      ensures found == Latest(listed, key)
    {
      if Text(key) in byName then Some(byName[Text(key)]) else None
    }
  }
}
