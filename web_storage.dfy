/** `window.localStorage`, the key-value medium behind the local campaign
    store. */
module WebStorage {
  import opened Types
  import SeqUtil

  /** The text stored under a key: the JSON encoding of a campaign, which
      parses back to that campaign, or other text, which does not parse as
      a campaign. */
  datatype Item = Encoded(campaign: Campaign) | Text(raw: string)

  /** The enumeration order after a `setItem(key, ...)`: a new key goes last,
      an existing key keeps its place. */
  function KeysAfterSet(keys: seq<string>, key: string): (r: seq<string>)
    ensures forall k :: k in r <==> k in keys || k == key
  {
    if key in keys then keys else keys + [key]
  }

  /** The enumeration order after a `removeItem(key)`. */
  function KeysAfterRemove(keys: seq<string>, key: string): (r: seq<string>)
    ensures forall k :: k in r <==> k in keys && k != key
  {
    SeqUtil.Filter(keys, k => k != key)
  }

  class Storage {
    /** The stored texts. */
    var items: map<string, Item>
    /** The order in which `key(0)`, `key(1)`, ... enumerate the keys. */
    var keys: seq<string>

    ghost predicate Valid()
      reads this
    {
      SeqUtil.NoDup(keys) && forall k :: k in items <==> k in keys
    }

    constructor ()
      ensures Valid() && items == map[] && keys == []
    {
      items := map[];
      keys := [];
    }

    /** `length`. */
    function Length(): (n: nat)
      reads this
      requires Valid()
      ensures n == |items|
    {
      KeyCount(items, keys);
      |keys|
    }

    /** `key(i)`. */
    method Key(i: nat) returns (k: Option<string>)
      requires Valid()
      ensures i < |keys| ==> k == Some(keys[i])
      ensures i >= |keys| ==> k == None
    {
      k := if i < |keys| then Some(keys[i]) else None;
    }

    /** `getItem(key)`. */
    method GetItem(key: string) returns (r: Option<Item>)
      ensures key in items ==> r == Some(items[key])
      ensures key !in items ==> r == None
    {
      r := if key in items then Some(items[key]) else None;
    }

    /** `setItem(key, value)`. */
    method SetItem(key: string, value: Item)
      requires Valid()
      modifies this
      ensures Valid()
      ensures items == old(items)[key := value]
      ensures keys == KeysAfterSet(old(keys), key)
    {
      var k := KeysAfterSet(keys, key);
      if key !in keys {
        forall i, j | 0 <= i < j < |k| ensures k[i] != k[j] {
          if j == |keys| {
            assert k[i] == keys[i];
          }
        }
      }
      items := items[key := value];
      keys := k;
    }

    /** `removeItem(key)`. */
    method RemoveItem(key: string)
      requires Valid()
      modifies this
      ensures Valid()
      ensures items == old(items) - {key}
      ensures keys == KeysAfterRemove(old(keys), key)
    {
      SeqUtil.FilterNoDup(keys, k => k != key);
      items := items - {key};
      keys := KeysAfterRemove(keys, key);
    }
  }

  /** A duplicate-free enumeration of a map's keys has one entry per key. */
  lemma {:induction false} KeyCount(items: map<string, Item>, keys: seq<string>)
    requires SeqUtil.NoDup(keys) && forall k :: k in items <==> k in keys
    ensures |keys| == |items|
  {
    if keys == [] {
      assert items == map[];
    } else {
      var last := keys[|keys| - 1];
      var rest := keys[..|keys| - 1];
      assert keys == rest + [last];
      assert last !in rest by {
        forall i | 0 <= i < |rest| ensures rest[i] != last {
          assert rest[i] == keys[i];
        }
      }
      assert SeqUtil.NoDup(rest) by {
        forall i, j | 0 <= i < j < |rest| ensures rest[i] != rest[j] {
          assert rest[i] == keys[i] && rest[j] == keys[j];
        }
      }
      KeyCount(items - {last}, rest);
      assert (items - {last}).Keys == items.Keys - {last};
    }
  }
}
