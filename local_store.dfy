/** The local campaign store of client/src/utils/localStorage.ts: campaigns
    kept in the Web Storage under the key `campaign_<id>`. */
module LocalStore {
  import opened Types
  import opened WebStorage
  import Text

  const CampaignPrefix := "campaign_"

  function KeyOf(id: string): string
  {
    CampaignPrefix + id
  }

  /** Different ids give different keys. */
  lemma KeyOfInjective(a: string, b: string)
    ensures KeyOf(a) == KeyOf(b) ==> a == b
  {
    if KeyOf(a) == KeyOf(b) {
      assert a == KeyOf(a)[|CampaignPrefix|..];
    }
  }

  /** `JSON.parse(data) as Campaign`; `None` stands for text that is empty or
      does not parse. */
  function Decode(item: Item): (r: Option<Campaign>)
    ensures r.Some? <==> item.Encoded?
    ensures r.Some? ==> item == Encoded(r.value)
  {
    match item
    case Encoded(c) => Some(c)
    case Text(_) => None
  }

  /** What `getCampaign(id)` answers for the stored items. */
  function Lookup(items: map<string, Item>, id: string): (r: Option<Campaign>)
    ensures r.Some? <==> KeyOf(id) in items && items[KeyOf(id)].Encoded?
    ensures r.Some? ==> r.value == items[KeyOf(id)].campaign
  {
    if KeyOf(id) in items then Decode(items[KeyOf(id)]) else None
  }

  /** The items after `saveCampaign(c)`: only the key of `c.id` changes. */
  function Put(items: map<string, Item>, c: Campaign): (r: map<string, Item>)
    ensures KeyOf(c.id) in r && r[KeyOf(c.id)] == Encoded(c)
    ensures forall k :: k != KeyOf(c.id) ==> (k in r <==> k in items)
    ensures forall k :: k != KeyOf(c.id) && k in items ==> r[k] == items[k]
  {
    items[KeyOf(c.id) := Encoded(c)]
  }

  /** The items after `deleteCampaign(id)`: only the key of `id` changes. */
  function Deleted(items: map<string, Item>, id: string): (r: map<string, Item>)
    ensures KeyOf(id) !in r
    ensures forall k :: k != KeyOf(id) ==> (k in r <==> k in items)
    ensures forall k :: k != KeyOf(id) && k in items ==> r[k] == items[k]
  {
    items - {KeyOf(id)}
  }

  // ---------------------------------------------------------------------
  // The four operations

  method SaveCampaign(st: Storage, c: Campaign)
    requires st.Valid()
    modifies st
    ensures st.Valid()
    ensures st.items == Put(old(st.items), c)
    ensures st.keys == KeysAfterSet(old(st.keys), KeyOf(c.id))
  {
    st.SetItem(KeyOf(c.id), Encoded(c));
  }

  method GetCampaign(st: Storage, id: string) returns (r: Option<Campaign>)
    ensures r == Lookup(st.items, id)
  {
    var data := st.GetItem(KeyOf(id));
    if data.None? {
      return None;
    }
    match data.value
    case Encoded(c) => r := Some(c);
    case Text(_) => r := None;
  }

  method DeleteCampaign(st: Storage, id: string)
    requires st.Valid()
    modifies st
    ensures st.Valid()
    ensures st.items == Deleted(old(st.items), id)
    ensures st.keys == KeysAfterRemove(old(st.keys), KeyOf(id))
  {
    st.RemoveItem(KeyOf(id));
  }

  /** The campaign `getAllCampaigns` collects for one enumerated key. */
  function CampaignUnder(items: map<string, Item>, key: string): Option<Campaign>
  {
    if Text.StartsWith(key, CampaignPrefix)
    then Lookup(items, Text.ReplaceFirst(key, CampaignPrefix, ""))
    else None
  }

  /** The campaigns collected, in enumeration order, before sorting. */
  function Collected(items: map<string, Item>, keys: seq<string>): (r: seq<Campaign>)
    ensures |r| <= |keys|
  {
    if keys == [] then []
    else
      var rest := Collected(items, keys[..|keys| - 1]);
      match CampaignUnder(items, keys[|keys| - 1])
      case Some(c) => rest + [c]
      case None => rest
  }

  /** The order `b.createdAt - a.createdAt` sorts by. */
  predicate NewestFirst(s: seq<Campaign>)
    ensures NewestFirst(s) && |s| > 0 ==> forall i :: 0 <= i < |s| ==> s[0].createdAt >= s[i].createdAt
  {
    forall i, j :: 0 <= i < j < |s| ==> s[i].createdAt >= s[j].createdAt
  }

  /** Inserts `c` after every campaign at least as new, so that earlier
      entries stay ahead of later ones of the same date. */
  function InsertByDate(c: Campaign, s: seq<Campaign>): (r: seq<Campaign>)
    requires NewestFirst(s)
    ensures NewestFirst(r)
    ensures forall x :: x in r ==> x in s || x == c
    ensures multiset(r) == multiset(s) + multiset{c}
  {
    if s == [] then [c]
    else if s[0].createdAt >= c.createdAt then
      var tail := s[1..];
      assert s == [s[0]] + tail;
      TailNewestFirst(s);
      HeadIsNewest(s);
      var r := InsertByDate(c, tail);
      ConsNewestFirst(s[0], r);
      [s[0]] + r
    else
      HeadIsNewest(s);
      ConsNewestFirst(c, s);
      [c] + s
  }

  lemma TailNewestFirst(s: seq<Campaign>)
    requires NewestFirst(s) && s != []
    ensures NewestFirst(s[1..])
  {
    forall i, j | 0 <= i < j < |s[1..]| ensures s[1..][i].createdAt >= s[1..][j].createdAt {
      assert s[1..][i] == s[i + 1] && s[1..][j] == s[j + 1];
    }
  }

  /** The head of a newest-first sequence is at least as new as every element. */
  lemma HeadIsNewest(s: seq<Campaign>)
    requires NewestFirst(s) && s != []
    ensures forall x :: x in s ==> s[0].createdAt >= x.createdAt
  {
    forall x | x in s ensures s[0].createdAt >= x.createdAt {
      var j :| 0 <= j < |s| && s[j] == x;
      if j > 0 {
        assert s[0].createdAt >= s[j].createdAt;
      }
    }
  }

  /** Putting in front a campaign at least as new as all others keeps the order. */
  lemma ConsNewestFirst(h: Campaign, r: seq<Campaign>)
    requires NewestFirst(r)
    requires forall x :: x in r ==> h.createdAt >= x.createdAt
    ensures NewestFirst([h] + r)
  {
    var t := [h] + r;
    forall i, j | 0 <= i < j < |t| ensures t[i].createdAt >= t[j].createdAt {
      assert t[j] == r[j - 1];
      if i > 0 {
        assert t[i] == r[i - 1];
      } else {
        assert r[j - 1] in r;
      }
    }
  }

  /** `campaigns.sort((a, b) => b.createdAt - a.createdAt)`: a stable sort,
      newest first. */
  function SortNewestFirst(s: seq<Campaign>): (r: seq<Campaign>)
    ensures NewestFirst(r)
    ensures multiset(r) == multiset(s)
  {
    if s == [] then []
    else
      assert s == s[..|s| - 1] + [s[|s| - 1]];
      InsertByDate(s[|s| - 1], SortNewestFirst(s[..|s| - 1]))
  }

  method GetAllCampaigns(st: Storage) returns (r: seq<Campaign>)
    requires st.Valid()
    ensures NewestFirst(r)
    ensures multiset(r) == multiset(Collected(st.items, st.keys))
  {
    var campaigns: seq<Campaign> := [];
    var n := st.Length();
    for i := 0 to n
      invariant campaigns == Collected(st.items, st.keys[..i])
    {
      var key := st.Key(i);
      assert st.keys[..i + 1][..i] == st.keys[..i];
      ghost var under := CampaignUnder(st.items, st.keys[i]);
      assert Collected(st.items, st.keys[..i + 1]) ==
             Collected(st.items, st.keys[..i]) + (if under.Some? then [under.value] else []);
      if key.Some? && Text.StartsWith(key.value, CampaignPrefix) {
        var campaignId := Text.ReplaceFirst(key.value, CampaignPrefix, "");
        var campaign := GetCampaign(st, campaignId);
        assert campaign == under;
        if campaign.Some? {
          campaigns := campaigns + [campaign.value];
        }
      } else {
        assert under.None?;
      }
    }
    assert st.keys[..n] == st.keys;
    r := SortNewestFirst(campaigns);
  }

  // ---------------------------------------------------------------------
  // Properties

  /** Stripping the prefix from a campaign key gives back the id, and the key
      of that id is the key itself. */
  lemma KeyRoundTrip(id: string, key: string)
    ensures Text.ReplaceFirst(KeyOf(id), CampaignPrefix, "") == id
    ensures Text.StartsWith(key, CampaignPrefix) ==>
              KeyOf(Text.ReplaceFirst(key, CampaignPrefix, "")) == key
  {
    assert KeyOf(id)[..|CampaignPrefix|] == CampaignPrefix;
    Text.ReplacePrefixStrips(KeyOf(id), CampaignPrefix);
    assert KeyOf(id)[|CampaignPrefix|..] == id;
    if Text.StartsWith(key, CampaignPrefix) {
      Text.ReplacePrefixStrips(key, CampaignPrefix);
      assert key == CampaignPrefix + key[|CampaignPrefix|..];
    }
  }

  /** `getAllCampaigns` collects exactly the campaigns stored under prefixed
      keys: other keys and text that does not parse are skipped. */
  lemma {:induction false} CollectedExactly(items: map<string, Item>, keys: seq<string>, c: Campaign)
    requires forall k :: k in keys ==> k in items
    ensures c in Collected(items, keys) <==>
              exists k :: k in keys && Text.StartsWith(k, CampaignPrefix) && items[k] == Encoded(c)
  {
    if keys != [] {
      var rest := keys[..|keys| - 1];
      var last := keys[|keys| - 1];
      assert keys == rest + [last];
      CollectedExactly(items, rest, c);
      KeyRoundTrip("", last);
      if c in Collected(items, keys) && c !in Collected(items, rest) {
        assert CampaignUnder(items, last) == Some(c);
        assert last in keys && Text.StartsWith(last, CampaignPrefix) && items[last] == Encoded(c);
      }
    }
  }

  /** After saving `c`, reading its id gives `c`. */
  lemma GetAfterSave(items: map<string, Item>, c: Campaign)
    ensures Lookup(Put(items, c), c.id) == Some(c)
  {
  }

  /** Saving `c` leaves every other id's answer as it was. */
  lemma GetAfterSaveOther(items: map<string, Item>, c: Campaign, id: string)
    requires id != c.id
    ensures Lookup(Put(items, c), id) == Lookup(items, id)
  {
    KeyOfInjective(id, c.id);
  }

  /** A later save for the same id wins. */
  lemma LaterSaveWins(items: map<string, Item>, c1: Campaign, c2: Campaign)
    requires c1.id == c2.id
    ensures Put(Put(items, c1), c2) == Put(items, c2)
  {
  }

  /** After deleting `id`, reading it gives nothing; other ids are unaffected. */
  lemma GetAfterDelete(items: map<string, Item>, id: string, other: string)
    ensures Lookup(Deleted(items, id), id) == None
    ensures other != id ==> Lookup(Deleted(items, id), other) == Lookup(items, other)
  {
    KeyOfInjective(id, other);
  }

  /** Deleting twice is deleting once. */
  lemma DeleteIdempotent(items: map<string, Item>, id: string)
    ensures Deleted(Deleted(items, id), id) == Deleted(items, id)
  {
  }

  /** Every stored campaign sits under the key of its own id; saves keep this. */
  ghost predicate WellKeyed(items: map<string, Item>)
  {
    forall k :: k in items && items[k].Encoded? ==> k == KeyOf(items[k].campaign.id)
  }

  lemma SavePreservesWellKeyed(items: map<string, Item>, c: Campaign)
    requires WellKeyed(items)
    ensures WellKeyed(Put(items, c))
  {
  }

  lemma DeletePreservesWellKeyed(items: map<string, Item>, id: string)
    requires WellKeyed(items)
    ensures WellKeyed(Deleted(items, id))
  {
  }

  /** In a well-keyed store, what is found under an id carries that id. */
  lemma LookupCarriesId(items: map<string, Item>, id: string)
    requires WellKeyed(items)
    ensures Lookup(items, id).Some? ==> Lookup(items, id).value.id == id
  {
    if Lookup(items, id).Some? {
      KeyOfInjective(id, Lookup(items, id).value.id);
    }
  }
}
