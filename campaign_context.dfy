/** The campaign coordination engine of client/src/context/CampaignContext.tsx:
    the provider's in-memory `campaigns` list and `activeCampaign`, kept beside
    the local campaign store. The remote API calls are fire-and-forget and are
    not modelled; the clock reading and the random ids are parameters. */
module CampaignContext {
  import opened Types
  import opened WebStorage
  import LocalStore
  import Text
  import SeqUtil

  const MillisPerHour := 60 * 60 * 1000

  /** The default lifetime of a new campaign, and the shift a duplicate's
      deadline gets. */
  const FortyEightHours := 48 * MillisPerHour

  /** The bundled image every new campaign points at. */
  const HeadphonesImage := "../assets/headphones.png"

  const CreatorName := "Administrador"

  /** The form data `createCampaign()` passes on. */
  const DefaultInput := CampaignFormInput(
    "Audífonos Inalámbricos Premium",
    Some("Audífonos inalámbricos con cancelación de ruido, batería de larga duración y sonido de alta fidelidad."),
    30, 20, 10, None, None)

  // ---------------------------------------------------------------------
  // The records the operations build

  /** The optimistic campaign `createCampaignWithParams` returns. No field of
      the input is checked. */
  function NewCampaign(input: CampaignFormInput, now: int, idToken: string, userToken: string): (c: Campaign)
    ensures c.id == "temp_" + idToken && c.createdAt == now
    ensures c.currentParticipants == 1 && CountConsistent(c)
    ensures c.participants == [Participant("usr_" + userToken, CreatorName, now)]
    ensures c.status == Some(Active)
    ensures input.expiresAt.Some? ==> c.expiresAt == input.expiresAt
    ensures input.expiresAt.None? ==> c.expiresAt == Some(now + FortyEightHours)
    ensures c.productName == input.productName && c.description == input.description
    ensures c.regularPrice == input.regularPrice && c.groupPrice == input.groupPrice
    ensures c.requiredParticipants == input.requiredParticipants && c.category == input.category
    ensures c.imageUrl == Some(HeadphonesImage)
  {
    var expiresAt := match input.expiresAt
                     case Some(t) => t
                     case None => now + FortyEightHours;
    Campaign("temp_" + idToken, input.productName, input.regularPrice, input.groupPrice,
             input.requiredParticipants, 1, now, Some(expiresAt), Some(Active),
             input.description, Some(HeadphonesImage), input.category,
             [Participant("usr_" + userToken, CreatorName, now)])
  }

  function Or<T>(o: Option<T>, otherwise: T): T
  {
    if o.Some? then o.value else otherwise
  }

  function OrOpt<T>(o: Option<T>, otherwise: Option<T>): Option<T>
  {
    if o.Some? then o else otherwise
  }

  /** `{ ...campaign, ...updateData }`: the patch's properties over the stored ones. */
  function Merge(c: Campaign, p: CampaignPatch): (r: Campaign)
    ensures p.id.Some? ==> r.id == p.id.value
    ensures p.id.None? ==> r.id == c.id
    ensures p.productName.Some? ==> r.productName == p.productName.value
    ensures p.productName.None? ==> r.productName == c.productName
    ensures p.regularPrice.Some? ==> r.regularPrice == p.regularPrice.value
    ensures p.regularPrice.None? ==> r.regularPrice == c.regularPrice
    ensures p.groupPrice.Some? ==> r.groupPrice == p.groupPrice.value
    ensures p.groupPrice.None? ==> r.groupPrice == c.groupPrice
    ensures p.requiredParticipants.Some? ==> r.requiredParticipants == p.requiredParticipants.value
    ensures p.requiredParticipants.None? ==> r.requiredParticipants == c.requiredParticipants
    ensures p.currentParticipants.Some? ==> r.currentParticipants == p.currentParticipants.value
    ensures p.currentParticipants.None? ==> r.currentParticipants == c.currentParticipants
    ensures p.createdAt.Some? ==> r.createdAt == p.createdAt.value
    ensures p.createdAt.None? ==> r.createdAt == c.createdAt
    ensures p.expiresAt.Some? ==> r.expiresAt == p.expiresAt
    ensures p.expiresAt.None? ==> r.expiresAt == c.expiresAt
    ensures p.status.Some? ==> r.status == p.status
    ensures p.status.None? ==> r.status == c.status
    ensures p.description.Some? ==> r.description == p.description
    ensures p.description.None? ==> r.description == c.description
    ensures p.imageUrl.Some? ==> r.imageUrl == p.imageUrl
    ensures p.imageUrl.None? ==> r.imageUrl == c.imageUrl
    ensures p.category.Some? ==> r.category == p.category
    ensures p.category.None? ==> r.category == c.category
    ensures p.participants.Some? ==> r.participants == p.participants.value
    ensures p.participants.None? ==> r.participants == c.participants
  {
    Campaign(Or(p.id, c.id), Or(p.productName, c.productName),
             Or(p.regularPrice, c.regularPrice), Or(p.groupPrice, c.groupPrice),
             Or(p.requiredParticipants, c.requiredParticipants),
             Or(p.currentParticipants, c.currentParticipants), Or(p.createdAt, c.createdAt),
             OrOpt(p.expiresAt, c.expiresAt), OrOpt(p.status, c.status),
             OrOpt(p.description, c.description), OrOpt(p.imageUrl, c.imageUrl),
             OrOpt(p.category, c.category), Or(p.participants, c.participants))
  }

  /** The patch `changeCampaignStatus` hands to `updateCampaign`. */
  function StatusPatch(s: Status): CampaignPatch
  {
    EmptyPatch.(status := Some(s))
  }

  /** The copy `duplicateCampaign` builds: a fresh id, a marked name, the
      creator as only participant, and the ORIGINAL deadline moved 48 hours
      later (now + 48 hours when there is none). */
  function Duplicated(c: Campaign, now: int, idToken: string, userToken: string): (d: Campaign)
    ensures d.id == "cmp_" + idToken && d.productName == c.productName + " (copia)"
    ensures d.currentParticipants == 1 && CountConsistent(d)
    ensures d.participants == [Participant("usr_" + userToken, CreatorName, now)]
    ensures d.status == Some(Active) && d.createdAt == now
    ensures c.expiresAt.Some? ==> d.expiresAt == Some(c.expiresAt.value + FortyEightHours)
    ensures c.expiresAt.None? ==> d.expiresAt == Some(now + FortyEightHours)
    ensures d.regularPrice == c.regularPrice && d.groupPrice == c.groupPrice
    ensures d.requiredParticipants == c.requiredParticipants
    ensures d.description == c.description && d.imageUrl == c.imageUrl && d.category == c.category
  {
    var deadline := if c.expiresAt.Some? then c.expiresAt.value + FortyEightHours
                    else now + FortyEightHours;
    c.(id := "cmp_" + idToken, productName := c.productName + " (copia)",
       currentParticipants := 1, createdAt := now, expiresAt := Some(deadline),
       status := Some(Active),
       participants := [Participant("usr_" + userToken, CreatorName, now)])
  }

  /** `Participante ${Date.now().toString().slice(-4)}`. */
  function JoinName(now: nat): string
  {
    "Participante " + Text.SliceFromEnd(Text.Decimal(now), 4)
  }

  /** The participant a join adds: a `usr_` id, the join name, joined now. */
  function JoinParticipant(now: nat, userToken: string): (p: Participant)
  {
    Participant("usr_" + userToken, JoinName(now), now)
  }

  /** The local part of `joinCampaign` on the stored record: one more
      participant, and `completed` once the count reaches the threshold. */
  function Joined(c: Campaign, p: Participant): (r: Campaign)
    ensures r.currentParticipants == c.currentParticipants + 1
    ensures r.participants == c.participants + [p]
    ensures r.currentParticipants >= r.requiredParticipants ==> r.status == Some(Completed)
    ensures r.currentParticipants < r.requiredParticipants ==> r.status == c.status
    ensures r.(currentParticipants := c.currentParticipants, participants := c.participants,
               status := c.status) == c
    ensures CountConsistent(c) ==> CountConsistent(r)
  {
    var bumped := c.(currentParticipants := c.currentParticipants + 1,
                     participants := c.participants + [p]);
    if bumped.currentParticipants >= bumped.requiredParticipants
    then bumped.(status := Some(Completed))
    else bumped
  }

  /** Several joins one after the other. */
  function JoinAll(c: Campaign, ps: seq<Participant>): (r: Campaign)
    ensures r.id == c.id && r.requiredParticipants == c.requiredParticipants
  {
    if ps == [] then c else Joined(JoinAll(c, ps[..|ps| - 1]), ps[|ps| - 1])
  }

  // ---------------------------------------------------------------------
  // The provider

  class CampaignEngine {
    /** The shared local storage. */
    const storage: Storage
    /** The provider's `campaigns` state. */
    var campaigns: seq<Campaign>
    /** The provider's `activeCampaign` state. */
    var active: Option<Campaign>

    /** The storage is consistent and every stored campaign sits under the
        key of its own id; every operation keeps both. */
    ghost predicate Valid()
      reads this, storage
    {
      storage.Valid() && LocalStore.WellKeyed(storage.items)
    }

    constructor (st: Storage)
      requires st.Valid() && LocalStore.WellKeyed(st.items)
      ensures Valid() && storage == st
      ensures campaigns == [] && active == None
    {
      storage := st;
      campaigns := [];
      active := None;
    }

    /** The effect on the query result: the API's list when there is one,
        else the stored campaigns. */
    method ReceiveQueryData(data: Option<seq<Campaign>>)
      requires Valid()
      modifies this`campaigns
      ensures data.Some? ==> campaigns == data.value
      ensures data.None? ==> (LocalStore.NewestFirst(campaigns) &&
                multiset(campaigns) == multiset(LocalStore.Collected(storage.items, storage.keys)))
    {
      if data.Some? {
        campaigns := data.value;
      } else {
        campaigns := LocalStore.GetAllCampaigns(storage);
      }
    }

    method CreateCampaignWithParams(input: CampaignFormInput, now: int, idToken: string, userToken: string)
      returns (c: Campaign)
      requires Valid()
      modifies storage
      ensures Valid()
      ensures c == NewCampaign(input, now, idToken, userToken)
      ensures storage.items == LocalStore.Put(old(storage.items), c)
      ensures storage.keys == KeysAfterSet(old(storage.keys), LocalStore.KeyOf(c.id))
    {
      c := NewCampaign(input, now, idToken, userToken);
      LocalStore.SaveCampaign(storage, c);
    }

    method CreateCampaign(now: int, idToken: string, userToken: string) returns (c: Campaign)
      requires Valid()
      modifies storage
      ensures Valid()
      ensures c == NewCampaign(DefaultInput, now, idToken, userToken)
      ensures storage.items == LocalStore.Put(old(storage.items), c)
      ensures storage.keys == KeysAfterSet(old(storage.keys), LocalStore.KeyOf(c.id))
    {
      c := CreateCampaignWithParams(DefaultInput, now, idToken, userToken);
    }

    /** `updateCampaign`. `writeFails` says whether the browser throws on the
        storage write (quota exceeded, storage disabled); the catch then
        changes no state and answers null. */
    method UpdateCampaign(id: string, patch: CampaignPatch, writeFails: bool) returns (r: Option<Campaign>)
      requires Valid()
      modifies this, storage
      ensures Valid()
      ensures old(LocalStore.Lookup(storage.items, id)).None? || writeFails ==>
                r.None? && storage.items == old(storage.items) && storage.keys == old(storage.keys) &&
                campaigns == old(campaigns) && active == old(active)
      ensures old(LocalStore.Lookup(storage.items, id)).Some? && !writeFails ==>
                r == Some(Merge(old(LocalStore.Lookup(storage.items, id)).value, patch)) &&
                storage.items == LocalStore.Put(old(storage.items), r.value) &&
                storage.keys == KeysAfterSet(old(storage.keys), LocalStore.KeyOf(r.value.id)) &&
                campaigns == ReplaceById(old(campaigns), id, r.value) &&
                active == if old(active).Some? && old(active).value.id == id then r else old(active)
    {
      var campaign := LocalStore.GetCampaign(storage, id);
      if campaign.None? || writeFails {
        return None;
      }
      var updated := Merge(campaign.value, patch);
      LocalStore.SaveCampaign(storage, updated);
      campaigns := ReplaceById(campaigns, id, updated);
      if active.Some? && active.value.id == id {
        active := Some(updated);
      }
      return Some(updated);
    }

    /** `changeCampaignStatus`: an update with the status patch. */
    method ChangeCampaignStatus(id: string, status: Status, writeFails: bool) returns (r: Option<Campaign>)
      requires Valid()
      modifies this, storage
      ensures Valid()
      ensures old(LocalStore.Lookup(storage.items, id)).None? || writeFails ==>
                r.None? && storage.items == old(storage.items) && storage.keys == old(storage.keys) &&
                campaigns == old(campaigns) && active == old(active)
      ensures old(LocalStore.Lookup(storage.items, id)).Some? && !writeFails ==>
                r == Some(old(LocalStore.Lookup(storage.items, id)).value.(status := Some(status))) &&
                storage.items == LocalStore.Put(old(storage.items), r.value) &&
                storage.keys == KeysAfterSet(old(storage.keys), LocalStore.KeyOf(r.value.id)) &&
                campaigns == ReplaceById(old(campaigns), id, r.value) &&
                active == if old(active).Some? && old(active).value.id == id then r else old(active)
    {
      ghost var found := LocalStore.Lookup(storage.items, id);
      if found.Some? {
        StatusPatchChangesOnlyStatus(found.value, status);
      }
      r := UpdateCampaign(id, StatusPatch(status), writeFails);
    }

    /** `duplicateCampaign`; a failed save answers null and changes nothing. */
    method DuplicateCampaign(id: string, now: int, idToken: string, userToken: string, writeFails: bool)
      returns (r: Option<Campaign>)
      requires Valid()
      modifies this`campaigns, storage
      ensures Valid()
      ensures old(LocalStore.Lookup(storage.items, id)).None? || writeFails ==>
                r.None? && storage.items == old(storage.items) && storage.keys == old(storage.keys) &&
                campaigns == old(campaigns)
      ensures old(LocalStore.Lookup(storage.items, id)).Some? && !writeFails ==>
                r == Some(Duplicated(old(LocalStore.Lookup(storage.items, id)).value, now, idToken, userToken)) &&
                storage.items == LocalStore.Put(old(storage.items), r.value) &&
                storage.keys == KeysAfterSet(old(storage.keys), LocalStore.KeyOf(r.value.id)) &&
                campaigns == old(campaigns) + [r.value]
    {
      var campaign := LocalStore.GetCampaign(storage, id);
      if campaign.None? || writeFails {
        return None;
      }
      var duplicated := Duplicated(campaign.value, now, idToken, userToken);
      LocalStore.SaveCampaign(storage, duplicated);
      campaigns := campaigns + [duplicated];
      return Some(duplicated);
    }

    /** `removeCampaign`: true once the key is gone; a failed removal changes
        nothing and answers false. */
    method RemoveCampaign(id: string, writeFails: bool) returns (ok: bool)
      requires Valid()
      modifies this, storage
      ensures Valid()
      ensures ok <==> !writeFails
      ensures writeFails ==>
                storage.items == old(storage.items) && storage.keys == old(storage.keys) &&
                campaigns == old(campaigns) && active == old(active)
      ensures !writeFails ==>
                storage.items == LocalStore.Deleted(old(storage.items), id) &&
                storage.keys == KeysAfterRemove(old(storage.keys), LocalStore.KeyOf(id)) &&
                campaigns == WithoutId(old(campaigns), id) &&
                active == if old(active).Some? && old(active).value.id == id then None else old(active)
    {
      if writeFails {
        return false;
      }
      LocalStore.DeleteCampaign(storage, id);
      campaigns := WithoutId(campaigns, id);
      if active.Some? && active.value.id == id {
        active := None;
      }
      return true;
    }

    /** The synchronous answer of `loadCampaign`: the in-memory list first,
        then the store, else nothing. */
    method LoadCampaign(id: string) returns (r: Option<Campaign>)
      modifies this`active
      ensures FindById(campaigns, id).Some? ==> r == FindById(campaigns, id)
      ensures FindById(campaigns, id).None? ==> r == LocalStore.Lookup(storage.items, id)
      ensures r.Some? ==> active == r
      ensures r.None? ==> active == old(active)
    {
      var cached := FindById(campaigns, id);
      if cached.Some? {
        active := cached;
        return cached;
      }
      var local := LocalStore.GetCampaign(storage, id);
      if local.Some? {
        active := local;
        return local;
      }
      return None;
    }

    /** The local part of `joinCampaign`; when the save throws, the catch
        only logs, so nothing changes. */
    method JoinCampaign(id: string, now: nat, userToken: string, writeFails: bool)
      requires Valid()
      modifies this, storage
      ensures Valid()
      ensures old(LocalStore.Lookup(storage.items, id)).None? || writeFails ==>
                storage.items == old(storage.items) && storage.keys == old(storage.keys) &&
                campaigns == old(campaigns) && active == old(active)
      ensures old(LocalStore.Lookup(storage.items, id)).Some? && !writeFails ==>
                var j := Joined(old(LocalStore.Lookup(storage.items, id)).value, JoinParticipant(now, userToken));
                storage.items == LocalStore.Put(old(storage.items), j) &&
                storage.keys == KeysAfterSet(old(storage.keys), LocalStore.KeyOf(j.id)) &&
                active == Some(j) && campaigns == ReplaceById(old(campaigns), id, j)
    {
      var campaign := LocalStore.GetCampaign(storage, id);
      if campaign.Some? && !writeFails {
        var joined := Joined(campaign.value, JoinParticipant(now, userToken));
        assert joined.id == campaign.value.id;
        LocalStore.SavePreservesWellKeyed(storage.items, joined);
        LocalStore.SaveCampaign(storage, joined);
        active := Some(joined);
        campaigns := ReplaceById(campaigns, id, joined);
      }
    }

    /** The synchronous answer of `getAllCampaigns`. */
    method GetAllCampaigns() returns (r: seq<Campaign>)
      requires Valid()
      ensures |campaigns| > 0 ==> r == campaigns
      ensures |campaigns| == 0 ==> (LocalStore.NewestFirst(r) &&
                multiset(r) == multiset(LocalStore.Collected(storage.items, storage.keys)))
    {
      if |campaigns| > 0 {
        return campaigns;
      }
      r := LocalStore.GetAllCampaigns(storage);
    }

    /** What `getAllCampaigns` does once the API answers with a list: the list
        replaces the in-memory one and every entry is written to the store. */
    method ApplyRemoteList(api: seq<Campaign>)
      requires Valid()
      modifies this`campaigns, storage
      ensures Valid()
      ensures campaigns == api
      ensures storage.items == PutAll(old(storage.items), api)
      ensures storage.keys == KeysAfterPutAll(old(storage.keys), api)
    {
      campaigns := api;
      for i := 0 to |api|
        invariant Valid() && campaigns == api
        invariant storage.items == PutAll(old(storage.items), api[..i])
        invariant storage.keys == KeysAfterPutAll(old(storage.keys), api[..i])
      {
        assert api[..i + 1][..i] == api[..i];
        LocalStore.SaveCampaign(storage, api[i]);
      }
      assert api[..|api|] == api;
    }
  }

  /** The items after `apiCampaigns.forEach(saveCampaign)`: each of `cs`
      saved in turn. It specifies `ApplyRemoteList`; its properties are
      `WriteThroughStoresLast` and `WriteThroughKeepsOthers`. */
  function PutAll(items: map<string, Item>, cs: seq<Campaign>): map<string, Item>
  {
    if cs == [] then items else LocalStore.Put(PutAll(items, cs[..|cs| - 1]), cs[|cs| - 1])
  }

  /** The key enumeration after the same saves; it only supports the
      contract of `ApplyRemoteList`. */
  function KeysAfterPutAll(keys: seq<string>, cs: seq<Campaign>): seq<string>
  {
    if cs == [] then keys
    else KeysAfterSet(KeysAfterPutAll(keys, cs[..|cs| - 1]), LocalStore.KeyOf(cs[|cs| - 1].id))
  }

  // ---------------------------------------------------------------------
  // Properties

  /** The status patch sets `status` and nothing else: participants, count and
      deadline stay, and no threshold rule is applied. */
  lemma StatusPatchChangesOnlyStatus(c: Campaign, s: Status)
    ensures Merge(c, StatusPatch(s)) == c.(status := Some(s))
  {
  }

  /** A patch without properties gives back the stored record, and applying
      the same patch twice is applying it once. */
  lemma MergeLaws(c: Campaign, p: CampaignPatch)
    ensures Merge(c, EmptyPatch) == c
    ensures Merge(Merge(c, p), p) == Merge(c, p)
  {
  }

  /** An update keeps the stored status unless the patch carries one: the
      status is never derived again from the counts. */
  lemma UpdateNeverDerivesStatus(c: Campaign, p: CampaignPatch)
    requires p.status.None?
    ensures Merge(c, p).status == c.status
  {
  }

  /** The duplicate's deadline is the original's shifted by 48 hours, whatever
      the original's age. */
  lemma DuplicateShiftsDeadline(c: Campaign, now: int, idToken: string, userToken: string)
    requires c.expiresAt.Some?
    ensures Duplicated(c, now, idToken, userToken).expiresAt.value - c.expiresAt.value == FortyEightHours
  {
  }

  /** `k` joins one after the other add exactly those `k` participants, at the
      end, and mark the campaign completed exactly when the final count reaches
      the threshold; below it the status stays as it was. */
  lemma {:induction false} SequentialJoins(c: Campaign, ps: seq<Participant>)
    ensures JoinAll(c, ps).currentParticipants == c.currentParticipants + |ps|
    ensures JoinAll(c, ps).participants == c.participants + ps
    ensures |ps| > 0 && c.currentParticipants + |ps| >= c.requiredParticipants ==>
              JoinAll(c, ps).status == Some(Completed)
    ensures c.currentParticipants + |ps| < c.requiredParticipants ==> JoinAll(c, ps).status == c.status
    ensures JoinAll(c, ps).(currentParticipants := c.currentParticipants,
                            participants := c.participants, status := c.status) == c
  {
    if ps != [] {
      var prefix := ps[..|ps| - 1];
      SequentialJoins(c, prefix);
      assert c.participants + prefix + [ps[|ps| - 1]] == c.participants + ps;
    }
  }

  /** Joining keeps `currentParticipants == |participants|`. */
  lemma {:induction false} JoinsKeepCount(c: Campaign, ps: seq<Participant>)
    requires CountConsistent(c)
    ensures CountConsistent(JoinAll(c, ps))
  {
    if ps != [] {
      JoinsKeepCount(c, ps[..|ps| - 1]);
    }
  }

  /** A campaign created for 3 participants is still open after one join and
      completed after the second. */
  lemma ThresholdUnlock(now: nat, idToken: string, u0: string, u1: string, u2: string)
    ensures var c := NewCampaign(CampaignFormInput("p", None, 30, 20, 3, None, None), now, idToken, u0);
            var p1 := JoinParticipant(now, u1);
            var p2 := JoinParticipant(now, u2);
            JoinAll(c, [p1]).status == Some(Active) &&
            JoinAll(c, [p1, p2]).status == Some(Completed) &&
            JoinAll(c, [p1, p2]).currentParticipants == 3
  {
    var c := NewCampaign(CampaignFormInput("p", None, 30, 20, 3, None, None), now, idToken, u0);
    var p1 := JoinParticipant(now, u1);
    var p2 := JoinParticipant(now, u2);
    SequentialJoins(c, [p1]);
    SequentialJoins(c, [p1, p2]);
  }

  /** The join name is "Participante " followed by the last (at most four)
      decimal digits of the clock reading. */
  lemma JoinNameShape(now: nat)
    ensures var n := JoinName(now);
            n[..13] == "Participante " && 14 <= |n| <= 17 &&
            forall i :: 13 <= i < |n| ==> '0' <= n[i] <= '9'
  {
  }

  /** After the write-through, the last API campaign with a given id is what
      the store answers for that id. */
  lemma {:induction false} WriteThroughStoresLast(items: map<string, Item>, cs: seq<Campaign>, i: nat)
    requires i < |cs|
    requires forall j :: i < j < |cs| ==> cs[j].id != cs[i].id
    ensures LocalStore.Lookup(PutAll(items, cs), cs[i].id) == Some(cs[i])
  {
    var last := |cs| - 1;
    assert cs[..last][..|cs[..last]|] == cs[..last];
    if i == last {
      LocalStore.GetAfterSave(PutAll(items, cs[..last]), cs[i]);
    } else {
      WriteThroughStoresLast(items, cs[..last], i);
      LocalStore.GetAfterSaveOther(PutAll(items, cs[..last]), cs[last], cs[i].id);
    }
  }

  /** Ids the API list does not mention keep what the store had. */
  lemma {:induction false} WriteThroughKeepsOthers(items: map<string, Item>, cs: seq<Campaign>, id: string)
    requires forall c :: c in cs ==> c.id != id
    ensures LocalStore.Lookup(PutAll(items, cs), id) == LocalStore.Lookup(items, id)
  {
    if cs != [] {
      var last := |cs| - 1;
      assert forall c :: c in cs[..last] ==> c in cs;
      WriteThroughKeepsOthers(items, cs[..last], id);
      LocalStore.GetAfterSaveOther(PutAll(items, cs[..last]), cs[last], id);
    }
  }

  /** Saving the duplicate leaves the original's stored record as it was,
      whenever the fresh id differs from the original's. */
  lemma DuplicateKeepsOriginal(items: map<string, Item>, c: Campaign, now: int,
                               idToken: string, userToken: string)
    requires "cmp_" + idToken != c.id
    ensures LocalStore.Lookup(LocalStore.Put(items, Duplicated(c, now, idToken, userToken)), c.id) ==
            LocalStore.Lookup(items, c.id)
  {
    LocalStore.GetAfterSaveOther(items, Duplicated(c, now, idToken, userToken), c.id);
  }

  /** A second removal of the same id changes neither the store nor the list. */
  lemma RemoveTwiceIsRemoveOnce(items: map<string, Item>, list: seq<Campaign>, id: string)
    ensures LocalStore.Deleted(LocalStore.Deleted(items, id), id) == LocalStore.Deleted(items, id)
    ensures WithoutId(WithoutId(list, id), id) == WithoutId(list, id)
  {
    SeqUtil.FilterKeepsAll(WithoutId(list, id), (x: Campaign) => x.id != id);
  }
}
