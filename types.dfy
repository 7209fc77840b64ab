/** The record shapes of client/src/types/index.ts. Timestamps (ISO strings in
    the source) are integer milliseconds; prices (JavaScript numbers) are
    integers. An optional property of the source is an `Option` here. */
module Types {
  import SeqUtil

  datatype Option<+T> = None | Some(value: T)

  datatype Status = Active | Paused | Completed | Expired

  datatype Participant = Participant(id: string, name: string, joinedAt: int)

  datatype Campaign = Campaign(
    id: string,
    productName: string,
    regularPrice: int,
    groupPrice: int,
    requiredParticipants: int,
    currentParticipants: int,
    createdAt: int,
    expiresAt: Option<int>,
    status: Option<Status>,
    description: Option<string>,
    imageUrl: Option<string>,
    category: Option<string>,
    participants: seq<Participant>)

  /** The data of the creation form. */
  datatype CampaignFormInput = CampaignFormInput(
    productName: string,
    description: Option<string>,
    regularPrice: int,
    groupPrice: int,
    requiredParticipants: int,
    expiresAt: Option<int>,
    category: Option<string>)

  /** A `Partial<Campaign>`: `Some(v)` for a property the patch carries. */
  datatype CampaignPatch = CampaignPatch(
    id: Option<string>,
    productName: Option<string>,
    regularPrice: Option<int>,
    groupPrice: Option<int>,
    requiredParticipants: Option<int>,
    currentParticipants: Option<int>,
    createdAt: Option<int>,
    expiresAt: Option<int>,
    status: Option<Status>,
    description: Option<string>,
    imageUrl: Option<string>,
    category: Option<string>,
    participants: Option<seq<Participant>>)

  const EmptyPatch := CampaignPatch(None, None, None, None, None, None, None,
                                    None, None, None, None, None, None)

  datatype AlternativeProduct = AlternativeProduct(
    id: int, name: string, regularPrice: int, groupPrice: int, image: string)

  datatype PaymentStatus = Pendiente | Confirmado | Reembolsado

  datatype TrackingInfo = TrackingInfo(
    trackingId: string,
    campaignId: string,
    productName: string,
    price: int,
    contactInfo: string,
    paymentStatus: PaymentStatus,
    timestamp: int)

  /** The redundant count agrees with the participant list. */
  predicate CountConsistent(c: Campaign)
  {
    c.currentParticipants == |c.participants|
  }

  /** `list.map(x => x.id === id ? c : x)`: entries with that id become `c`. */
  function ReplaceById(list: seq<Campaign>, id: string, c: Campaign): (r: seq<Campaign>)
    ensures |r| == |list|
    ensures forall i :: 0 <= i < |list| && list[i].id == id ==> r[i] == c
    ensures forall i :: 0 <= i < |list| && list[i].id != id ==> r[i] == list[i]
  {
    SeqUtil.Map(list, (x: Campaign) => if x.id == id then c else x)
  }

  /** `list.filter(x => x.id !== id)`. */
  function WithoutId(list: seq<Campaign>, id: string): (r: seq<Campaign>)
    ensures forall x :: x in r <==> x in list && x.id != id
    ensures SeqUtil.SubsequenceOf(r, list)
    ensures forall x :: multiset(r)[x] == if x.id != id then multiset(list)[x] else 0
  {
    SeqUtil.FilterIsSubsequence(list, (x: Campaign) => x.id != id);
    SeqUtil.FilterMultiplicity(list, (x: Campaign) => x.id != id);
    SeqUtil.Filter(list, (x: Campaign) => x.id != id)
  }

  /** `list.find(p)`: the first entry that passes `p`, or none. */
  function Find<T>(list: seq<T>, p: T -> bool): (r: Option<T>)
    ensures r.Some? ==> p(r.value) &&
                        exists i :: 0 <= i < |list| && list[i] == r.value &&
                                    forall j :: 0 <= j < i ==> !p(list[j])
    ensures r.None? ==> forall i :: 0 <= i < |list| ==> !p(list[i])
  {
    if list == [] then None
    else if p(list[0]) then Some(list[0])
    else
      var r := Find(list[1..], p);
      if r.Some? then
        ghost var i :| 0 <= i < |list[1..]| && list[1..][i] == r.value &&
                       forall j :: 0 <= j < i ==> !p(list[1..][j]);
        assert list[i + 1] == r.value;
        assert forall j :: 0 <= j < i + 1 ==> !p(list[j]) by {
          forall j | 0 <= j < i + 1 ensures !p(list[j]) {
            if j > 0 { assert list[j] == list[1..][j - 1]; }
          }
        }
        r
      else
        assert forall i :: 0 < i < |list| ==> list[i] == list[1..][i - 1];
        r
  }

  /** `list.find(x => x.id === id)`: the first entry with that id. */
  function FindById(list: seq<Campaign>, id: string): (r: Option<Campaign>)
    ensures r.Some? ==> r.value.id == id &&
                        exists i :: 0 <= i < |list| && list[i] == r.value &&
                                    forall j :: 0 <= j < i ==> list[j].id != id
    ensures r.None? ==> forall i :: 0 <= i < |list| ==> list[i].id != id
  {
    Find(list, (x: Campaign) => x.id == id)
  }
}
