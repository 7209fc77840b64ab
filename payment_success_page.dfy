/** The rules of client/src/pages/PaymentSuccessPage.tsx: the tracking id
    generated once per page, and the tracking record the contact form appends
    to the stored `trackings` array. */
module PaymentSuccessPage {
  import opened Types
  import Text
  import TrackingPage
  import CampaignPage

  /** The tracking id after the load effect found a campaign: a fresh one
      only when none is set yet. */
  function TrackingIdAfterLoad(current: string, generated: string): (r: string)
    ensures current != "" ==> r == current
    ensures current == "" ==> r == generated
  {
    if current == "" then generated else current
  }

  /** Once set, the tracking id survives every later run of the effect. */
  lemma TrackingIdSetOnce(current: string, first: string, second: string)
    requires first != ""
    ensures TrackingIdAfterLoad(TrackingIdAfterLoad(current, first), second) ==
            TrackingIdAfterLoad(current, first)
  {
  }

  /** The record built for a submission. The contact is stored as typed, not
      trimmed; name and price come from the selected product unless it has
      none (an empty name, a zero price). */
  function TrackingRecord(trackingId: string, campaign: Campaign, selected: Option<AlternativeProduct>,
                          contact: string, now: int): (t: TrackingInfo)
    ensures t.trackingId == trackingId && t.campaignId == campaign.id
    ensures t.paymentStatus == Pendiente && t.contactInfo == contact && t.timestamp == now
    ensures selected.Some? && selected.value.name != "" ==> t.productName == selected.value.name
    ensures selected.None? || selected.value.name == "" ==> t.productName == campaign.productName
    ensures selected.Some? && selected.value.groupPrice != 0 ==> t.price == selected.value.groupPrice
    ensures selected.None? || selected.value.groupPrice == 0 ==> t.price == campaign.groupPrice
  {
    TrackingInfo(trackingId, campaign.id, CampaignPage.DisplayedName(selected, campaign),
                 CampaignPage.DisplayedPrice(selected, campaign), contact, Pendiente, now)
  }

  /** The record carries the product the campaign page chose and priced:
      with the page's default selection for the active campaign, the stored
      name and price are that alternative's own (never the campaign's
      fallbacks), and they are the campaign's product when it is offered. */
  lemma RecordShowsCampaignPageChoice(trackingId: string, c: Campaign, contact: string, now: int)
    ensures var sel := CampaignPage.InitialSelection(Some(c), None);
            var t := TrackingRecord(trackingId, c, sel, contact, now);
            sel.Some? && sel.value in CampaignPage.AlternativeProducts &&
            t.productName == CampaignPage.DisplayedName(sel, c) == sel.value.name &&
            t.price == CampaignPage.DisplayedPrice(sel, c) == sel.value.groupPrice && t.price > 0
    ensures (exists i :: 0 <= i < |CampaignPage.AlternativeProducts| &&
                         CampaignPage.AlternativeProducts[i].name == c.productName) ==>
            TrackingRecord(trackingId, c, CampaignPage.InitialSelection(Some(c), None), contact, now).productName
              == c.productName
  {
    var sel := CampaignPage.InitialSelection(Some(c), None);
    CampaignPage.AlternativesNeverFallBack(sel.value, c);
  }

  datatype SubmitOutcome = ContactRequired | NoCampaign | Recorded(record: TrackingInfo)

  /** `handleSubmitContactInfo`. */
  method SubmitContactInfo(store: TrackingPage.TrackingStore, contact: string,
                           campaign: Option<Campaign>, selected: Option<AlternativeProduct>,
                           trackingId: string, now: int) returns (outcome: SubmitOutcome)
    modifies store`trackings
    ensures Text.Trim(contact) == [] ==> outcome == ContactRequired && store.trackings == old(store.trackings)
    ensures Text.Trim(contact) != [] && campaign.None? ==>
              outcome == NoCampaign && store.trackings == old(store.trackings)
    ensures Text.Trim(contact) != [] && campaign.Some? ==>
              outcome == Recorded(TrackingRecord(trackingId, campaign.value, selected, contact, now)) &&
              store.trackings == old(store.trackings) + [outcome.record]
  {
    if Text.Trim(contact) == [] {
      return ContactRequired;
    }
    if campaign.None? {
      return NoCampaign;
    }
    var info := TrackingRecord(trackingId, campaign.value, selected, contact, now);
    store.trackings := store.trackings + [info];
    return Recorded(info);
  }

  /** Submitting twice stores two records with the same tracking id: unlike
      the tracking page's visit effect, the form does not de-duplicate. */
  lemma SubmitDoesNotDeduplicate(ts: seq<TrackingInfo>, t: TrackingInfo)
    ensures !TrackingPage.UniqueTrackingIds(ts + [t] + [t])
    ensures TrackingPage.WithTracking(TrackingPage.WithTracking(ts, t), t) == TrackingPage.WithTracking(ts, t)
  {
    var r := ts + [t] + [t];
    assert r[|ts|].trackingId == r[|ts| + 1].trackingId;
    TrackingPage.RecordVisitIdempotent(ts, t, [], Campaign("", "", 0, 0, 0, 0, 0, None, None, None, None, None, []));
  }
}
