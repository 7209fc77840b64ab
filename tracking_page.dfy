/** The rules of client/src/pages/TrackingPage.tsx: the payment-status cycle,
    the stored `trackings` and `campaigns` arrays the page reads and rewrites,
    the capped participant increment and the remaining-time arithmetic. */
module TrackingPage {
  import opened Types
  import SeqUtil
  import Text

  const MillisPerMinute := 60 * 1000
  const MillisPerHour := 60 * MillisPerMinute

  /** The simulated payment window after a purchase: 48 hours. */
  const Window := 48 * MillisPerHour

  const DemoTrackingId := "DEMO123456"

  /** The page's initial record; `loadedAt` is the clock reading when the
      module was loaded (the record is three hours older). */
  function DemoTracking(loadedAt: int): TrackingInfo
  {
    TrackingInfo(DemoTrackingId, "1", "Audífonos Inalámbricos Premium", 20,
                 "usuario@example.com", Pendiente, loadedAt - 3 * MillisPerHour)
  }

  /** `getNextStatus`. */
  function NextStatus(s: PaymentStatus): (r: PaymentStatus)
    ensures r != s
  {
    match s
    case Pendiente => Confirmado
    case Confirmado => Reembolsado
    case Reembolsado => Pendiente
  }

  /** The cycle has length three: every step changes the status and three
      steps give it back. */
  lemma NextStatusCycle(s: PaymentStatus)
    ensures NextStatus(s) != s && NextStatus(NextStatus(s)) != s
    ensures NextStatus(NextStatus(NextStatus(s))) == s
  {
  }

  /** The record the page shows once the route's id is applied: a matched
      route with a non-empty id shows the demo record under that id, whatever
      the page showed before (an earlier toggle of the payment status is
      lost); otherwise the shown record stays. */
  function RouteTracking(loadedAt: int, shown: TrackingInfo, routeId: Option<string>): (r: TrackingInfo)
    ensures routeId.Some? && routeId.value != "" ==>
              r.trackingId == routeId.value && r.paymentStatus == Pendiente &&
              r.(trackingId := DemoTrackingId) == DemoTracking(loadedAt)
    ensures routeId.None? || routeId.value == "" ==> r == shown
  {
    if routeId.Some? && routeId.value != "" then DemoTracking(loadedAt).(trackingId := routeId.value)
    else shown
  }

  /** Going to another tracking id while the page stays mounted brings the
      payment status back to Pendiente, even after a toggle. */
  lemma RouteChangeResetsStatus(loadedAt: int, shown: TrackingInfo, a: string, b: string)
    requires a != "" && b != ""
    ensures var onA := RouteTracking(loadedAt, shown, Some(a));
            var toggled := onA.(paymentStatus := NextStatus(onA.paymentStatus));
            toggled.paymentStatus == Confirmado &&
            RouteTracking(loadedAt, toggled, Some(b)).paymentStatus == Pendiente &&
            RouteTracking(loadedAt, toggled, Some(b)).trackingId == b
  {
  }

  // ---------------------------------------------------------------------
  // The stored arrays

  predicate HasTracking(ts: seq<TrackingInfo>, id: string)
  {
    exists i :: 0 <= i < |ts| && ts[i].trackingId == id
  }

  predicate HasCampaign(cs: seq<Campaign>, id: string)
  {
    exists i :: 0 <= i < |cs| && cs[i].id == id
  }

  ghost predicate UniqueTrackingIds(ts: seq<TrackingInfo>)
  {
    forall i, j :: 0 <= i < j < |ts| ==> ts[i].trackingId != ts[j].trackingId
  }

  ghost predicate UniqueCampaignIds(cs: seq<Campaign>)
  {
    forall i, j :: 0 <= i < j < |cs| ==> cs[i].id != cs[j].id
  }

  /** The `trackings` array after the visit effect: `t` is pushed only when no
      entry has its tracking id. */
  function WithTracking(ts: seq<TrackingInfo>, t: TrackingInfo): (r: seq<TrackingInfo>)
    ensures |ts| <= |r| <= |ts| + 1 && r[..|ts|] == ts
    ensures HasTracking(r, t.trackingId)
    ensures HasTracking(ts, t.trackingId) ==> r == ts
    ensures !HasTracking(ts, t.trackingId) ==> r[|ts|] == t
    ensures UniqueTrackingIds(ts) ==> UniqueTrackingIds(r)
  {
    if HasTracking(ts, t.trackingId) then ts
    else
      var r := ts + [t];
      assert r[|ts|].trackingId == t.trackingId;
      r
  }

  /** The `campaigns` array after the visit effect: `c` is pushed only when no
      entry has its id. */
  function WithCampaign(cs: seq<Campaign>, c: Campaign): (r: seq<Campaign>)
    ensures |cs| <= |r| <= |cs| + 1 && r[..|cs|] == cs
    ensures HasCampaign(r, c.id)
    ensures HasCampaign(cs, c.id) ==> r == cs
    ensures !HasCampaign(cs, c.id) ==> r[|cs|] == c
    ensures UniqueCampaignIds(cs) ==> UniqueCampaignIds(r)
  {
    if HasCampaign(cs, c.id) then cs
    else
      var r := cs + [c];
      assert r[|cs|].id == c.id;
      r
  }

  /** `trackings.map(t => t.trackingId === id ? { ...t, paymentStatus: s } : t)`. */
  function SetPaymentStatus(ts: seq<TrackingInfo>, id: string, s: PaymentStatus): (r: seq<TrackingInfo>)
    ensures |r| == |ts|
    ensures forall i :: 0 <= i < |ts| && ts[i].trackingId == id ==> r[i] == ts[i].(paymentStatus := s)
    ensures forall i :: 0 <= i < |ts| && ts[i].trackingId != id ==> r[i] == ts[i]
  {
    SeqUtil.Map(ts, (t: TrackingInfo) => if t.trackingId == id then t.(paymentStatus := s) else t)
  }

  /** The page's campaign after one press of "add participant": unchanged
      once the threshold is reached, otherwise one more (only the count moves;
      the participant list is not touched). */
  function CappedIncrement(c: Campaign): (r: Campaign)
    ensures c.currentParticipants >= c.requiredParticipants ==> r == c
    ensures c.currentParticipants < c.requiredParticipants ==>
              r == c.(currentParticipants := c.currentParticipants + 1)
    ensures c.currentParticipants <= c.requiredParticipants ==>
              r.currentParticipants <= c.requiredParticipants
  {
    if c.currentParticipants >= c.requiredParticipants then c
    else c.(currentParticipants := c.currentParticipants + 1)
  }

  /** `k` presses one after the other. */
  function Presses(c: Campaign, k: nat): (r: Campaign)
    ensures c.currentParticipants <= r.currentParticipants <= c.currentParticipants + k
    ensures r.requiredParticipants == c.requiredParticipants
    ensures c.currentParticipants <= c.requiredParticipants ==>
              r.currentParticipants <= c.requiredParticipants
  {
    if k == 0 then c else CappedIncrement(Presses(c, k - 1))
  }

  /** From a count at or below the threshold, `k` presses give the smaller of
      count + k and the threshold, and change nothing but the count. */
  lemma {:induction false} PressesSaturate(c: Campaign, k: nat)
    requires c.currentParticipants <= c.requiredParticipants
    ensures Presses(c, k).currentParticipants ==
              if c.currentParticipants + k <= c.requiredParticipants
              then c.currentParticipants + k else c.requiredParticipants
    ensures Presses(c, k) == c.(currentParticipants := Presses(c, k).currentParticipants)
  {
    if k > 0 {
      PressesSaturate(c, k - 1);
    }
  }

  /** The two arrays the page keeps under the storage keys "trackings" and
      "campaigns" (a missing key reads as an empty array). */
  class TrackingStore {
    var trackings: seq<TrackingInfo>
    var campaigns: seq<Campaign>

    constructor ()
      ensures trackings == [] && campaigns == []
    {
      trackings := [];
      campaigns := [];
    }

    /** The visit effect, with the record the page shows at the time the
        effect runs and the page's demo campaign. */
    method RecordVisit(shown: TrackingInfo, campaign: Campaign)
      modifies this
      ensures trackings == WithTracking(old(trackings), shown)
      ensures campaigns == WithCampaign(old(campaigns), campaign)
    {
      if !HasTracking(trackings, shown.trackingId) {
        trackings := trackings + [shown];
      }
      if !HasCampaign(campaigns, campaign.id) {
        campaigns := campaigns + [campaign];
      }
    }

    /** `handleTogglePaymentStatus`: the shown record moves one step along the
        cycle and so does every stored record with its tracking id. */
    method TogglePaymentStatus(shown: TrackingInfo) returns (next: TrackingInfo)
      modifies this`trackings
      ensures next == shown.(paymentStatus := NextStatus(shown.paymentStatus))
      ensures trackings == SetPaymentStatus(old(trackings), shown.trackingId, next.paymentStatus)
    {
      var newStatus := NextStatus(shown.paymentStatus);
      next := shown.(paymentStatus := newStatus);
      trackings := SetPaymentStatus(trackings, shown.trackingId, newStatus);
    }

    /** `handleAddParticipant`: nothing when the page's campaign is full;
        otherwise the incremented campaign replaces the stored entries with
        its id. */
    method AddParticipant(campaign: Campaign) returns (updated: Campaign)
      modifies this`campaigns
      ensures updated == CappedIncrement(campaign)
      ensures campaign.currentParticipants >= campaign.requiredParticipants ==>
                campaigns == old(campaigns)
      ensures campaign.currentParticipants < campaign.requiredParticipants ==>
                campaigns == ReplaceById(old(campaigns), campaign.id, updated)
    {
      if campaign.currentParticipants >= campaign.requiredParticipants {
        return campaign;
      }
      updated := campaign.(currentParticipants := campaign.currentParticipants + 1);
      campaigns := ReplaceById(campaigns, campaign.id, updated);
    }
  }

  /** Under the stale first run of the effect, the record stored for a visit
      to `/seguimiento/X` is the demo record, not one with id X: the effect
      reads the state from before its own update. */
  lemma FirstVisitStoresDemoId(loadedAt: int, routeId: string)
    requires routeId != "" && routeId != DemoTrackingId
    ensures var stored := WithTracking([], DemoTracking(loadedAt));
            stored == [DemoTracking(loadedAt)] &&
            !HasTracking(stored, RouteTracking(loadedAt, DemoTracking(loadedAt), Some(routeId)).trackingId)
  {
  }

  /** Recording the same visit twice stores it once. */
  lemma RecordVisitIdempotent(ts: seq<TrackingInfo>, t: TrackingInfo, cs: seq<Campaign>, c: Campaign)
    ensures WithTracking(WithTracking(ts, t), t) == WithTracking(ts, t)
    ensures WithCampaign(WithCampaign(cs, c), c) == WithCampaign(cs, c)
  {
  }

  /** Three toggles bring every stored record back. */
  lemma {:induction false} ThreeTogglesRestore(ts: seq<TrackingInfo>, shown: TrackingInfo)
    requires forall i :: 0 <= i < |ts| && ts[i].trackingId == shown.trackingId ==>
               ts[i].paymentStatus == shown.paymentStatus
    ensures var s1 := NextStatus(shown.paymentStatus);
            var s2 := NextStatus(s1);
            var s3 := NextStatus(s2);
            SetPaymentStatus(SetPaymentStatus(SetPaymentStatus(ts, shown.trackingId, s1),
                                              shown.trackingId, s2), shown.trackingId, s3) == ts
  {
    NextStatusCycle(shown.paymentStatus);
    var s1 := NextStatus(shown.paymentStatus);
    var s2 := NextStatus(s1);
    var s3 := NextStatus(s2);
    var r := SetPaymentStatus(SetPaymentStatus(SetPaymentStatus(ts, shown.trackingId, s1),
                                               shown.trackingId, s2), shown.trackingId, s3);
    assert forall i :: 0 <= i < |ts| ==> r[i] == ts[i];
  }

  // ---------------------------------------------------------------------
  // Remaining time

  datatype TimeLeft = TimeUp | Remaining(hours: int, minutes: int)

  /** `calculateTimeRemaining` for the record's timestamp and the clock
      reading `now`. */
  function TimeRemaining(timestamp: int, now: int): (r: TimeLeft)
    ensures r.TimeUp? <==> timestamp + Window - now <= 0
    ensures r.Remaining? ==>
              var left := timestamp + Window - now;
              0 <= r.hours && 0 <= r.minutes < 60 &&
              r.hours * MillisPerHour + r.minutes * MillisPerMinute <= left <
                r.hours * MillisPerHour + (r.minutes + 1) * MillisPerMinute
    ensures r.Remaining? && now >= timestamp ==> r.hours <= 48
  {
    var left := timestamp + Window - now;
    if left <= 0 then TimeUp
    else
      var h := left / MillisPerHour;
      var m := (left % MillisPerHour) / MillisPerMinute;
      assert left == h * MillisPerHour + left % MillisPerHour;
      assert left % MillisPerHour == m * MillisPerMinute + (left % MillisPerHour) % MillisPerMinute;
      Remaining(h, m)
  }

  /** The text the page shows for the remaining time: "Tiempo expirado", or
      the hours, " horas ", the minutes and " minutos", where both numbers
      read back from their digits. */
  function TimeRemainingText(t: TimeLeft): (r: string)
    ensures t.TimeUp? ==> r == "Tiempo expirado"
    ensures t.Remaining? && t.hours >= 0 && t.minutes >= 0 ==>
              var hs := Text.Decimal(t.hours);
              var ms := Text.Decimal(t.minutes);
              r == hs + " horas " + ms + " minutos" &&
              Text.DigitsValue(hs) == t.hours && Text.DigitsValue(ms) == t.minutes
  {
    match t
    case TimeUp => "Tiempo expirado"
    case Remaining(h, m) =>
      if h >= 0 && m >= 0 then
        Text.DecimalRoundTrip(h);
        Text.DecimalRoundTrip(m);
        Text.Decimal(h) + " horas " + Text.Decimal(m) + " minutos"
      else ""
  }

  /** Just after the purchase the full window remains; one minute before the
      end no hour is left and at the end it has expired. */
  lemma TimeRemainingMilestones(timestamp: int)
    ensures TimeRemaining(timestamp, timestamp) == Remaining(48, 0)
    ensures TimeRemaining(timestamp, timestamp + Window - MillisPerMinute) == Remaining(0, 1)
    ensures TimeRemaining(timestamp, timestamp + Window) == TimeUp
  {
  }
}
