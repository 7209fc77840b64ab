/** The dashboard rules of client/src/pages/AdminPage.tsx: the campaign
    statistics, the status tabs, the pause/resume toggle and the choice of
    the list shown. */
module AdminPage {
  import opened Types
  import SeqUtil

  datatype Stats = Stats(total: nat, active: nat, completed: nat, other: nat)

  predicate IsActive(c: Campaign)
  {
    c.status == Some(Active)
  }

  predicate IsCompleted(c: Campaign)
  {
    c.status == Some(Completed)
  }

  /** Paused, expired, or without a status. */
  predicate IsOther(c: Campaign)
  {
    !IsActive(c) && !IsCompleted(c)
  }

  /** `apiCampaigns || campaigns`: the API's list whenever there is one, even
      an empty one, else the provider's list. */
  function Displayed(api: Option<seq<Campaign>>, local: seq<Campaign>): (r: seq<Campaign>)
    ensures api.Some? ==> r == api.value
    ensures api.None? ==> r == local
  {
    if api.Some? then api.value else local
  }

  /** The statistics effect: three filter counts beside the total. */
  function CampaignStats(list: seq<Campaign>): (s: Stats)
    ensures s.total == |list|
    ensures s.active + s.completed + s.other == s.total
    ensures s.active == |FilterByTab(list, "active")|
    ensures s.completed == |FilterByTab(list, "completed")|
    ensures s.other == |FilterByTab(list, "other")|
  {
    PartitionCount(list);
    TabsAreTheClasses(list);
    Stats(|list|, |SeqUtil.Filter(list, IsActive)|, |SeqUtil.Filter(list, IsCompleted)|,
          |SeqUtil.Filter(list, IsOther)|)
  }

  /** The test the tab filter applies to one campaign. */
  predicate TabMatches(tab: string, c: Campaign)
  {
    if tab == "all" then true
    else if tab == "active" then IsActive(c)
    else if tab == "completed" then IsCompleted(c)
    else if tab == "other" then IsOther(c)
    else true
  }

  /** `filteredCampaigns`. */
  function FilterByTab(list: seq<Campaign>, tab: string): (r: seq<Campaign>)
    ensures forall c :: c in r <==> c in list && TabMatches(tab, c)
  {
    SeqUtil.Filter(list, (c: Campaign) => TabMatches(tab, c))
  }

  /** `handleToggleStatus`: an active campaign is paused; any other status,
      and a missing one, becomes active. */
  function ToggleTarget(s: Option<Status>): (r: Status)
    ensures r == Paused <==> s == Some(Active)
    ensures r == Active <==> s != Some(Active)
  {
    if s == Some(Active) then Paused else Active
  }

  // ---------------------------------------------------------------------
  // Properties

  /** Every campaign is counted by exactly one of the three status classes. */
  lemma {:induction false} PartitionCount(list: seq<Campaign>)
    ensures |SeqUtil.Filter(list, IsActive)| + |SeqUtil.Filter(list, IsCompleted)| +
            |SeqUtil.Filter(list, IsOther)| == |list|
  {
    if list != [] {
      PartitionCount(list[1..]);
    }
  }

  /** The "active", "completed" and "other" tabs filter by exactly the three
      status classes. */
  lemma TabsAreTheClasses(list: seq<Campaign>)
    ensures FilterByTab(list, "active") == SeqUtil.Filter(list, IsActive)
    ensures FilterByTab(list, "completed") == SeqUtil.Filter(list, IsCompleted)
    ensures FilterByTab(list, "other") == SeqUtil.Filter(list, IsOther)
  {
    FilterSameTest(list, (c: Campaign) => TabMatches("active", c), IsActive);
    FilterSameTest(list, (c: Campaign) => TabMatches("completed", c), IsCompleted);
    FilterSameTest(list, (c: Campaign) => TabMatches("other", c), IsOther);
  }

  lemma {:induction false} FilterSameTest(list: seq<Campaign>, p: Campaign -> bool, q: Campaign -> bool)
    requires forall c :: p(c) == q(c)
    ensures SeqUtil.Filter(list, p) == SeqUtil.Filter(list, q)
  {
    if list != [] {
      FilterSameTest(list[1..], p, q);
    }
  }

  /** "all" and any tab name the filter does not know show the whole list. */
  lemma AllAndUnknownTabsShowEverything(list: seq<Campaign>, tab: string)
    requires tab != "active" && tab != "completed" && tab != "other"
    ensures FilterByTab(list, tab) == list
  {
    SeqUtil.FilterKeepsAll(list, (c: Campaign) => TabMatches(tab, c));
  }

  /** Each tab shows its campaigns in list order. */
  lemma TabKeepsOrder(list: seq<Campaign>, tab: string)
    ensures SeqUtil.SubsequenceOf(FilterByTab(list, tab), list)
  {
    SeqUtil.FilterIsSubsequence(list, (c: Campaign) => TabMatches(tab, c));
  }

  /** A campaign of the list appears under exactly one of "active",
      "completed" and "other". */
  lemma TabsPartition(list: seq<Campaign>, c: Campaign)
    requires c in list
    ensures var inA := c in FilterByTab(list, "active");
            var inC := c in FilterByTab(list, "completed");
            var inO := c in FilterByTab(list, "other");
            (inA || inC || inO) && !(inA && inC) && !(inA && inO) && !(inC && inO)
  {
  }

  /** Two toggles bring an active or paused campaign back; an expired or
      completed one, or one without a status, ends up paused. */
  lemma ToggleTwice(s: Option<Status>)
    ensures s == Some(Active) || s == Some(Paused) ==> ToggleTarget(Some(ToggleTarget(s))) == s.value
    ensures s != Some(Active) && s != Some(Paused) ==> ToggleTarget(Some(ToggleTarget(s))) == Paused
  {
  }
}
