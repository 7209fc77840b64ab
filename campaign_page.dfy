/** The rules of client/src/pages/CampaignPage.tsx: the product shown with
    the campaign, the completeness test and the buttons it selects, the price
    and name fallbacks, the load guard, and the demo tool that completes a
    campaign by joining it repeatedly. */
module CampaignPage {
  import opened Types
  import opened WebStorage
  import LocalStore
  import CampaignContext
  import CampaignProgress
  import SeqUtil

  /** The four products the page offers. */
  const AlternativeProducts: seq<AlternativeProduct> := [
    AlternativeProduct(1, "Audífonos Inalámbricos Premium", 30, 20, "headphones"),
    AlternativeProduct(2, "Smartwatch Fitness Tracker", 70, 50, "watch"),
    AlternativeProduct(3, "Parlante Bluetooth Portátil", 45, 30, "speaker"),
    AlternativeProduct(4, "Power Bank 10000mAh", 25, 15, "powerbank")
  ]

  /** `products.find(p => p.name === name)`. */
  function FindByName(products: seq<AlternativeProduct>, name: string): (r: Option<AlternativeProduct>)
    ensures r.Some? ==> r.value.name == name &&
                        exists i :: 0 <= i < |products| && products[i] == r.value &&
                                    forall j :: 0 <= j < i ==> products[j].name != name
    ensures r.None? ==> forall i :: 0 <= i < |products| ==> products[i].name != name
  {
    Find(products, (p: AlternativeProduct) => p.name == name)
  }

  /** The product chosen for a campaign: the one named like it, else the first. */
  function DefaultProduct(productName: string): (p: AlternativeProduct)
    ensures p in AlternativeProducts
    ensures (exists i :: 0 <= i < |AlternativeProducts| && AlternativeProducts[i].name == productName)
              ==> p.name == productName
    ensures (forall i :: 0 <= i < |AlternativeProducts| ==> AlternativeProducts[i].name != productName)
              ==> p == AlternativeProducts[0]
  {
    var found := FindByName(AlternativeProducts, productName);
    if found.Some? then found.value else AlternativeProducts[0]
  }

  /** The selection effect: a default is chosen only once a campaign is
      active and while nothing is selected. */
  function InitialSelection(active: Option<Campaign>, selected: Option<AlternativeProduct>)
    : (r: Option<AlternativeProduct>)
    ensures selected.Some? ==> r == selected
    ensures active.None? ==> r == selected
    ensures active.Some? && selected.None? ==> r == Some(DefaultProduct(active.value.productName))
  {
    if active.Some? && selected.None? then Some(DefaultProduct(active.value.productName))
    else selected
  }

  /** The page's completeness test, the same one the progress panel applies. */
  predicate IsCampaignComplete(c: Campaign)
    ensures IsCampaignComplete(c) <==>
            CampaignProgress.IsComplete(c.currentParticipants, c.requiredParticipants)
    ensures IsCampaignComplete(c) <==>
            CampaignProgress.Remaining(c.currentParticipants, c.requiredParticipants) == 0
  {
    c.currentParticipants >= c.requiredParticipants
  }

  datatype ActionButton = PayAndJoin | FinalizePurchase

  /** The buttons of the action area, as the two guarded renders produce them. */
  function ActionButtons(c: Campaign): (r: seq<ActionButton>)
    ensures |r| == 1
    ensures r[0] == FinalizePurchase <==> IsCampaignComplete(c)
    ensures r[0] == PayAndJoin <==> !IsCampaignComplete(c)
  {
    (if !IsCampaignComplete(c) then [PayAndJoin] else []) +
    (if IsCampaignComplete(c) then [FinalizePurchase] else [])
  }

  /** `selectedProduct?.groupPrice || activeCampaign.groupPrice`: a missing
      selection and a zero price both fall back. */
  function DisplayedPrice(selected: Option<AlternativeProduct>, c: Campaign): (price: int)
    ensures selected.Some? && selected.value.groupPrice != 0 ==> price == selected.value.groupPrice
    ensures selected.None? || selected.value.groupPrice == 0 ==> price == c.groupPrice
  {
    if selected.Some? && selected.value.groupPrice != 0 then selected.value.groupPrice
    else c.groupPrice
  }

  /** `selectedProduct?.name || activeCampaign.productName`. */
  function DisplayedName(selected: Option<AlternativeProduct>, c: Campaign): (name: string)
    ensures selected.Some? && selected.value.name != "" ==> name == selected.value.name
    ensures selected.None? || selected.value.name == "" ==> name == c.productName
  {
    if selected.Some? && selected.value.name != "" then selected.value.name else c.productName
  }

  /** The load effect's guard: a matched route with an id other than the one
      loaded last. */
  predicate ShouldLoad(routeId: Option<string>, lastLoaded: Option<string>)
    ensures ShouldLoad(routeId, lastLoaded) ==> routeId.Some? && routeId.value != ""
    ensures routeId.Some? && routeId.value != "" ==> (ShouldLoad(routeId, lastLoaded) <==> lastLoaded != routeId)
  {
    routeId.Some? && routeId.value != "" && lastLoaded != routeId
  }

  /** The id remembered after the effect. */
  function AfterLoadEffect(routeId: Option<string>, lastLoaded: Option<string>): (r: Option<string>)
    ensures ShouldLoad(routeId, lastLoaded) ==> r == routeId
    ensures !ShouldLoad(routeId, lastLoaded) ==> r == lastLoaded
  {
    if ShouldLoad(routeId, lastLoaded) then routeId else lastLoaded
  }

  /** Re-running the effect for the same route loads nothing more. */
  lemma LoadOncePerId(routeId: Option<string>, lastLoaded: Option<string>)
    ensures !ShouldLoad(routeId, AfterLoadEffect(routeId, lastLoaded))
  {
  }

  /** Every alternative has a positive group price and a name, so the price
      and name fallbacks only apply when nothing is selected. */
  lemma AlternativesNeverFallBack(p: AlternativeProduct, c: Campaign)
    requires p in AlternativeProducts
    ensures DisplayedPrice(Some(p), c) == p.groupPrice
    ensures DisplayedName(Some(p), c) == p.name
  {
  }

  // ---------------------------------------------------------------------
  // The simulate-completion tool

  /** The number of joins the tool makes for the shown campaign (the loop
      does not run when the count is already at or above the threshold). */
  function Missing(shown: Campaign): (n: nat)
    ensures !IsCampaignComplete(shown) ==> n == shown.requiredParticipants - shown.currentParticipants
    ensures IsCampaignComplete(shown) ==> n == 0
  {
    if IsCampaignComplete(shown) then 0 else shown.requiredParticipants - shown.currentParticipants
  }

  /** The participants added by joins at the clock readings `clock` with the
      user ids `tokens`. */
  function Joiners(clock: seq<nat>, tokens: seq<string>): (ps: seq<Participant>)
    requires |clock| == |tokens|
    ensures |ps| == |clock|
  {
    SeqUtil.Zip(clock, tokens, CampaignContext.JoinParticipant)
  }

  /** The `i`-th participant the tool adds joined at `clock[i]` as user
      `tokens[i]`. */
  lemma JoinerAt(clock: seq<nat>, tokens: seq<string>, i: nat)
    requires |clock| == |tokens| && i < |clock|
    ensures Joiners(clock, tokens)[i] == CampaignContext.JoinParticipant(clock[i], tokens[i])
  {
    SeqUtil.ZipAt(clock, tokens, CampaignContext.JoinParticipant, i);
  }

  /** Proof helper for the simulation: replacing the entries of an id twice
      is replacing them with the second record, as long as the first carries
      that id. */
  lemma ReplaceTwice(list: seq<Campaign>, id: string, a: Campaign, b: Campaign)
    requires a.id == id
    ensures ReplaceById(ReplaceById(list, id, a), id, b) == ReplaceById(list, id, b)
  {
  }

  /** Proof helper for the simulation: saving the record already stored
      under its id changes nothing. */
  lemma PutStored(items: map<string, Item>, c: Campaign)
    requires LocalStore.Lookup(items, c.id) == Some(c)
    ensures LocalStore.Put(items, c) == items
  {
  }

  /** One join of the tool. `found` is what the store held for `id` when the
      tool started and `cur` the record the joins so far have made of it. */
  method JoinOnce(engine: CampaignContext.CampaignEngine, id: string, now: nat, token: string,
                  ghost found: Option<Campaign>, ghost cur: Campaign, ghost base: map<string, Item>)
    requires engine.Valid()
    requires found.None? ==> LocalStore.Lookup(engine.storage.items, id).None?
    requires found.Some? ==> cur.id == id && engine.storage.items == LocalStore.Put(base, cur)
    modifies engine, engine.storage
    ensures engine.Valid()
    ensures engine.storage.keys == old(engine.storage.keys)
    ensures found.None? ==>
              engine.storage.items == old(engine.storage.items) &&
              engine.campaigns == old(engine.campaigns) && engine.active == old(engine.active)
    ensures found.Some? ==>
              var next := CampaignContext.Joined(cur, CampaignContext.JoinParticipant(now, token));
              engine.storage.items == LocalStore.Put(base, next) &&
              engine.campaigns == ReplaceById(old(engine.campaigns), id, next) &&
              engine.active == Some(next)
  {
    if found.Some? {
      LocalStore.GetAfterSave(base, cur);
      assert LocalStore.KeyOf(id) in engine.storage.keys;
    }
    engine.JoinCampaign(id, now, token, false);
    if found.Some? {
      LocalStore.LaterSaveWins(base, cur, CampaignContext.Joined(cur, CampaignContext.JoinParticipant(now, token)));
    }
  }

  /** Proof helper for the simulation: the joins up to `i + 1` are the joins
      up to `i` followed by the `i`-th. */
  lemma JoinersSnoc(found: Campaign, clock: seq<nat>, tokens: seq<string>, i: nat)
    requires |clock| == |tokens| && i < |clock|
    ensures CampaignContext.JoinAll(found, Joiners(clock[..i + 1], tokens[..i + 1])) ==
            CampaignContext.Joined(CampaignContext.JoinAll(found, Joiners(clock[..i], tokens[..i])),
                                   CampaignContext.JoinParticipant(clock[i], tokens[i]))
  {
    assert clock[..i + 1][..i] == clock[..i] && tokens[..i + 1][..i] == tokens[..i];
  }

  /** The loop invariant of the simulation, a proof helper: the engine after
      the first `i` joins of the tool, which started on the
      items `items0` (holding `found` for `id`), the key order `keys0`, the
      list `campaigns0` and the active campaign `active0`. */
  ghost predicate AfterJoins(engine: CampaignContext.CampaignEngine, id: string, found: Option<Campaign>,
                             clock: seq<nat>, tokens: seq<string>, i: nat,
                             items0: map<string, Item>, keys0: seq<string>,
                             campaigns0: seq<Campaign>, active0: Option<Campaign>)
    reads engine, engine.storage
    requires |clock| == |tokens| && i <= |clock|
  {
    engine.Valid() && engine.storage.keys == keys0 &&
    (found.None? ==>
       engine.storage.items == items0 && engine.campaigns == campaigns0 && engine.active == active0) &&
    (found.Some? ==>
       var cur := CampaignContext.JoinAll(found.value, Joiners(clock[..i], tokens[..i]));
       cur.id == id && engine.storage.items == LocalStore.Put(items0, cur) &&
       (i == 0 ==> engine.campaigns == campaigns0 && engine.active == active0) &&
       (i > 0 ==> engine.campaigns == ReplaceById(campaigns0, id, cur) && engine.active == Some(cur)))
  }

  /** The `i`-th join of the tool. */
  method JoinStep(engine: CampaignContext.CampaignEngine, id: string, clock: seq<nat>, tokens: seq<string>,
                  i: nat, ghost found: Option<Campaign>, ghost items0: map<string, Item>,
                  ghost keys0: seq<string>, ghost campaigns0: seq<Campaign>, ghost active0: Option<Campaign>)
    requires |clock| == |tokens| && i < |clock|
    requires found == LocalStore.Lookup(items0, id)
    requires AfterJoins(engine, id, found, clock, tokens, i, items0, keys0, campaigns0, active0)
    modifies engine, engine.storage
    ensures AfterJoins(engine, id, found, clock, tokens, i + 1, items0, keys0, campaigns0, active0)
  {
    ghost var cur := if found.Some? then CampaignContext.JoinAll(found.value, Joiners(clock[..i], tokens[..i]))
                     else CampaignContext.JoinAll(Campaign(id, "", 0, 0, 0, 0, 0, None, None, None, None, None, []), []);
    ghost var next := CampaignContext.Joined(cur, CampaignContext.JoinParticipant(clock[i], tokens[i]));
    JoinOnce(engine, id, clock[i], tokens[i], found, cur, items0);
    if found.Some? {
      JoinersSnoc(found.value, clock, tokens, i);
      if i > 0 {
        ReplaceTwice(campaigns0, id, cur, next);
      }
    }
  }

  /** The tool's click handler: `Missing(shown)` joins of the shown
      campaign's id, the i-th at `clock[i]` for user `tokens[i]`. */
  method SimulateCompletion(engine: CampaignContext.CampaignEngine, shown: Campaign,
                            clock: seq<nat>, tokens: seq<string>)
    requires engine.Valid()
    requires |clock| == |tokens| == Missing(shown)
    modifies engine, engine.storage
    ensures engine.Valid()
    ensures engine.storage.keys == old(engine.storage.keys)
    ensures old(LocalStore.Lookup(engine.storage.items, shown.id)).None? || Missing(shown) == 0 ==>
              engine.storage.items == old(engine.storage.items) &&
              engine.campaigns == old(engine.campaigns) && engine.active == old(engine.active)
    ensures old(LocalStore.Lookup(engine.storage.items, shown.id)).Some? && Missing(shown) > 0 ==>
              var done := CampaignContext.JoinAll(old(LocalStore.Lookup(engine.storage.items, shown.id)).value,
                                                  Joiners(clock, tokens));
              engine.storage.items == LocalStore.Put(old(engine.storage.items), done) &&
              engine.campaigns == ReplaceById(old(engine.campaigns), shown.id, done) &&
              engine.active == Some(done)
  {
    ghost var found := LocalStore.Lookup(engine.storage.items, shown.id);
    ghost var items0 := engine.storage.items;
    LocalStore.LookupCarriesId(engine.storage.items, shown.id);
    if found.Some? {
      PutStored(engine.storage.items, found.value);
    }
    if !IsCampaignComplete(shown) {
      var missing := shown.requiredParticipants - shown.currentParticipants;
      for i := 0 to missing
        invariant AfterJoins(engine, shown.id, found, clock, tokens, i, items0,
                             old(engine.storage.keys), old(engine.campaigns), old(engine.active))
      {
        JoinStep(engine, shown.id, clock, tokens, i, found, items0,
                 old(engine.storage.keys), old(engine.campaigns), old(engine.active));
      }
      assert clock[..missing] == clock && tokens[..missing] == tokens;
    }
  }

  /** When the shown campaign is the stored one, the tool ends with the count
      exactly at the threshold and the campaign completed. */
  lemma SimulationCompletes(stored: Campaign, shown: Campaign, clock: seq<nat>, tokens: seq<string>)
    requires stored.currentParticipants == shown.currentParticipants
    requires stored.requiredParticipants == shown.requiredParticipants
    requires !IsCampaignComplete(shown)
    requires |clock| == |tokens| == Missing(shown)
    ensures var done := CampaignContext.JoinAll(stored, Joiners(clock, tokens));
            done.currentParticipants == shown.requiredParticipants &&
            done.status == Some(Completed) &&
            done.participants == stored.participants + Joiners(clock, tokens)
  {
    CampaignContext.SequentialJoins(stored, Joiners(clock, tokens));
  }
}
