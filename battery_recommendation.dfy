/**
 * The state of the battery recommendation component: the catalog quantities,
 * the backup time, the custom appliances and the recommendation that is
 * recomputed after every change, plus the appliance list of the quote request.
 */
module BatteryRecommendationPanel {
  import opened Wrappers
  import opened BatteryCalculator
  import opened CustomApplianceModal

  /** `s.filter((_, i) => i !== index)`: every position except `index`, in order. */
  function WithoutIndex<T>(s: seq<T>, index: int): (r: seq<T>)
    ensures 0 <= index < |s| ==> r == s[..index] + s[index + 1..]
    ensures !(0 <= index < |s|) ==> r == s
  {
    if s == [] then []
    else
      var init := s[..|s| - 1];
      var kept := WithoutIndex(init, index);
      if index == |s| - 1 then
        kept
      else
        assert 0 <= index < |init| ==> init[..index] == s[..index] && init[index + 1..] + [s[|s| - 1]] == s[index + 1..];
        assert !(0 <= index < |init|) ==> init + [s[|s| - 1]] == s;
        kept + [s[|s| - 1]]
  }

  /** One entry of the quote request's appliance list: a name and its count. */
  datatype QuoteLine = QuoteLine(name: string, quantity: nat)

  /** The catalog entries with a positive quantity, in catalog order. */
  function CatalogLines(selection: map<string, nat>, catalog: seq<Appliance>): seq<QuoteLine> {
    if catalog == [] then []
    else
      var last := catalog[|catalog| - 1];
      var q := QuantityOf(selection, last.id);
      CatalogLines(selection, catalog[..|catalog| - 1]) + (if q > 0 then [QuoteLine(last.name, q)] else [])
  }

  /** Every custom appliance, in insertion order. */
  function CustomLines(customs: seq<CustomAppliance>): seq<QuoteLine> {
    seq(|customs|, i requires 0 <= i < |customs| => QuoteLine(customs[i].name, customs[i].quantity))
  }

  /** The quote's appliance list: selected catalog items, then the custom appliances. */
  function QuoteList(selection: map<string, nat>, customs: seq<CustomAppliance>): seq<QuoteLine> {
    CatalogLines(selection, Appliances) + CustomLines(customs)
  }

  /** A line is a catalog line exactly when it names a catalog entry whose quantity is positive. */
  lemma {:induction false} CatalogLinesMembers(selection: map<string, nat>, catalog: seq<Appliance>, line: QuoteLine)
    ensures line in CatalogLines(selection, catalog)
        <==> exists i :: 0 <= i < |catalog| && catalog[i].name == line.name
                      && line.quantity == QuantityOf(selection, catalog[i].id) && line.quantity > 0
  {
    if catalog != [] {
      var init := catalog[..|catalog| - 1];
      CatalogLinesMembers(selection, init, line);
      assert forall i :: 0 <= i < |init| ==> init[i] == catalog[i];
      var last := catalog[|catalog| - 1];
      if line.name == last.name && line.quantity == QuantityOf(selection, last.id) && line.quantity > 0 {
        assert line in CatalogLines(selection, catalog);
      }
    }
  }

  /** There are at most as many catalog lines as catalog entries. */
  lemma {:induction false} CatalogLinesLength(selection: map<string, nat>, catalog: seq<Appliance>)
    ensures |CatalogLines(selection, catalog)| <= |catalog|
  {
    if catalog != [] {
      CatalogLinesLength(selection, catalog[..|catalog| - 1]);
    }
  }

  /** Every catalog line carries a positive quantity. */
  lemma {:induction false} CatalogLinesPositive(selection: map<string, nat>, catalog: seq<Appliance>)
    ensures forall k :: 0 <= k < |CatalogLines(selection, catalog)| ==> CatalogLines(selection, catalog)[k].quantity > 0
  {
    if catalog != [] {
      CatalogLinesPositive(selection, catalog[..|catalog| - 1]);
    }
  }

  /** Every catalog entry with a positive quantity has its line. */
  lemma {:induction false} CatalogLinesComplete(selection: map<string, nat>, catalog: seq<Appliance>)
    ensures forall i :: 0 <= i < |catalog| && QuantityOf(selection, catalog[i].id) > 0 ==>
              QuoteLine(catalog[i].name, QuantityOf(selection, catalog[i].id)) in CatalogLines(selection, catalog)
  {
    if catalog != [] {
      var init := catalog[..|catalog| - 1];
      CatalogLinesComplete(selection, init);
      assert forall i :: 0 <= i < |init| ==> init[i] == catalog[i];
    }
  }

  /**
   * The quote list holds the selected catalog items (each with its positive
   * quantity) and then every custom appliance with its quantity, in insertion order.
   */
  lemma QuoteListShape(selection: map<string, nat>, customs: seq<CustomAppliance>)
    ensures var r := QuoteList(selection, customs);
      && |customs| <= |r| <= |Appliances| + |customs|
      && (forall j :: 0 <= j < |customs| ==>
            r[|r| - |customs| + j] == QuoteLine(customs[j].name, customs[j].quantity))
      && (forall i :: 0 <= i < |Appliances| && QuantityOf(selection, Appliances[i].id) > 0 ==>
            QuoteLine(Appliances[i].name, QuantityOf(selection, Appliances[i].id)) in r[..|r| - |customs|])
      && (forall k :: 0 <= k < |r| - |customs| ==> r[k].quantity > 0)
  {
    var lines := CatalogLines(selection, Appliances);
    var tail := CustomLines(customs);
    var r := lines + tail;
    assert r == QuoteList(selection, customs);
    CatalogLinesLength(selection, Appliances);
    assert r[..|r| - |customs|] == lines;
    CatalogLinesComplete(selection, Appliances);
    CatalogLinesPositive(selection, Appliances);
  }

  class RecommendationState {
    var appliances: map<string, nat>
    var backupHours: real
    var customAppliances: seq<CustomAppliance>
    var recommendation: Recommendation

    /** The recommendation shown is the one for the current inputs. */
    ghost predicate Valid()
      reads this
    {
      recommendation == Recommend(appliances, backupHours, customAppliances)
    }

    /**
     * The initial state: no quantities (every id reads as 0), 4 hours, no custom
     * appliances; the first recommendation is the zero-load placeholder.
     */
    constructor ()
      ensures Valid()
      ensures appliances == map[] && backupHours == 4.0 && customAppliances == []
      ensures forall id :: QuantityOf(appliances, id) == 0
      ensures recommendation.totalLoad == 0
      ensures recommendation.battery == NoBattery && recommendation.inverter == NoInverter
      ensures recommendation.explanation == SelectAppliancesPrompt
    {
      var first := CalculateRealTime(map[], 4.0, []);
      appliances := map[];
      backupHours := 4.0;
      customAppliances := [];
      recommendation := first;
      CatalogLoadEmpty(Appliances);
      ZeroLoadPlaceholder(map[], 4.0, []);
    }

    /** The effect that recomputes the recommendation after a change of inputs. */
    method Refresh()
      modifies this`recommendation
      ensures Valid()
    {
      recommendation := CalculateRealTime(appliances, backupHours, customAppliances);
    }

    /** handleApplianceChange: key `id` takes `quantity`; every other key keeps its quantity. */
    method HandleApplianceChange(id: string, quantity: nat)
      modifies this
      ensures Valid()
      ensures appliances == old(appliances)[id := quantity]
      ensures QuantityOf(appliances, id) == quantity
      ensures forall k :: k != id ==> QuantityOf(appliances, k) == QuantityOf(old(appliances), k)
      ensures backupHours == old(backupHours) && customAppliances == old(customAppliances)
    {
      appliances := appliances[id := quantity];
      Refresh();
    }

    /** The backup slider: the hours take the chosen value. */
    method SetBackupHours(hours: real)
      modifies this
      ensures Valid()
      ensures backupHours == hours
      ensures appliances == old(appliances) && customAppliances == old(customAppliances)
    {
      backupHours := hours;
      Refresh();
    }

    /** handleAddCustomAppliance: the appliance goes at the end; earlier entries are unchanged. */
    method HandleAddCustomAppliance(appliance: CustomAppliance)
      modifies this
      ensures Valid()
      ensures customAppliances == old(customAppliances) + [appliance]
      ensures appliances == old(appliances) && backupHours == old(backupHours)
    {
      customAppliances := customAppliances + [appliance];
      Refresh();
    }

    /** handleRemoveCustomAppliance: position `index` goes, the rest keep their order; out of range, nothing changes. */
    method HandleRemoveCustomAppliance(index: int)
      modifies this
      ensures Valid()
      ensures 0 <= index < |old(customAppliances)| ==>
        customAppliances == old(customAppliances)[..index] + old(customAppliances)[index + 1..]
      ensures !(0 <= index < |old(customAppliances)|) ==> customAppliances == old(customAppliances)
      ensures appliances == old(appliances) && backupHours == old(backupHours)
    {
      customAppliances := WithoutIndex(customAppliances, index);
      Refresh();
    }

    /**
     * Submitting the custom-appliance form with this component as its onAdd:
     * a valid form appends its appliance, an invalid one leaves the list as it was.
     */
    method SubmitCustomAppliance(form: CustomApplianceForm, wattageNum: Option<int>, quantityNum: Option<int>)
      returns (closed: bool)
      requires Valid()
      modifies this, form
      ensures Valid()
      ensures var v := Validate(old(form.name), old(form.wattage), wattageNum, old(form.quantity), quantityNum);
        && closed == v.Ok?
        && customAppliances == old(customAppliances) + (if v.Ok? then [v.value] else [])
        && form.error == (if v.Ok? then "" else v.error)
        && (v.Ok? ==> form.name == "" && form.wattage == "" && form.quantity == "1")
        && (v.Err? ==> form.name == old(form.name) && form.wattage == old(form.wattage) && form.quantity == old(form.quantity))
      ensures appliances == old(appliances) && backupHours == old(backupHours)
    {
      var added;
      added, closed := form.HandleSubmit(wattageNum, quantityNum);
      if added.Some? {
        HandleAddCustomAppliance(added.value);
      } else {
        assert customAppliances + [] == customAppliances;
      }
    }
  }
}
