/**
 * The customizable-product form (components/products/CustomCakeForm.tsx):
 * the running price over the option groups, the validity check, the
 * selection handler and the submit guard.  Prices are in cents.
 */
module CakeForm {
  import opened Wrappers
  import opened JsText
  import opened JsArray
  import opened ProductTypes
  import opened Calendar

  /** `selections[group.groupKey]`, `None` for undefined. */
  function SelectionOf(group: OptionGroup, selections: Selections): Option<SelectionValue> {
    if group.groupKey in selections then Some(selections[group.groupKey]) else None
  }

  /** JavaScript truthiness of a selection: the empty string is falsy, any array is truthy. */
  predicate Truthy(sel: Option<SelectionValue>) {
    match sel
    case None => false
    case Some(Text(t)) => t != ""
    case Some(Many(_)) => true
  }

  /** The adjustment of the choice whose id is `id`, 0 when none matches. */
  function ChoiceAdjustment(choices: seq<Choice>, id: string): int {
    var c := Find(choices, (c: Choice) => c.choiceId == id);
    if c.Some? then c.value.priceAdjustment else 0
  }

  /**
   * What one group adds to the price: a text-input group with non-blank text
   * adds its flat fee (`priceAdjustment || 0`); otherwise a group with choices
   * and a truthy string selection adds the matching choice's adjustment;
   * anything else, an array selection included, adds nothing.
   */
  function GroupAdjustment(group: OptionGroup, selections: Selections): int {
    var sel := SelectionOf(group, selections);
    if group.groupType == TextInput && sel.Some? && sel.value.Text? && Trim(sel.value.text) != "" then
      IntOr(group.priceAdjustment, 0)
    else if group.choices.Some? && Truthy(sel) then
      match sel.value
      case Text(id) => ChoiceAdjustment(group.choices.value, id)
      case Many(_) => 0
    else 0
  }

  /** The sum of the adjustments of `groups`, in order. */
  function AdjustmentsTotal(groups: seq<OptionGroup>, selections: Selections): int {
    if groups == [] then 0
    else AdjustmentsTotal(groups[..|groups| - 1], selections) + GroupAdjustment(groups[|groups| - 1], selections)
  }

  /** With no selections, no group adds anything. */
  lemma {:induction false} NoSelectionsNoAdjustment(groups: seq<OptionGroup>)
    ensures AdjustmentsTotal(groups, map[]) == 0
    decreases |groups|
  {
    if groups != [] {
      NoSelectionsNoAdjustment(groups[..|groups| - 1]);
    }
  }

  /**
   * A text-input group adds its fee (0 when absent) when its trimmed text is
   * non-empty.  Without choices it adds nothing otherwise; with choices, a
   * blank but non-empty text falls through to the choice lookup.
   */
  lemma TextInputPricing(group: OptionGroup, selections: Selections)
    requires group.groupType == TextInput
    ensures group.groupKey in selections && selections[group.groupKey].Text?
            && Trim(selections[group.groupKey].text) != "" ==>
              GroupAdjustment(group, selections) == IntOr(group.priceAdjustment, 0)
    ensures group.choices.None?
            && !(group.groupKey in selections && selections[group.groupKey].Text?
                 && Trim(selections[group.groupKey].text) != "") ==>
              GroupAdjustment(group, selections) == 0
    ensures group.choices.Some? && group.groupKey in selections && selections[group.groupKey].Text?
            && selections[group.groupKey].text != "" && Trim(selections[group.groupKey].text) == "" ==>
              GroupAdjustment(group, selections) == ChoiceAdjustment(group.choices.value, selections[group.groupKey].text)
  {
  }

  /** `k` is the first position whose choice id is `id`. */
  predicate FirstMatch(choices: seq<Choice>, id: string, k: int) {
    0 <= k < |choices| && choices[k].choiceId == id && forall j :: 0 <= j < k ==> choices[j].choiceId != id
  }

  /**
   * A single-select group adds the adjustment of the first choice whose id
   * matches the selection, and nothing when no choice matches.
   */
  lemma SingleSelectPricing(group: OptionGroup, selections: Selections, id: string)
    requires group.groupType == SingleSelect && group.choices.Some?
    requires group.groupKey in selections && selections[group.groupKey] == Text(id) && id != ""
    ensures (forall k :: 0 <= k < |group.choices.value| ==> group.choices.value[k].choiceId != id) ==>
              GroupAdjustment(group, selections) == 0
    ensures forall k :: FirstMatch(group.choices.value, id, k) ==>
              GroupAdjustment(group, selections) == group.choices.value[k].priceAdjustment
  {
    var cs := group.choices.value;
    forall k | FirstMatch(cs, id, k)
      ensures GroupAdjustment(group, selections) == cs[k].priceAdjustment
    {
      FindFirst(cs, (c: Choice) => c.choiceId == id, k);
    }
  }

  /** An array (multi-select) selection never changes the price, whatever the group's type. */
  lemma ArraySelectionAddsNothing(group: OptionGroup, selections: Selections)
    requires group.groupKey in selections && selections[group.groupKey].Many?
    ensures GroupAdjustment(group, selections) == 0
  {
  }

  /** Every fee and choice adjustment of the groups is non-negative. */
  predicate NonNegativeAdjustments(groups: seq<OptionGroup>) {
    forall i :: 0 <= i < |groups| ==>
      (groups[i].priceAdjustment.Some? ==> groups[i].priceAdjustment.value >= 0)
      && (groups[i].choices.Some? ==>
            forall k :: 0 <= k < |groups[i].choices.value| ==> groups[i].choices.value[k].priceAdjustment >= 0)
  }

  /** With non-negative adjustments, the price never drops below the base price. */
  lemma {:induction false} AtLeastBasePrice(groups: seq<OptionGroup>, selections: Selections)
    requires NonNegativeAdjustments(groups)
    ensures AdjustmentsTotal(groups, selections) >= 0
    decreases |groups|
  {
    if groups != [] {
      var last := groups[|groups| - 1];
      assert NonNegativeAdjustments(groups[..|groups| - 1]) by {
        forall i | 0 <= i < |groups| - 1 ensures groups[..|groups| - 1][i] == groups[i] { }
      }
      AtLeastBasePrice(groups[..|groups| - 1], selections);
      var sel := SelectionOf(last, selections);
      if last.choices.Some? && Truthy(sel) && sel.value.Text? {
        var c := Find(last.choices.value, (c: Choice) => c.choiceId == sel.value.text);
        if c.Some? {
          var k :| 0 <= k < |last.choices.value| && last.choices.value[k] == c.value;
        }
      }
    }
  }

  /** A selection under a key no group uses never changes the price. */
  lemma {:induction false} UnusedKeyKeepsPrice(groups: seq<OptionGroup>, selections: Selections, key: string,
                                               value: SelectionValue)
    requires forall i :: 0 <= i < |groups| ==> groups[i].groupKey != key
    ensures AdjustmentsTotal(groups, selections[key := value]) == AdjustmentsTotal(groups, selections)
    decreases |groups|
  {
    if groups != [] {
      var last := groups[|groups| - 1];
      assert SelectionOf(last, selections[key := value]) == SelectionOf(last, selections);
      UnusedKeyKeepsPrice(groups[..|groups| - 1], selections, key, value);
    }
  }

  // ---------------------------------------------------------------------------
  // Validity

  /** A group is satisfied when it is optional, or its selection is defined and, if a string, not blank. */
  predicate GroupSatisfied(group: OptionGroup, selections: Selections) {
    !group.isMandatory ||
    (group.groupKey in selections
     && (selections[group.groupKey].Text? ==> Trim(selections[group.groupKey].text) != ""))
  }

  /** `groups.every(...)`, one group at a time from the front. */
  function AllMandatorySelected(groups: seq<OptionGroup>, selections: Selections): bool {
    groups == [] || (GroupSatisfied(groups[0], selections) && AllMandatorySelected(groups[1..], selections))
  }

  /** The `every` scan agrees with the statement about all groups. */
  lemma {:induction false} AllMandatorySelectedIff(groups: seq<OptionGroup>, selections: Selections)
    ensures AllMandatorySelected(groups, selections)
        <==> forall i :: 0 <= i < |groups| ==> GroupSatisfied(groups[i], selections)
    decreases |groups|
  {
    if groups != [] {
      AllMandatorySelectedIff(groups[1..], selections);
      assert forall i :: 1 <= i < |groups| ==> groups[i] == groups[1..][i - 1];
    }
  }

  /** Valid iff every mandatory group has a defined, non-blank selection and a date was picked. */
  predicate IsFormValid(groups: seq<OptionGroup>, selections: Selections, selectedDate: Option<Timestamp>) {
    AllMandatorySelected(groups, selections) && selectedDate.Some?
  }

  lemma FormValidIff(groups: seq<OptionGroup>, selections: Selections, selectedDate: Option<Timestamp>)
    ensures IsFormValid(groups, selections, selectedDate)
        <==> (forall i :: 0 <= i < |groups| && groups[i].isMandatory ==>
                groups[i].groupKey in selections
                && (selections[groups[i].groupKey].Text? ==> Trim(selections[groups[i].groupKey].text) != ""))
             && selectedDate.Some?
  {
    AllMandatorySelectedIff(groups, selections);
  }

  // ---------------------------------------------------------------------------
  // Form state

  /** The order item the submit handler builds. */
  datatype CakeOrderItem = CakeOrderItem(
    productSlug: string,
    productName: string,
    finalPrice: int,
    selections: Selections,
    schedule: Timestamp)

  class Form {
    const product: CustomizableProduct
    var selections: Selections
    var selectedDate: Option<Timestamp>

    constructor(product: CustomizableProduct)
      ensures this.product == product && selections == map[] && selectedDate == None
    {
      this.product := product;
      selections := map[];
      selectedDate := None;
    }

    /** The price shown: the base price plus every group's adjustment. */
    function Price(): int
      reads this
    {
      product.basePrice + AdjustmentsTotal(product.customizationGroups, selections)
    }

    /** `isFormValid` of the current state. */
    predicate FormValid()
      reads this
    {
      IsFormValid(product.customizationGroups, selections, selectedDate)
    }

    /** The `forEach` loop that accumulates the price. */
    method ComputeFinalPrice() returns (price: int)
      ensures price == Price()
    {
      var groups := product.customizationGroups;
      price := product.basePrice;
      for i := 0 to |groups|
        invariant price == product.basePrice + AdjustmentsTotal(groups[..i], selections)
      {
        assert groups[..i + 1][..i] == groups[..i];
        price := price + GroupAdjustment(groups[i], selections);
      }
      assert groups[..|groups|] == groups;
    }

    /** `handleSelectionChange`: the one key takes the new text, every other key keeps its value. */
    method SelectionChange(groupKey: string, value: string)
      modifies this
      ensures selections == old(selections)[groupKey := Text(value)]
      ensures selectedDate == old(selectedDate)
    {
      selections := selections[groupKey := Text(value)];
    }

    /** The picker's `onDateSelect` callback. */
    method DateSelect(date: Option<Timestamp>)
      modifies this
      ensures selectedDate == date && selections == old(selections)
    {
      selectedDate := date;
    }

    /** `handleSubmit`: no order item while the form is invalid; otherwise the item at the current price. */
    method Submit() returns (item: Option<CakeOrderItem>)
      ensures item.None? <==> !FormValid()
      ensures item.Some? ==> item.value == CakeOrderItem(product.slug, product.name, Price(), selections, selectedDate.value)
    {
      if !IsFormValid(product.customizationGroups, selections, selectedDate) {
        return None;
      }
      var price := ComputeFinalPrice();
      item := Some(CakeOrderItem(product.slug, product.name, price, selections, selectedDate.value));
    }
  }
}
