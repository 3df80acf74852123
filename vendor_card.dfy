/** One vendor's card: the landlord picks one of the vendor's slots with a radio button,
    and the select button hands the vendor and the chosen slot to `onSelect`. */
module VendorCard {
  import opened Types

  /** Whether the radio button for `slot` is checked. */
  predicate Checked(selected: Option<string>, slot: string) {
    selected == Some(slot)
  }

  /** The select button is disabled while no slot (or an empty slot name) is chosen. */
  predicate ButtonDisabled(selected: Option<string>) {
    !(selected.Some? && selected.value != "")
  }

  /** What a click on the select button does: the `onSelect` call it makes, if any. */
  function SelectClick(vendor: Vendor, selected: Option<string>): (r: Option<(Vendor, string)>)
    ensures r.Some? <==> !ButtonDisabled(selected)
    ensures r.Some? ==> r.value.0 == vendor && Some(r.value.1) == selected && r.value.1 != ""
  {
    if selected.Some? && selected.value != "" then Some((vendor, selected.value)) else None
  }

  /** Checked buttons all carry the chosen slot's name: at most one slot name is checked. */
  lemma AtMostOneChecked(selected: Option<string>, a: string, b: string)
    requires Checked(selected, a) && Checked(selected, b)
    ensures a == b
  {
  }

  /** A slot name that the vendor offers and the landlord picked is what `onSelect`
      receives. */
  lemma ChosenSlotIsSelected(vendor: Vendor, k: nat)
    requires k < |vendor.availableSlots| && vendor.availableSlots[k] != ""
    ensures SelectClick(vendor, Some(vendor.availableSlots[k])) == Some((vendor, vendor.availableSlots[k]))
    ensures Checked(Some(vendor.availableSlots[k]), vendor.availableSlots[k])
  {
  }

  /** The card's state: the vendor it shows and the slot chosen so far. */
  class Card {
    const vendor: Vendor
    var selectedSlot: Option<string>

    /** The chosen slot is one of the vendor's slots. */
    predicate Valid()
      reads this
    {
      selectedSlot.Some? ==> selectedSlot.value in vendor.availableSlots
    }

    constructor (v: Vendor)
      ensures vendor == v && selectedSlot == None && Valid()
    {
      vendor := v;
      selectedSlot := None;
    }

    /** A radio button's `onChange`: the slot it stands for becomes the chosen one. */
    method ChooseSlot(slot: string)
      requires slot in vendor.availableSlots
      modifies this
      ensures selectedSlot == Some(slot) && Valid()
    {
      selectedSlot := Some(slot);
    }

    /** The select button's `onClick`: the call to `onSelect`, if any; the card does not
        change. */
    method Click() returns (call: Option<(Vendor, string)>)
      requires Valid()
      ensures call == SelectClick(vendor, selectedSlot)
      ensures call.Some? ==> call.value.1 in vendor.availableSlots
    {
      if selectedSlot.Some? && selectedSlot.value != "" {
        call := Some((vendor, selectedSlot.value));
      } else {
        call := None;
      }
    }
  }
}
