// The stock movement form (src/components/inventory/StockMovementModal.tsx):
// the submit guard, the mapping of an adjustment onto an entry or an exit, and
// the form reset after a successful insert. `parseFloat` of the quantity field
// is passed in already parsed; the insert's result is a parameter.
module StockMovement {
  import opened Wrappers

  /** The form's movement type. */
  datatype MovementType = Entry | Exit | Adjustment

  datatype AdjustmentType = Add | Remove

  /** The types the stock trigger understands, the only ones ever inserted. */
  datatype StoredType = StoredEntry | StoredExit

  datatype Movement = Movement(productId: string, kind: StoredType, quantity: real, reason: string)

  const AdjustmentPrefix := "Ajuste: "

  /** finalType and finalReason. */
  function FinalTypeAndReason(t: MovementType, adjustment: AdjustmentType, reason: string): (r: (StoredType, string))
    ensures t == Entry ==> r == (StoredEntry, reason)
    ensures t == Exit ==> r == (StoredExit, reason)
    ensures t == Adjustment ==> r.1 == AdjustmentPrefix + reason
    ensures t == Adjustment ==> (r.0 == StoredEntry <==> adjustment == Add)
  {
    match t
    case Entry => (StoredEntry, reason)
    case Exit => (StoredExit, reason)
    case Adjustment => (if adjustment == Add then StoredEntry else StoredExit, AdjustmentPrefix + reason)
  }

  /** An adjustment can be told apart afterwards by its reason; the original reason is the
    * rest of it. */
  lemma AdjustmentReasonRecoverable(adjustment: AdjustmentType, reason: string)
    ensures var r := FinalTypeAndReason(Adjustment, adjustment, reason).1;
      |r| >= |AdjustmentPrefix| && r[..|AdjustmentPrefix|] == AdjustmentPrefix && r[|AdjustmentPrefix|..] == reason
  {
  }

  class Modal {
    var movementType: MovementType
    var quantity: string
    var reason: string
    var adjustmentType: AdjustmentType
    var loading: bool

    constructor ()
      ensures movementType == Entry && quantity == "" && reason == "" && adjustmentType == Add && !loading
    {
      movementType := Entry;
      quantity := "";
      reason := "";
      adjustmentType := Add;
      loading := false;
    }

    /** handleSubmit. Returns the inserted row, if the insert was issued and succeeded. */
    method HandleSubmit(hasCompany: bool, productId: string, parsedQuantity: real, insertError: Option<string>)
      returns (saved: Option<Movement>, issued: bool)
      modifies this
      ensures issued <==> hasCompany && old(quantity) != "" && old(reason) != ""
      ensures !issued ==>
        && saved.None? && movementType == old(movementType) && quantity == old(quantity)
        && reason == old(reason) && loading == old(loading)
      ensures issued ==> !loading && adjustmentType == old(adjustmentType)
      ensures issued && insertError.None? ==>
        && saved == Some(Movement(productId,
             FinalTypeAndReason(old(movementType), old(adjustmentType), old(reason)).0, parsedQuantity,
             FinalTypeAndReason(old(movementType), old(adjustmentType), old(reason)).1))
        && movementType == Entry && quantity == "" && reason == ""
      ensures issued && insertError.Some? ==>
        && saved.None? && movementType == old(movementType) && quantity == old(quantity) && reason == old(reason)
    {
      saved := None;
      issued := false;
      if !hasCompany || quantity == "" || reason == "" {
        return;
      }
      issued := true;
      loading := true;
      var finalType := StoredEntry;
      var finalReason := reason;
      if movementType == Adjustment {
        finalType := if adjustmentType == Add then StoredEntry else StoredExit;
        finalReason := AdjustmentPrefix + reason;
      } else if movementType == Exit {
        finalType := StoredExit;
      }
      if insertError.None? {
        saved := Some(Movement(productId, finalType, parsedQuantity, finalReason));
        quantity := "";
        reason := "";
        movementType := Entry;
      }
      loading := false;
    }
  }
}
