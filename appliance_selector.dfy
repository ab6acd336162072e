/**
 * The quantity stepper of one catalog appliance. Each button proposes a new
 * quantity to the owner of the selection, or proposes nothing.
 */
module ApplianceSelector {
  import opened Wrappers

  /** handleIncrement: the quantity one higher is proposed. */
  function Increment(quantity: int): (proposed: int)
    ensures proposed > quantity
  {
    quantity + 1
  }

  /** handleDecrement: one lower is proposed only while the quantity is positive; otherwise nothing. */
  function Decrement(quantity: int): (proposed: Option<int>)
    ensures proposed.Some? <==> quantity > 0
    ensures proposed.Some? ==> 0 <= proposed.value < quantity
  {
    if quantity > 0 then Some(quantity - 1) else None
  }

  /** Decrement undoes Increment from any non-negative quantity. */
  lemma DecrementUndoesIncrement(quantity: int)
    requires quantity >= 0
    ensures Decrement(Increment(quantity)) == Some(quantity)
  {
  }

  /** Increment undoes a Decrement that took place. */
  lemma IncrementUndoesDecrement(quantity: int)
    requires quantity > 0
    ensures Decrement(quantity).Some? && Increment(Decrement(quantity).value) == quantity
  {
  }

  datatype Press = IncrementPress | DecrementPress

  /** The quantity after one press: a proposal replaces it, no proposal leaves it as it was. */
  function Step(quantity: int, press: Press): int {
    match press
    case IncrementPress => Increment(quantity)
    case DecrementPress =>
      match Decrement(quantity)
      case Some(q) => q
      case None => quantity
  }

  /** The quantity after a sequence of presses, first press first. */
  function Run(quantity: int, presses: seq<Press>): int
    decreases |presses|
  {
    if presses == [] then quantity else Run(Step(quantity, presses[0]), presses[1..])
  }

  function CountIncrements(presses: seq<Press>): nat {
    if presses == [] then 0 else (if presses[0] == IncrementPress then 1 else 0) + CountIncrements(presses[1..])
  }

  /**
   * From a non-negative quantity no sequence of presses reaches a negative one,
   * and the result is at most the start plus the number of increments.
   */
  lemma {:induction false} RunStaysNonNegative(quantity: int, presses: seq<Press>)
    requires quantity >= 0
    ensures 0 <= Run(quantity, presses) <= quantity + CountIncrements(presses)
    decreases |presses|
  {
    if presses != [] {
      RunStaysNonNegative(Step(quantity, presses[0]), presses[1..]);
    }
  }

  /** A decrement at 0 (the disabled button) leaves the quantity at 0. */
  lemma {:induction false} DecrementsAtZero(presses: seq<Press>)
    requires forall i :: 0 <= i < |presses| ==> presses[i] == DecrementPress
    ensures Run(0, presses) == 0
  {
    if presses != [] {
      DecrementsAtZero(presses[1..]);
    }
  }
}
