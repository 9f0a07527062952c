/** Runs of the whole flow, driven only through the screens' event handlers, showing what their
    contracts let a caller conclude. */
module Workflow {
  import opened Wrappers
  import opened TransactionSlice
  import TransactionForm
  import TransactionReview
  import TransactionConfirmation

  /** Submit, confirm, start over: one entry lands in the history and survives the reset. */
  method SubmitConfirmReset(values: TransactionData, idClockMs: nat, timestampClockMs: nat)
    returns (state: TransactionState)
    requires TransactionForm.Accepts(values)
    ensures state.currentStep == Form && state.currentTransaction == None
    ensures state.transactions == [NewTransaction(values, idClockMs, timestampClockMs)]
  {
    state := new TransactionState();
    var submitted := TransactionForm.Submit(state, true, values, idClockMs, timestampClockMs);
    assert submitted && state.currentStep == Review;
    TransactionReview.HandleConfirm(state);
    assert state.currentStep == Confirmation;
    assert state.currentTransaction.Some? && DataOf(state.currentTransaction.value) == values;
    TransactionConfirmation.HandleNewTransaction(state);
  }

  /** A form with an amount of 0 is not submitted: no draft, still on the form step. */
  method ZeroAmountBlocked(values: TransactionData, idClockMs: nat, timestampClockMs: nat)
    returns (state: TransactionState, submitted: bool)
    requires values.destinationAmount == 0.0
    ensures !submitted
    ensures state.currentStep == Form && state.currentTransaction == None && state.transactions == []
  {
    state := new TransactionState();
    TransactionForm.AcceptsIff(values);
    submitted := TransactionForm.Submit(state, true, values, idClockMs, timestampClockMs);
  }

  /** Going back from review and submitting again replaces the draft; the history is untouched
      and a later confirmation appends only the new draft. */
  method BackAndResubmit(first: TransactionData, second: TransactionData, clock1: nat, clock2: nat)
    returns (state: TransactionState, restored: TransactionData)
    requires TransactionForm.Accepts(first) && TransactionForm.Accepts(second)
    ensures restored == first
    ensures state.transactions == [NewTransaction(second, clock2, clock2)]
    ensures state.currentStep == Confirmation
  {
    state := new TransactionState();
    var ok := TransactionForm.Submit(state, true, first, clock1, clock1);
    TransactionReview.HandleBack(state);
    restored := TransactionForm.DefaultValues(state.currentTransaction);
    ok := TransactionForm.Submit(state, true, second, clock2, clock2);
    TransactionReview.HandleConfirm(state);
  }
}
