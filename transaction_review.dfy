/** The review screen's two buttons. The "Back to Form" button shown when there is no draft
    dispatches the same action as "Back". */
module TransactionReview {
  import opened TransactionSlice

  /** "Back": returns to the form, keeping the draft so the form starts from it. */
  method HandleBack(state: TransactionState)
    modifies state
    ensures state.currentStep == Form
    ensures state.currentTransaction == old(state.currentTransaction) && state.transactions == old(state.transactions)
    ensures state.loading == old(state.loading) && state.error == old(state.error)
  {
    state.SetStep(Form);
  }

  /** "Confirm": records the draft in the history and shows the confirmation step. */
  method HandleConfirm(state: TransactionState)
    modifies state
    ensures old(state.currentTransaction).Some? ==>
      && state.transactions == old(state.transactions) + [old(state.currentTransaction).value]
      && state.currentStep == Confirmation
    ensures old(state.currentTransaction).None? ==>
      state.transactions == old(state.transactions) && state.currentStep == old(state.currentStep)
    ensures state.currentTransaction == old(state.currentTransaction)
    ensures state.loading == old(state.loading) && state.error == old(state.error)
  {
    state.ConfirmTransaction();
  }
}
