/** The confirmation screen's "New Transaction" button (the same action is dispatched by the
    button shown when there is no draft). */
module TransactionConfirmation {
  import opened Wrappers
  import opened TransactionSlice

  method HandleNewTransaction(state: TransactionState)
    modifies state
    ensures state.currentStep == Form && state.currentTransaction == None
    ensures state.transactions == old(state.transactions)
    ensures state.loading == old(state.loading) && state.error == old(state.error)
  {
    state.ResetTransaction();
  }
}
