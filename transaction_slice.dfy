/** The transaction workflow store: the current step of the three-step flow, the draft
    transaction, the history of confirmed transactions, and the loading and error flags.
    Each reducer updates the state in place. */
module TransactionSlice {
  import opened Wrappers
  import Decimal

  datatype TransactionStep = Form | Review | Confirmation

  /** The five fields the form collects: a transaction without `id` and `timestamp`. */
  datatype TransactionData = TransactionData(
    networkChain: string,
    destinationAddress: string,
    destinationAmount: real,
    destinationTokenName: string,
    originTokenName: string)

  datatype Transaction = Transaction(
    id: string,
    networkChain: string,
    destinationAddress: string,
    destinationAmount: real,
    destinationTokenName: string,
    originTokenName: string,
    timestamp: int)

  /** The five form fields of a transaction. */
  function DataOf(t: Transaction): TransactionData {
    TransactionData(t.networkChain, t.destinationAddress, t.destinationAmount, t.destinationTokenName, t.originTokenName)
  }

  /** The draft `setTransactionData` stores: the payload spread in, the id the decimal text of
      one clock reading and the timestamp a second reading. */
  function NewTransaction(data: TransactionData, idClockMs: nat, timestampClockMs: nat): (t: Transaction)
    ensures DataOf(t) == data
  {
    Transaction(Decimal.NatToString(idClockMs), data.networkChain, data.destinationAddress,
                data.destinationAmount, data.destinationTokenName, data.originTokenName, timestampClockMs)
  }

  /** Drafts made at different clock readings have different ids, and every id is non-empty;
      two drafts made within the same millisecond share an id. */
  lemma DraftIds(data: TransactionData, data': TransactionData, idClockMs: nat, idClockMs': nat, ts: nat, ts': nat)
    ensures NewTransaction(data, idClockMs, ts).id != ""
    ensures NewTransaction(data, idClockMs, ts).id == NewTransaction(data', idClockMs', ts').id <==> idClockMs == idClockMs'
  {
    Decimal.NatToStringInjective(idClockMs, idClockMs');
  }

  class TransactionState {
    var currentStep: TransactionStep
    var currentTransaction: Option<Transaction>
    var transactions: seq<Transaction>
    var loading: bool
    var error: Option<string>

    /** No reducer removes or rewrites a history entry: the old history is a prefix of the new. */
    twostate predicate HistoryPreserved()
      reads this
    {
      old(transactions) <= transactions
    }

    /** `initialState`. */
    constructor ()
      ensures currentStep == Form && currentTransaction == None && transactions == []
      ensures !loading && error == None
    {
      currentStep := Form;
      currentTransaction := None;
      transactions := [];
      loading := false;
      error := None;
    }

    /** Any step can be reached from any step; nothing else changes. */
    method SetStep(step: TransactionStep)
      modifies this
      ensures HistoryPreserved()
      ensures currentStep == step
      ensures currentTransaction == old(currentTransaction) && transactions == old(transactions)
      ensures loading == old(loading) && error == old(error)
    {
      currentStep := step;
    }

    /** Replaces the draft; the step and the history stay as they are. */
    method SetTransactionData(data: TransactionData, idClockMs: nat, timestampClockMs: nat)
      modifies this
      ensures HistoryPreserved()
      ensures currentTransaction.Some? && DataOf(currentTransaction.value) == data
      ensures currentTransaction.value.id == Decimal.NatToString(idClockMs)
      ensures currentTransaction.value.timestamp == timestampClockMs
      ensures currentStep == old(currentStep) && transactions == old(transactions)
      ensures loading == old(loading) && error == old(error)
    {
      currentTransaction := Some(NewTransaction(data, idClockMs, timestampClockMs));
    }

    /** With a draft: appends it to the history, keeping every earlier entry, and moves to the
        confirmation step; the draft stays for the confirmation screen. Without one: no change. */
    method ConfirmTransaction()
      modifies this
      ensures HistoryPreserved()
      ensures old(currentTransaction).Some? ==>
        transactions == old(transactions) + [old(currentTransaction).value] && currentStep == Confirmation
      ensures old(currentTransaction).None? ==>
        transactions == old(transactions) && currentStep == old(currentStep)
      ensures currentTransaction == old(currentTransaction)
      ensures loading == old(loading) && error == old(error)
    {
      if currentTransaction.Some? {
        transactions := transactions + [currentTransaction.value];
        currentStep := Confirmation;
      }
    }

    /** Drops the draft and returns to the form; the history is kept. */
    method ResetTransaction()
      modifies this
      ensures HistoryPreserved()
      ensures currentTransaction == None && currentStep == Form
      ensures transactions == old(transactions)
      ensures loading == old(loading) && error == old(error)
    {
      currentTransaction := None;
      currentStep := Form;
    }

    method SetLoading(value: bool)
      modifies this
      ensures HistoryPreserved()
      ensures loading == value
      ensures currentStep == old(currentStep) && currentTransaction == old(currentTransaction)
      ensures transactions == old(transactions) && error == old(error)
    {
      loading := value;
    }

    method SetError(value: Option<string>)
      modifies this
      ensures HistoryPreserved()
      ensures error == value
      ensures currentStep == old(currentStep) && currentTransaction == old(currentTransaction)
      ensures transactions == old(transactions) && loading == old(loading)
    {
      error := value;
    }
  }
}
