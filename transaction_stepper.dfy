/** The progress indicator above the flow: one circle per step, with a connector line after
    every step but the last. */
module TransactionStepper {
  import opened Wrappers
  import opened TransactionSlice

  datatype StepEntry = StepEntry(key: TransactionStep, caption: string)

  /** The `steps` table. */
  const Steps: seq<StepEntry> := [
    StepEntry(Form, "Details"),
    StepEntry(Review, "Review"),
    StepEntry(Confirmation, "Confirmation")
  ]

  /** Where a step sits in the linear flow. */
  function Position(step: TransactionStep): nat {
    match step
    case Form => 0
    case Review => 1
    case Confirmation => 2
  }

  predicate IsActive(currentStep: TransactionStep, index: nat)
    requires index < |Steps|
  {
    currentStep == Steps[index].key
  }

  predicate IsCompleted(currentStep: TransactionStep, index: nat) {
    (currentStep == Review && index == 0) || currentStep == Confirmation
  }

  predicate HasConnector(index: nat) {
    index < |Steps| - 1
  }

  predicate ConnectorHighlighted(currentStep: TransactionStep, index: nat)
    requires index < |Steps|
  {
    (IsActive(currentStep, index) && index == 0) || IsCompleted(currentStep, index)
  }

  /** What one step of the indicator shows: its label, its number, whether it is active and
      completed, and the connector after it (absent after the last step; otherwise
      highlighted or not). */
  datatype StepView = StepView(caption: string, number: nat, active: bool, completed: bool, connector: Option<bool>)

  function ViewStep(currentStep: TransactionStep, index: nat): StepView
    requires index < |Steps|
  {
    StepView(Steps[index].caption, index + 1, IsActive(currentStep, index), IsCompleted(currentStep, index),
             if HasConnector(index) then Some(ConnectorHighlighted(currentStep, index)) else None)
  }

  /** `steps.map(...)`. The steps are Details, Review, Confirmation, in flow order; exactly the
      current step is active; the steps before the current one are completed, and on the
      confirmation step all three are; connectors follow the first two steps, the first is
      always highlighted and the second only on the confirmation step. */
  function Render(currentStep: TransactionStep): (views: seq<StepView>)
    ensures |views| == 3
    ensures views[0].caption == "Details" && views[1].caption == "Review" && views[2].caption == "Confirmation"
    ensures forall i | 0 <= i < 3 :: views[i].number == i + 1
    ensures forall i | 0 <= i < 3 :: views[i].active <==> i == Position(currentStep)
    ensures forall i | 0 <= i < 3 :: views[i].completed <==> i < Position(currentStep) || currentStep == Confirmation
    ensures forall i | 0 <= i < 3 :: views[i].connector.Some? <==> i < 2
    ensures forall i | 0 <= i < 2 :: views[i].connector.value <==> i == 0 || currentStep == Confirmation
  {
    seq(|Steps|, i requires 0 <= i < |Steps| => ViewStep(currentStep, i))
  }

  /** The table lists every step once, at its position in the flow. */
  lemma StepsInFlowOrder(step: TransactionStep)
    ensures Position(step) < |Steps| && Steps[Position(step)].key == step
    ensures forall i | 0 <= i < |Steps| :: Steps[i].key == step ==> i == Position(step)
  {
  }
}
