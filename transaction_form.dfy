/** The transfer form: its validation schema, the values it starts from, and what a valid
    submission does to the store. */
module TransactionForm {
  import opened Wrappers
  import opened TransactionSlice

  datatype Field = NetworkChain | DestinationAddress | DestinationAmount | DestinationTokenName | OriginTokenName

  /** A schema rule: a string length range, or a lower bound on the coerced number. Both bounds
      are inclusive. */
  datatype Rule = StringLength(minLength: nat, maxLength: nat) | NumberMin(minValue: real)

  /** `formSchema`: one rule per field. */
  function RuleFor(field: Field): Rule {
    match field
    case NetworkChain => StringLength(2, 50)
    case DestinationAddress => StringLength(2, 50)
    case DestinationAmount => NumberMin(0.01)
    case DestinationTokenName => StringLength(2, 50)
    case OriginTokenName => StringLength(2, 50)
  }

  datatype FieldValue = Text(text: string) | Number(number: real)

  function ValueOf(values: TransactionData, field: Field): FieldValue {
    match field
    case NetworkChain => Text(values.networkChain)
    case DestinationAddress => Text(values.destinationAddress)
    case DestinationAmount => Number(values.destinationAmount)
    case DestinationTokenName => Text(values.destinationTokenName)
    case OriginTokenName => Text(values.originTokenName)
  }

  predicate Satisfies(value: FieldValue, rule: Rule) {
    match rule
    case StringLength(min, max) => value.Text? && min <= |value.text| <= max
    case NumberMin(min) => value.Number? && value.number >= min
  }

  /** The fields that get an error message. */
  function Issues(values: TransactionData): set<Field> {
    set f: Field | !Satisfies(ValueOf(values, f), RuleFor(f))
  }

  /** The schema accepts the values when no field has an issue; only then is `onSubmit` run. */
  predicate Accepts(values: TransactionData) {
    Issues(values) == {}
  }

  /** The schema, field by field: four strings of 2 to 50 characters and an amount of at
      least 0.01. */
  lemma AcceptsIff(values: TransactionData)
    ensures Accepts(values) <==>
      && 2 <= |values.networkChain| <= 50
      && 2 <= |values.destinationAddress| <= 50
      && values.destinationAmount >= 0.01
      && 2 <= |values.destinationTokenName| <= 50
      && 2 <= |values.originTokenName| <= 50
  {
    if Accepts(values) {
      forall f: Field ensures Satisfies(ValueOf(values, f), RuleFor(f)) {
        assert f !in Issues(values);
      }
      assert Satisfies(ValueOf(values, NetworkChain), RuleFor(NetworkChain));
      assert Satisfies(ValueOf(values, DestinationAddress), RuleFor(DestinationAddress));
      assert Satisfies(ValueOf(values, DestinationAmount), RuleFor(DestinationAmount));
      assert Satisfies(ValueOf(values, DestinationTokenName), RuleFor(DestinationTokenName));
      assert Satisfies(ValueOf(values, OriginTokenName), RuleFor(OriginTokenName));
    }
  }

  /** The values the form starts from: the draft's fields when there is a draft, otherwise
      empty strings and an amount of 0. */
  function DefaultValues(currentTransaction: Option<Transaction>): (values: TransactionData)
    ensures currentTransaction.Some? ==> values == DataOf(currentTransaction.value)
    ensures currentTransaction.None? ==> values == TransactionData("", "", 0.0, "", "")
  {
    match currentTransaction
    case Some(t) => TransactionData(t.networkChain, t.destinationAddress, t.destinationAmount,
                                    t.destinationTokenName, t.originTokenName)
    case None => TransactionData("", "", 0.0, "", "")
  }

  /** Without a draft every field of the starting values is in error, so an untouched form
      cannot be submitted. */
  lemma EmptyDefaultsRejected()
    ensures Issues(DefaultValues(None)) == {NetworkChain, DestinationAddress, DestinationAmount, DestinationTokenName, OriginTokenName}
    ensures !Accepts(DefaultValues(None))
  {
    assert NetworkChain in Issues(DefaultValues(None));
    assert DestinationAddress in Issues(DefaultValues(None));
    assert DestinationAmount in Issues(DefaultValues(None));
    assert DestinationTokenName in Issues(DefaultValues(None));
    assert OriginTokenName in Issues(DefaultValues(None));
  }

  /** The submit button exists only while a wallet is connected, and the resolver runs
      `onSubmit` only on values the schema accepts. `onSubmit` then stores the values as the
      draft and moves to review. */
  method Submit(state: TransactionState, isConnected: bool, values: TransactionData,
                idClockMs: nat, timestampClockMs: nat) returns (submitted: bool)
    modifies state
    ensures submitted <==> isConnected && Accepts(values)
    ensures submitted ==>
      && state.currentTransaction == Some(NewTransaction(values, idClockMs, timestampClockMs))
      && state.currentStep == Review
    ensures !submitted ==>
      state.currentTransaction == old(state.currentTransaction) && state.currentStep == old(state.currentStep)
    ensures state.transactions == old(state.transactions)
    ensures state.loading == old(state.loading) && state.error == old(state.error)
  {
    submitted := isConnected && Accepts(values);
    if submitted {
      state.SetTransactionData(values, idClockMs, timestampClockMs);
      state.SetStep(Review);
    }
  }
}
