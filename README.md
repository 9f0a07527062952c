# BridgePay front end: a Dafny model of its transfer workflow

BridgePay's browser front end takes a user through three steps. The user fills in a
cross-token transfer form, reviews it, and confirms it. The front end estimates amounts from
USD prices given by the CoinGecko API. It also prepares two wallet calls: an ERC-20 `approve`
that lets the bridge contract spend a token, and the bridge contract's `bridgeTransfer`.
This project models the logic behind that flow and proves properties of it:

- `TransactionSlice` (`transaction_slice.dfy`): the workflow store. It is a class whose fields
  the reducers update in place: the current step (`Form`, `Review`, `Confirmation`), the draft
  transaction, the append-only history, and the `loading` and `error` flags.
- `TransactionForm`, `TransactionReview`, `TransactionConfirmation`: the screen events that
  drive the store. Form submit stores the draft and moves to review. Review "Back" returns to
  the form, and "Confirm" confirms the draft. Confirmation "New Transaction" resets. The form
  module also holds the validation schema and the values the form starts from.
- `TransactionStepper`: the progress indicator as a pure function of the current step.
- `RateService`: the symbol-to-coin-id filter, the price table built from the API response,
  the exchange rate, and the two amount estimates.
- `ContractInteraction` and `SupportedTokens`: the token registry, the exact-key lookups that
  fail with `Token <name> not supported`, the 30-minute deadline, and the request objects
  handed to the wallet writer.
- `Decimal`: the decimal text of a non-negative integer. The store uses it for
  `Date.now().toString()` and the price service for the HTTP status in its error message.
- `Workflow`: three scenario methods that drive the event handlers and are verified against
  the handlers' contracts (submit, confirm and reset; a zero amount is blocked; back and
  resubmit).

Foreign and effectful code becomes parameters:
- The price API fetch is a function from request URL to `FetchOutcome`. The outcome is a
  rejected fetch, or a response with its `ok` flag, its status, and its parsed JSON body (or
  the parse error).
- viem's `parseUnits` is a `UnitParser` that returns a base-unit integer or an error.
- `writeContractAsync` is a `ContractWriter` that returns a transaction hash or an error.
- Each `Date.now()` reading is a method or function parameter. `setTransactionData` reads the
  clock twice, once for the id and once for the timestamp, so it takes two readings.

Facts about the code that shape the model:
- The minimum amount is 0.01, inclusive, as `formSchema` writes it (`min(0.01)`).
- A draft id is the decimal text of a clock reading, so ids are unique only across distinct
  milliseconds (`DraftIds` proves both directions).
- Confirming does not call either contract. The review screen's "Confirm" only dispatches
  `confirmTransaction`, and no screen calls `approveToken` or `executeBridgeTransfer`, so no
  call sequence of the two is modelled.
- The tokens the form offers (`ETH`, `USDT`, `IDRX`, `wBTC`) are not registry keys, so every
  contract lookup on them fails (`FormSymbolsNotSupported`). Among them, only `ETH` has a
  CoinGecko id.

## Model

| member | source | states |
|---|---|---|
| Decimal.NatToString | src/lib/features/transaction/transactionSlice.ts:48 | the text of a clock reading is a non-empty string of decimal digits with no leading zero |
| Decimal.DigitsValueOfNatToString | src/lib/features/transaction/transactionSlice.ts:48 | reading the decimal text back gives the number it was made from |
| Decimal.NatToStringInjective | src/lib/features/transaction/transactionSlice.ts:48 | two numbers have the same decimal text iff they are equal |
| SupportedTokens.RegistryWellFormed | src/lib/constants/supportedTokens.ts:1-10 | the registry holds exactly two entries, `WETH` with 18 decimals and `USDC` with 6, no symbol twice, and each address is forty hex digits |
| SupportedTokens.BareAddressHasNoPrefix | src/lib/constants/supportedTokens.ts:3 | a registry address has no `0x` prefix, so the prefix must be added where it is used |
| ContractInteraction.FindEntry | src/lib/features/transaction/contractInteraction.ts:76-78 | the result is the first entry whose key equals the name exactly, and it is absent iff no key equals the name |
| ContractInteraction.GetTokenAddressByName | src/lib/features/transaction/contractInteraction.ts:75-85 | a failed lookup fails with `Token <name> not supported` |
| ContractInteraction.GetTokenDecimalsByName | src/lib/features/transaction/contractInteraction.ts:87-97 | a failed lookup fails with `Token <name> not supported` |
| ContractInteraction.LookupMatchesRegistry | src/lib/features/transaction/contractInteraction.ts:75-97 | both lookups succeed iff the name is `WETH` or `USDC`, and then they return that entry's address and decimals |
| ContractInteraction.FormSymbolsNotSupported | src/components/partials/transaction-form.tsx:135-138 | lookups are case-sensitive (`weth`, `usdc` fail), and every token symbol the form offers fails with the not-supported message |
| ContractInteraction.Deadline | src/lib/features/transaction/contractInteraction.ts:48 | the deadline is the clock reading rounded down to whole seconds, plus 1800 seconds |
| ContractInteraction.ApproveRequest | src/lib/features/transaction/contractInteraction.ts:20-25 | the approve request goes to `0x` + the token's address through the ERC-20 interface, and its arguments read as spender = bridge contract address, amount = the parsed amount |
| ContractInteraction.ApproveTargetsRegisteredToken | src/lib/features/transaction/contractInteraction.ts:21 | for `WETH` and `USDC` the approve request goes to `0x` + that token's registry address, a well-formed 42-character address |
| ContractInteraction.ApproveToken | src/lib/features/transaction/contractInteraction.ts:13-30 | a parse error is rethrown unchanged; otherwise exactly one approve write is issued and its result or error is returned unchanged |
| ContractInteraction.BridgeTransferRequest | src/lib/features/transaction/contractInteraction.ts:50-61 | the request goes to the bridge contract's `bridgeTransfer`, and its arguments read in order as recipient, source token, destination token, source amount, minimum amount, deadline |
| ContractInteraction.ExecuteBridgeTransfer | src/lib/features/transaction/contractInteraction.ts:32-67 | the source amount is parsed first and the minimum second; the first parse error is rethrown unchanged; otherwise one transfer write with the clock's deadline is issued and its outcome returned unchanged |
| RateService.ValidTokens | src/lib/services/rateService.ts:13 | a symbol is kept iff it was requested and has a coin id (`ETH`, `WETH`, `USDC`) |
| RateService.ValidTokensAppend | src/lib/services/rateService.ts:13 | the filter keeps the requested order: filtering a concatenation is the concatenation of the filtered parts |
| RateService.ValidTokensPair | src/lib/services/rateService.ts:13 | for the exchange rate's pair, the kept symbols are the mapped ones among source and destination, source first |
| RateService.CoinIds | src/lib/services/rateService.ts:14-15 | the ids are the coin ids of the kept symbols, position by position |
| RateService.JoinEmptyIff | src/lib/services/rateService.ts:16-18 | the joined id list is empty iff no symbol was kept |
| RateService.NoMappedTokenNoValid | src/lib/services/rateService.ts:13 | when no requested symbol has a coin id, nothing is kept |
| RateService.NoMappedTokenNoFetch | src/lib/services/rateService.ts:18 | when no requested symbol has a coin id, the result is the empty map whatever the API would answer |
| RateService.CollectPrices | src/lib/services/rateService.ts:30-36 | the loop leaves exactly the price table: an entry per kept symbol whose coin has a non-zero `usd`, and no other |
| RateService.GetTokenPrices | src/lib/services/rateService.ts:9-43 | the loop over the kept symbols produces exactly the price table the spec function `TokenPrices` describes, and the same errors |
| RateService.TokenPricesContents | src/lib/services/rateService.ts:30-36 | on an OK response the result has a key iff the symbol was requested, has a coin id, and its coin has a non-zero `usd`; its value is that `usd` |
| RateService.ErrorStatusFails | src/lib/services/rateService.ts:24-26 | a response that is not OK fails with `CoinGecko API error: <status>` |
| RateService.NetworkFailureFails | src/lib/services/rateService.ts:20-22 | a rejected fetch is rethrown unchanged: the result fails with the fetch's own error |
| RateService.BadBodyFails | src/lib/services/rateService.ts:28 | an OK response whose JSON does not parse fails with the parse error, unchanged |
| RateService.IdsNonEmpty | src/lib/services/rateService.ts:14-18 | when some requested symbol has a coin id, the id list is not empty, so the request is made |
| RateService.ExchangeRate | src/lib/services/rateService.ts:45-69 | every failure carries the message `Failed to get exchange rate for S to D`, and a rate is never 0 |
| RateService.RateFromPrices | src/lib/services/rateService.ts:51-67 | fails iff the price request failed or either price is missing or 0, always with the outer `Failed to get exchange rate` message; a rate is never 0 |
| RateService.SameTokenRate | src/lib/services/rateService.ts:49 | the rate of a token to itself is 1 whatever the API would answer, even for a symbol with no coin id |
| RateService.UnmappedTokenRateFails | src/lib/services/rateService.ts:52-58 | a symbol without a coin id never gets a rate to a different symbol |
| RateService.RateIsPriceRatio | src/lib/services/rateService.ts:60 | when both coins have a price, the rate is the source price divided by the destination price |
| RateService.EstimateDestinationAmount | src/lib/services/rateService.ts:71-78 | fails iff the rate fails, with the rate's message; otherwise converting the estimate back at the same rate gives the amount |
| RateService.EstimateSourceAmount | src/lib/services/rateService.ts:80-87 | fails iff the rate fails, with the rate's message; otherwise converting the estimate at the same rate gives the destination amount |
| RateService.TimesRate | src/lib/services/rateService.ts:77 | multiplying by a rate fails exactly when the rate did, with its error; dividing the product by the rate gives the amount back |
| RateService.OverRate | src/lib/services/rateService.ts:86 | dividing by a rate fails exactly when the rate did, with its error; multiplying the quotient by the rate gives the amount back |
| RateService.RateConversionsInverse | src/lib/services/rateService.ts:71-87 | multiplying by a non-zero rate and dividing by it undo each other, in either order |
| RateService.EstimatesRoundTrip | src/lib/services/rateService.ts:71-87 | with exact arithmetic and unchanged prices, each estimate undoes the other |
| RateService.EthToUsdcExample | src/lib/services/rateService.ts:60 | ETH at 3000 and USDC at 1 give the rate 3000, and 300 USDC costs 0.1 ETH |
| TransactionSlice.NewTransaction | src/lib/features/transaction/transactionSlice.ts:46-50 | the draft's five data fields are exactly the payload |
| TransactionSlice.DraftIds | src/lib/features/transaction/transactionSlice.ts:48 | a draft id is non-empty, and two drafts have the same id iff they were made at the same clock reading |
| TransactionSlice.TransactionState.constructor | src/lib/features/transaction/transactionSlice.ts:27-33 | the flow starts on the form step, with no draft, an empty history, not loading and no error |
| TransactionSlice.TransactionState.SetStep | src/lib/features/transaction/transactionSlice.ts:39-41 | sets the step from any step; nothing else changes |
| TransactionSlice.TransactionState.SetTransactionData | src/lib/features/transaction/transactionSlice.ts:42-51 | the draft's data is the payload, its id the text of one clock reading and its timestamp another; step and history are unchanged |
| TransactionSlice.TransactionState.ConfirmTransaction | src/lib/features/transaction/transactionSlice.ts:52-57 | with a draft, appends exactly that draft and moves to confirmation, keeping the draft; without one, step and history are unchanged |
| TransactionSlice.TransactionState.ResetTransaction | src/lib/features/transaction/transactionSlice.ts:58-61 | clears the draft and returns to the form; the history is kept |
| TransactionSlice.TransactionState.SetLoading | src/lib/features/transaction/transactionSlice.ts:62-64 | changes only `loading` |
| TransactionSlice.TransactionState.SetError | src/lib/features/transaction/transactionSlice.ts:65-67 | changes only `error` |
| TransactionForm.AcceptsIff | src/components/partials/transaction-form.tsx:33-39 | the schema accepts iff each of the four strings has 2 to 50 characters and the amount is at least 0.01 |
| TransactionForm.DefaultValues | src/components/partials/transaction-form.tsx:49-63 | with a draft, the form starts from the draft's five data fields; without one, from empty strings and amount 0 |
| TransactionForm.EmptyDefaultsRejected | src/components/partials/transaction-form.tsx:57-63 | without a draft, every starting field is in error, so an untouched form cannot be submitted |
| TransactionForm.Submit | src/components/partials/transaction-form.tsx:66-72 | submits iff a wallet is connected and the schema accepts; then the draft is built from the values and the step is review; otherwise nothing changes |
| TransactionStepper.Render | src/components/partials/transaction-stepper.tsx:19-74 | exactly the current step is active; steps before it are completed, and all three are on confirmation; connectors follow steps 1 and 2 only; the first connector is always highlighted and the second only on confirmation |
| TransactionStepper.StepsInFlowOrder | src/components/partials/transaction-stepper.tsx:10-14 | the table lists Form, Review, Confirmation once each, at positions 0, 1, 2 |
| TransactionReview.HandleBack | src/components/partials/transaction-review.tsx:30-32 | "Back" returns to the form and keeps the draft and the history |
| TransactionReview.HandleConfirm | src/components/partials/transaction-review.tsx:34-36 | "Confirm" appends the draft to the history and shows confirmation; without a draft it changes nothing |
| TransactionConfirmation.HandleNewTransaction | src/components/partials/transaction-confirmation.tsx:26-28 | "New Transaction" clears the draft and returns to the form; the history is kept |
| Workflow.SubmitConfirmReset | src/lib/features/transaction/transactionSlice.ts:42-61 | a valid submit, a confirm and a reset leave exactly one history entry, built from the submitted values, and a fresh form |
| Workflow.ZeroAmountBlocked | src/components/partials/transaction-form.tsx:36 | an amount of 0 is not submitted: there is no draft and the flow stays on the form step |
| Workflow.BackAndResubmit | src/components/partials/transaction-form.tsx:49-56 | going back hands the form the first draft as its starting values (the `restored` result); a second submit replaces it; confirming appends only the second draft |

## Left out

- The CoinGecko `fetch` and `response.json()` are one `Fetcher` parameter. The model calls it
  the same way on the same URL, so the two estimates see the same prices. Request races and
  stale responses are not modelled.
- JSON values other than an object with a numeric `usd` are not modelled. Nor are JavaScript
  prototype keys such as `constructor`, which would pass the `TOKEN_ID_MAPPING[token]` test.
- Prices, rates and amounts are Dafny `real`: exact arithmetic, no IEEE rounding, no NaN or
  infinity.
- The form amount is modelled after `z.coerce.number()` has run: the text-to-number coercion
  is not modelled. String lengths count Dafny characters, not UTF-16 code units.
- ContractInteraction.ApproveToken: viem's `parseUnits` is a parameter, so the model makes no
  claim about how decimal text becomes base units.
- ContractInteraction.ExecuteBridgeTransfer: same as `ApproveToken`, for `parseUnits`.
- `writeContractAsync` (signing, submission, reverts) is a parameter. So are rendering,
  React re-rendering, `console.error` logging and async ordering.
- `src/lib/constants/contracts.ts` is not part of this model. Its ABIs appear only as
  argument order (the decode functions); `BRIDGE_PAY_ADDRESS` is a constant.
- Page composition (`src/app/page.tsx`) and the provider wiring (`src/app/Providers.tsx`) are
  not part of this model.
- The submit button's `disabled` state while a submission is in progress is not modelled.
