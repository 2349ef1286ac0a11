# Currency converter form: a Dafny model

This project models the form logic of the `ConverterComponent` of a small Angular
currency converter. The form holds two currency selectors (`fromCurrency`,
`toCurrency`) and two amount controls (`fromAmount`, `toAmount`). Beside the form,
the component keeps an `isLoading` flag. The component reacts to edits in three pipelines. Each pipeline calls an
exchange-rate service and writes the converted amount back into the opposite
control.

Modules:

- `Js` (js.dfy): the JavaScript semantics the component relies on.
  - A `Number` is a real, `Infinity` or `NaN`.
  - Truthiness: 0 and NaN are falsy.
  - `n || 0`.
  - `===`, under which NaN equals nothing.
  - The values a subscriber can receive: `null`, `undefined` or a number.
- `ConverterService` (service.dfy): the client's mapping of an HTTP outcome.
  It yields `conversion_result` on success and 0 on any failure. The HTTP request
  itself is an `Upstream` function that the caller supplies.
- `CurrencySymbols` (symbols.dfy): `getCurrencySymbol`, as written and as intended.
- `AmountFilter` (sanitize.dfy): the `replace(/[^0-9.]/g, '')` filter.
- `DistinctUntilChanged` (distinct.dfy): the de-duplication step of the two
  amount pipelines, as a filter over the sequence of values that reach it.
- `Sequences` (sequences.dfy): the subsequence relation used by both filters.
- `Converter` (converter.dfy):
  - Value-level transition functions over a `FormState` record.
  - The class `ConverterComponent`, whose fields are the four form controls and
    the component's `isLoading` flag. Its
    methods perform those transitions in place and are proved against the
    functions.
  - Pipeline steps can be called one by one (`StartLoading`, `ConvertFromTo`,
    `Settle`), so a client can interleave them. A handler method runs one
    pipeline from start to finish.

Two behaviours of the code are stated and proved because a reader would not
expect them:

- `convertFromTo` ignores its `from` and `to` arguments. It always requests the
  form's current (`fromCurrency`, `toCurrency`). So the `toAmount` pipeline asks
  for the same direction as the `fromAmount` pipeline, even though it passes the
  pair reversed (`ConvertIgnoresDirectionArguments`, `ToAmountRequestsForwardPair`).
- A falsy amount always writes `toAmount := 0`, even when the call comes from the
  `toAmount` pipeline. Clearing `toAmount` therefore leaves `fromAmount` stale
  (`ZeroAmountShortCircuits`, `ClearingToAmountKeepsFromAmount`).

Three more places where a reader might expect something else. The model follows
the code in each:

- One might expect the `toAmount` pipeline to request (`toCurrency`,
  `fromCurrency`). It requests (`fromCurrency`, `toCurrency`).
- One might expect a zero in either amount field to zero the opposite field. The
  code always zeroes `toAmount`.
- One might expect a failed request to set the dependent field to 0. The failure
  value 0 is falsy, and the subscribers commit only truthy results. So a failed
  request leaves the dependent field unchanged (`FailureKeepsDependentAmount`).

## Model

| member | source | states |
|---|---|---|
| `Js.Falsiness` | src/app/components/converter/converter.component.ts:263 | a number is falsy exactly when it is NaN or 0, `Infinity` is truthy, and a subscriber value is falsy exactly when it is null, undefined or a falsy number |
| `Js.OrZero` | src/app/components/converter/converter.component.ts:230 | the fallback of a number `n` to 0 is never NaN, is truthy exactly when `n` is, and is `n` itself when `n` is truthy |
| `Js.StrictEqualsIsPartialEquivalence` | src/app/components/converter/converter.component.ts:251 | the `===` used by `distinctUntilChanged` is equality minus NaN: symmetric, transitive, and NaN is not equal to itself |
| `ConverterService.Reply` | src/app/services/converter.service.ts:23-30 | any failure becomes 0; a decoded body yields its `conversion_result` field, which is `undefined` when the field is missing |
| `ConverterService.ConvertFromTo` | src/app/services/converter.service.ts:14-16 | a request whose upstream outcome is a failure resolves to 0; one with a decoded body resolves to that body's `conversion_result` |
| `ConverterService.FailureIsFalsy` | src/app/services/converter.service.ts:29 | the failure sentinel 0 is a value that the component's `if (result)` rejects |
| `CurrencySymbols.SymbolTableCoversCodes` | src/app/components/converter/converter.component.ts:192-197 | the symbol table's keys are exactly the four selectable codes, none of which is an Object.prototype member |
| `CurrencySymbols.GetCurrencySymbol` | src/app/components/converter/converter.component.ts:212-214 | as written: a string exactly when the key is not inherited from Object.prototype; the table's symbol for the four codes; the code itself for any other non-inherited key |
| `CurrencySymbols.InheritedKeyIsNotACode` | src/app/components/converter/converter.component.ts:212-214 | for the key `"toString"` the lookup yields the inherited member, not the code |
| `CurrencySymbols.CurrencySymbol` | src/app/components/converter/converter.component.ts:192-197 | as intended: `$`, `€`, `£`, `₽` for USD, EUR, GBP, RUB; any other string comes back unchanged; the result is empty only for the empty code |
| `CurrencySymbols.AsWrittenAgreesOutsidePrototype` | src/app/components/converter/converter.component.ts:212-214 | the lookup as written equals the intended one exactly when the key is not an Object.prototype member |
| `AmountFilter.StripNonNumeric` | src/app/components/converter/converter.component.ts:228 | the filtered text is no longer than the input and contains only digits and dots |
| `AmountFilter.StripIsSubsequence` | src/app/components/converter/converter.component.ts:228 | the filtered text is a subsequence of the input (order kept) |
| `AmountFilter.StripKeepsExactlyNumeric` | src/app/components/converter/converter.component.ts:228 | each digit and dot occurs in the output as often as in the input; no other character occurs at all |
| `AmountFilter.StripFixesNumeric` | src/app/components/converter/converter.component.ts:228 | text made only of digits and dots passes unchanged |
| `AmountFilter.StripIdempotent` | src/app/components/converter/converter.component.ts:228 | filtering twice gives the same result as filtering once |
| `AmountFilter.StripConcat` | src/app/components/converter/converter.component.ts:228 | the filter distributes over concatenation (it is applied at every position, the `g` flag) |
| `DistinctUntilChanged.DistinctAfter` | src/app/components/converter/converter.component.ts:251 | the operator holding the last value it let through: it never lengthens its input, passes on only input values, and its first output is not `===` to the remembered value |
| `DistinctUntilChanged.Distinct` | src/app/components/converter/converter.component.ts:251 | the first value always passes |
| `DistinctUntilChanged.DistinctAfterIsChanges` | src/app/components/converter/converter.component.ts:251 | two operator states that drop the same values produce the same output; this links the operator to the reference filter |
| `DistinctUntilChanged.DistinctIsChanges` | src/app/components/converter/converter.component.ts:277 | comparing with the last passed value equals comparing with the input's previous element (reference definition `Changes`) |
| `DistinctUntilChanged.DistinctAfterIsSubsequence` | src/app/components/converter/converter.component.ts:251 | the operator only drops values, never reorders them |
| `DistinctUntilChanged.DistinctAfterNoRepeats` | src/app/components/converter/converter.component.ts:251 | no passed value is `===` to the value passed just before it, counting the one passed before the sequence started |
| `DistinctUntilChanged.DistinctDropsConsecutiveDuplicates` | src/app/components/converter/converter.component.ts:250-251 | the output is a subsequence of the input with no two `===` neighbours, so it is no longer than the input and holds only input values |
| `DistinctUntilChanged.ChangesOfNoRepeats` | src/app/components/converter/converter.component.ts:276-277 | a sequence without `===` neighbours passes the filter unchanged |
| `DistinctUntilChanged.DistinctIdempotent` | src/app/components/converter/converter.component.ts:276-277 | a second `distinctUntilChanged` has nothing left to drop |
| `Converter.WithAmount` | src/app/components/converter/converter.component.ts:230 | `patchValue` on one amount control writes that control and nothing else |
| `Converter.Swapped` | src/app/components/converter/converter.component.ts:216-224 | the currencies are exchanged, the amounts and the flag are unchanged, and well-formedness is kept |
| `Converter.SwapTwiceRestores` | src/app/components/converter/converter.component.ts:216-224 | two switches restore the original state |
| `Converter.WithCurrency` | src/app/components/converter/converter.component.ts:59-64 | a selector choice writes only that selector; a choice among the four codes keeps the form well-formed |
| `Converter.StoredAmount` | src/app/components/converter/converter.component.ts:228-230 | the stored value is never NaN: it is the parse of the filtered text when that parse is truthy, otherwise 0 |
| `Converter.AmountInput` | src/app/components/converter/converter.component.ts:226-231 | only the named amount control changes, and it receives the stored value; the other three fields are unchanged |
| `Converter.InputIgnoresOtherCharacters` | src/app/components/converter/converter.component.ts:228-229 | typing `raw` stores what typing its filtered form stores |
| `Converter.Converted` | src/app/components/converter/converter.component.ts:233-243 | falsy amount: `toAmount := 0` and no request. Otherwise: a request for the form's pair and the given amount, with the state unchanged |
| `Converter.ConvertIgnoresDirectionArguments` | src/app/components/converter/converter.component.ts:238-242 | the result does not depend on the `from` and `to` arguments |
| `Converter.Resolved` | src/app/components/converter/converter.component.ts:236-242 | a skipped call resolves to null; a request whose upstream fails resolves to 0; a request with a decoded body resolves to its `conversion_result` |
| `Converter.Settled` | src/app/components/converter/converter.component.ts:260-270 | the loading flag is cleared; the target control receives a truthy result and is otherwise unchanged; the other control and the currencies are unchanged |
| `Converter.Begun` | src/app/components/converter/converter.component.ts:252-258 | after the first `tap` and `convertFromTo` the flag is set; a falsy amount gives no request and `toAmount := 0`; a truthy one asks for the form's pair with the controls unchanged |
| `Converter.Run` | src/app/components/converter/converter.component.ts:245-326 | every pipeline run ends with the loading flag cleared and keeps the form well-formed |
| `Converter.ZeroAmountShortCircuits` | src/app/components/converter/converter.component.ts:233-237 | on every pipeline a falsy amount issues no request, and its only effects are `toAmount := 0` and clearing the loading flag |
| `Converter.ClearingToAmountKeepsFromAmount` | src/app/components/converter/converter.component.ts:279-285 | when the `toAmount` pipeline sees 0, `fromAmount` keeps its old value and `toAmount` is 0 |
| `Converter.RequestUsesFormPair` | src/app/components/converter/converter.component.ts:238-242 | a truthy amount is requested for (`fromCurrency`, `toCurrency`) of the form on every pipeline |
| `Converter.ToAmountRequestsForwardPair` | src/app/components/converter/converter.component.ts:280-284 | the `toAmount` pipeline requests what the `fromAmount` pipeline requests; for distinct currencies it never requests the reversed pair it passes |
| `Converter.CommitRule` | src/app/components/converter/converter.component.ts:286-296 | for a truthy amount, a truthy reply lands in the opposite control; otherwise only the loading flag changes |
| `Converter.SuccessLandsInOppositeControl` | src/app/components/converter/converter.component.ts:288-294 | a decoded body with a truthy `conversion_result` `r` makes the pipeline write `r` into the opposite control and clear the flag, nothing else |
| `Converter.FailureKeepsDependentAmount` | src/app/components/converter/converter.component.ts:262-268 | a failed request leaves every control as it was |
| `Converter.InitialCurrencyFiringIsIdle` | src/app/components/converter/converter.component.ts:298-313 | the currency pipeline's first firing on the initial form leaves it unchanged |
| `Converter.FormSymbolsComeFromTable` | src/app/components/converter/converter.component.ts:79-81 | for every well-formed form, the suffix shown for each selector is the table's own symbol |
| `Converter.ConverterComponent.constructor` | src/app/components/converter/converter.component.ts:204-209 | USD, EUR, amounts 0, not loading |
| `Converter.ConverterComponent.SwitchCurrencies` | src/app/components/converter/converter.component.ts:216-224 | the new state is `Swapped` of the old one |
| `Converter.ConverterComponent.SelectCurrency` | src/app/components/converter/converter.component.ts:87-92 | the new state is `WithCurrency` of the old one |
| `Converter.ConverterComponent.PatchAmount` | src/app/components/converter/converter.component.ts:230 | the new state is `WithAmount` of the old one |
| `Converter.ConverterComponent.OnAmountInput` | src/app/components/converter/converter.component.ts:226-231 | the new state is `AmountInput` of the old one |
| `Converter.ConverterComponent.ConvertFromTo` | src/app/components/converter/converter.component.ts:233-243 | the returned call and the new state are those of `Converted` |
| `Converter.ConverterComponent.StartLoading` | src/app/components/converter/converter.component.ts:252 | only the loading flag is set |
| `Converter.ConverterComponent.Settle` | src/app/components/converter/converter.component.ts:315-325 | the new state is `Settled` of the old one |
| `Converter.ConverterComponent.OnFromAmountChange` | src/app/components/converter/converter.component.ts:246-270 | the new state is `Run` of the old one for a `fromAmount` emission |
| `Converter.ConverterComponent.OnToAmountChange` | src/app/components/converter/converter.component.ts:272-296 | the new state is `Run` of the old one for a `toAmount` emission |
| `Converter.ConverterComponent.OnCurrencyChange` | src/app/components/converter/converter.component.ts:298-325 | the new state is `Run` of the old one for a selector change |

## Left out

- The HTTP request, the URL built from the environment's `apiUrl` and `apiKey`, and the deployment configuration. The upstream API is an `Upstream` function parameter; only the client's mapping of its outcome is modelled.
- `parseFloat` is a function parameter. Floating-point parsing is not modelled.
- Amounts are JavaScript doubles. Finite values are modelled as reals without rounding, and negative infinity is not represented. A numeric string in `conversion_result` is not modelled.
- RxJS scheduling:
  - The 500 ms `debounceTime`.
  - `switchMap` cancellation of a stale request.
  - The `combineLatest` firing once per control when both selectors change in one `patchValue`.
  - `takeUntil` teardown in `ngOnDestroy`.

  A handler method is one run of one pipeline that nothing interleaves with. Overlapping runs, including the loading flag being cleared by one pipeline while another is in flight, can only be written by a client that calls `StartLoading`, `ConvertFromTo` and `Settle` in some order. No scheduler is modelled.
- The `emitEvent` distinction. Which edits set a pipeline off is decided by whoever calls the handler methods.
- The `currency` display pipe, the template, Material components, styles and `markForCheck`. These are presentation only.
- `CurrencySymbols.PrototypeMembers` lists the standard members of Object.prototype. Members that a runtime or a polyfill adds are not covered.

## Findings

| source | as written | input that shows it | evidently intended | confidence | as-written member | corrected member |
|---|---|---|---|---|---|---|
| src/app/components/converter/converter.component.ts:212-214 | the lookup with fallback to `currency` reads the key from on a plain object, so keys inherited from Object.prototype are found | `getCurrencySymbol("toString")` yields the function `Object.prototype.toString`, not `"toString"` (the selectors cannot produce this key) | the four own symbols, and the code itself for every other string | not executed; follows from JavaScript property lookup | `CurrencySymbols.GetCurrencySymbol`, `CurrencySymbols.InheritedKeyIsNotACode` | `CurrencySymbols.CurrencySymbol`, used by `Converter.FormSymbolsComeFromTable` |
