/**
 The converter form: two currency selectors, two amount controls and the loading
 flag, with the handlers and pipeline steps that write them.

 The value-level functions (`Swapped`, `AmountInput`, `Converted`, `Settled`, `Run`)
 say what each step does to a `FormState`; the class `ConverterComponent` performs
 the same steps in place, and its methods are proved against those functions.
 */
module Converter {
  import opened Js
  import opened ConverterService
  import opened CurrencySymbols
  import opened AmountFilter

  datatype AmountField = FromAmount | ToAmount
  datatype CurrencyField = FromCurrency | ToCurrency

  function Opposite(f: AmountField): AmountField {
    if f == FromAmount then ToAmount else FromAmount
  }

  /** The four form controls and the loading flag. */
  datatype FormState = FormState(
    fromCurrency: string,
    toCurrency: string,
    fromAmount: Number,
    toAmount: Number,
    isLoading: bool)

  /** The form as the component's constructor builds it. */
  const Initial: FormState := FormState("USD", "EUR", Zero, Zero, false)

  /** What every state reached through the component satisfies: both selectors
      hold one of the four codes, and no amount control holds NaN. */
  predicate WellFormed(s: FormState) {
    && s.fromCurrency in Codes
    && s.toCurrency in Codes
    && s.fromAmount != NaN
    && s.toAmount != NaN
  }

  function AmountOf(s: FormState, f: AmountField): Number {
    if f == FromAmount then s.fromAmount else s.toAmount
  }

  /** `patchValue({ [f]: n })` on one amount control. */
  function WithAmount(s: FormState, f: AmountField, n: Number): (t: FormState)
    ensures AmountOf(t, f) == n
    ensures AmountOf(t, Opposite(f)) == AmountOf(s, Opposite(f))
    ensures t.fromCurrency == s.fromCurrency && t.toCurrency == s.toCurrency
    ensures t.isLoading == s.isLoading
  {
    if f == FromAmount then s.(fromAmount := n) else s.(toAmount := n)
  }

  // ---------------------------------------------------------------- switchCurrencies

  /** `switchCurrencies()`: the two selectors exchange their values. */
  function Swapped(s: FormState): (t: FormState)
    ensures t.fromCurrency == s.toCurrency && t.toCurrency == s.fromCurrency
    ensures t.fromAmount == s.fromAmount && t.toAmount == s.toAmount
    ensures t.isLoading == s.isLoading
    ensures WellFormed(s) ==> WellFormed(t)
  {
    FormState(s.toCurrency, s.fromCurrency, s.fromAmount, s.toAmount, s.isLoading)
  }

  /** Switching twice restores the original pair. */
  lemma SwapTwiceRestores(s: FormState)
    ensures Swapped(Swapped(s)) == s
  {
  }

  /** A choice in one of the two selectors, which offer only the four codes. */
  function WithCurrency(s: FormState, f: CurrencyField, code: string): (t: FormState)
    ensures f == FromCurrency ==> t.fromCurrency == code && t.toCurrency == s.toCurrency
    ensures f == ToCurrency ==> t.toCurrency == code && t.fromCurrency == s.fromCurrency
    ensures t.fromAmount == s.fromAmount && t.toAmount == s.toAmount && t.isLoading == s.isLoading
    ensures WellFormed(s) && code in Codes ==> WellFormed(t)
  {
    if f == FromCurrency then s.(fromCurrency := code) else s.(toCurrency := code)
  }

  // ---------------------------------------------------------------- onAmountInput

  /** The number `onAmountInput` stores for the text `raw`: the text is stripped
      to digits and dots, parsed, and a falsy result (NaN or 0) becomes 0. */
  function StoredAmount(raw: string, parseFloat: string -> Number): (n: Number)
    ensures n != NaN
    ensures Truthy(parseFloat(StripNonNumeric(raw))) ==> n == parseFloat(StripNonNumeric(raw))
    ensures !Truthy(parseFloat(StripNonNumeric(raw))) ==> n == Zero
  {
    OrZero(parseFloat(StripNonNumeric(raw)))
  }

  /** `onAmountInput(event, field)`: only the named amount control is written. */
  function AmountInput(s: FormState, field: AmountField, raw: string, parseFloat: string -> Number): (t: FormState)
    ensures AmountOf(t, field) == StoredAmount(raw, parseFloat)
    ensures AmountOf(t, Opposite(field)) == AmountOf(s, Opposite(field))
    ensures t.fromCurrency == s.fromCurrency && t.toCurrency == s.toCurrency && t.isLoading == s.isLoading
    ensures WellFormed(s) ==> WellFormed(t)
  {
    WithAmount(s, field, StoredAmount(raw, parseFloat))
  }

  /** Characters outside digits and dots make no difference to what is stored. */
  lemma InputIgnoresOtherCharacters(s: FormState, field: AmountField, raw: string, parseFloat: string -> Number)
    ensures AmountInput(s, field, raw, parseFloat) == AmountInput(s, field, StripNonNumeric(raw), parseFloat)
  {
    StripIdempotent(raw);
  }

  // ---------------------------------------------------------------- convertFromTo

  /** What `convertFromTo` returns: `of(null)`, or the service call for a pair and amount. */
  datatype Call = Skipped | Request(fromCurrency: string, toCurrency: string, amount: Number)

  datatype Step = Step(state: FormState, call: Call)

  /** `convertFromTo(from, to, amount)`. A falsy amount writes 0 into `toAmount`
      (whichever pipeline called) and skips the service; any other amount is
      requested for the form's current pair: `from` and `to` are not used. */
  function Converted(s: FormState, from: string, to: string, amount: Number): (r: Step)
    ensures !Truthy(amount) ==> r.call == Skipped && r.state == WithAmount(s, ToAmount, Zero)
    ensures Truthy(amount) ==> r.call == Request(s.fromCurrency, s.toCurrency, amount) && r.state == s
    ensures WellFormed(s) ==> WellFormed(r.state)
  {
    if !Truthy(amount) || amount == Zero then Step(s.(toAmount := Zero), Skipped)
    else Step(s, Request(s.fromCurrency, s.toCurrency, amount))
  }

  /** Whatever it is passed as `from` and `to`, `convertFromTo` does the same. */
  lemma ConvertIgnoresDirectionArguments(s: FormState, from1: string, to1: string, from2: string, to2: string, amount: Number)
    ensures Converted(s, from1, to1, amount) == Converted(s, from2, to2, amount)
  {
  }

  /** The value the subscriber receives for a call: null for `of(null)`, the
      service's reply for a request. */
  function Resolved(call: Call, upstream: Upstream): (v: Value)
    ensures call.Skipped? ==> v == Null
    ensures call.Request? && upstream(call.fromCurrency, call.toCurrency, call.amount).Failed? ==> v == Num(Zero)
    ensures call.Request? && upstream(call.fromCurrency, call.toCurrency, call.amount).Body? ==>
      v == upstream(call.fromCurrency, call.toCurrency, call.amount).conversionResult
  {
    match call
    case Skipped => Null
    case Request(from, to, amount) => ConverterService.ConvertFromTo(upstream, from, to, amount)
  }

  // ---------------------------------------------------------------- resolution

  /** The closing `tap(() => isLoading = false)` and the subscriber: a truthy
      result is written into `target`, anything else leaves it as it was. */
  function Settled(s: FormState, target: AmountField, result: Value): (t: FormState)
    ensures !t.isLoading
    ensures ValueTruthy(result) ==> AmountOf(t, target) == result.n
    ensures !ValueTruthy(result) ==> AmountOf(t, target) == AmountOf(s, target)
    ensures AmountOf(t, Opposite(target)) == AmountOf(s, Opposite(target))
    ensures t.fromCurrency == s.fromCurrency && t.toCurrency == s.toCurrency
    ensures WellFormed(s) ==> WellFormed(t)
  {
    var cleared := s.(isLoading := false);
    if ValueTruthy(result) then WithAmount(cleared, target, result.n) else cleared
  }

  // ---------------------------------------------------------------- the three pipelines

  /** What sets a pipeline off: a (debounced, de-duplicated) new value of one of
      the amount controls, or a change of either selector. */
  datatype Trigger = FromAmountChanged(amount: Number) | ToAmountChanged(amount: Number) | CurrencyChanged

  /** The field a pipeline's subscriber writes. */
  function Target(tr: Trigger): AmountField {
    if tr.ToAmountChanged? then FromAmount else ToAmount
  }

  /** The `from` and `to` a pipeline passes to `convertFromTo`. */
  function Direction(s: FormState, tr: Trigger): (string, string) {
    if tr.ToAmountChanged? then (s.toCurrency, s.fromCurrency) else (s.fromCurrency, s.toCurrency)
  }

  /** The amount a pipeline passes: the emitted value, or, for the currency
      pipeline, the current `fromAmount`. */
  function TriggerAmount(s: FormState, tr: Trigger): Number {
    if tr.CurrencyChanged? then s.fromAmount else tr.amount
  }

  /** The first `tap`, then `convertFromTo`. */
  function Begun(s: FormState, tr: Trigger): (r: Step)
    ensures r.state.isLoading
    ensures !Truthy(TriggerAmount(s, tr)) ==> r.call == Skipped && r.state == s.(toAmount := Zero, isLoading := true)
    ensures Truthy(TriggerAmount(s, tr)) ==>
      r.call == Request(s.fromCurrency, s.toCurrency, TriggerAmount(s, tr)) && r.state == s.(isLoading := true)
  {
    var started := s.(isLoading := true);
    Converted(started, Direction(started, tr).0, Direction(started, tr).1, TriggerAmount(started, tr))
  }

  /** The call a pipeline makes in state `s`. */
  function Requested(s: FormState, tr: Trigger): Call {
    Begun(s, tr).call
  }

  /** One run of a pipeline that no other pipeline interleaves with. */
  function Run(s: FormState, tr: Trigger, upstream: Upstream): (t: FormState)
    ensures !t.isLoading
    ensures WellFormed(s) ==> WellFormed(t)
  {
    var step := Begun(s, tr);
    Settled(step.state, Target(tr), Resolved(step.call, upstream))
  }

  /** A falsy amount never reaches the service, and on every pipeline, the
      `toAmount` one included, the only effect is `toAmount := 0`. */
  lemma ZeroAmountShortCircuits(s: FormState, tr: Trigger, upstream: Upstream)
    requires !Truthy(TriggerAmount(s, tr))
    ensures Requested(s, tr) == Skipped
    ensures Run(s, tr, upstream) == s.(toAmount := Zero, isLoading := false)
  {
  }

  /** Clearing `toAmount` leaves a stale `fromAmount`: the zero path writes the
      field that just changed, not the opposite one. */
  lemma ClearingToAmountKeepsFromAmount(s: FormState, upstream: Upstream)
    ensures Run(s, ToAmountChanged(Zero), upstream).fromAmount == s.fromAmount
    ensures Run(s, ToAmountChanged(Zero), upstream).toAmount == Zero
  {
  }

  /** A truthy amount is requested for the form's current pair, on every pipeline. */
  lemma RequestUsesFormPair(s: FormState, tr: Trigger)
    requires Truthy(TriggerAmount(s, tr))
    ensures Requested(s, tr) == Request(s.fromCurrency, s.toCurrency, TriggerAmount(s, tr))
  {
  }

  /** The `toAmount` pipeline asks for the same direction as the `fromAmount`
      pipeline, so the reversed pair it passes is never requested. */
  lemma ToAmountRequestsForwardPair(s: FormState, amount: Number)
    requires Truthy(amount)
    ensures Requested(s, ToAmountChanged(amount)) == Requested(s, FromAmountChanged(amount))
    ensures s.fromCurrency != s.toCurrency ==>
      Requested(s, ToAmountChanged(amount)) != Request(s.toCurrency, s.fromCurrency, amount)
  {
  }

  /** For a truthy amount the pipeline's effect is decided by the service's reply:
      a truthy reply lands in the opposite field, anything else changes nothing
      but the loading flag. */
  lemma CommitRule(s: FormState, tr: Trigger, upstream: Upstream)
    requires Truthy(TriggerAmount(s, tr))
    ensures var reply := ConverterService.ConvertFromTo(upstream, s.fromCurrency, s.toCurrency, TriggerAmount(s, tr));
            Run(s, tr, upstream)
            == if ValueTruthy(reply) then WithAmount(s, Target(tr), reply.n).(isLoading := false)
               else s.(isLoading := false)
  {
  }

  /** A successful request whose `conversion_result` is a truthy number writes
      that number into the opposite control and clears the loading flag. */
  lemma SuccessLandsInOppositeControl(s: FormState, tr: Trigger, upstream: Upstream, r: Number)
    requires Truthy(TriggerAmount(s, tr))
    requires upstream(s.fromCurrency, s.toCurrency, TriggerAmount(s, tr)) == Body(Num(r))
    requires Truthy(r)
    ensures Run(s, tr, upstream) == WithAmount(s, Target(tr), r).(isLoading := false)
  {
  }

  /** A failed request (reported as 0) leaves the form as it was, apart from the
      loading flag: the dependent amount keeps its previous value. */
  lemma FailureKeepsDependentAmount(s: FormState, tr: Trigger, upstream: Upstream)
    requires Truthy(TriggerAmount(s, tr))
    requires upstream(s.fromCurrency, s.toCurrency, TriggerAmount(s, tr)).Failed?
    ensures Run(s, tr, upstream) == s.(isLoading := false)
  {
  }

  /** The currency pipeline's first firing on the initial form changes nothing. */
  lemma InitialCurrencyFiringIsIdle(upstream: Upstream)
    ensures Run(Initial, CurrencyChanged, upstream) == Initial
  {
  }

  /** In every state the component reaches, the suffix lookup meets only own keys
      of the symbol table, so the inherited-key case cannot show. */
  lemma FormSymbolsComeFromTable(s: FormState)
    requires WellFormed(s)
    ensures GetCurrencySymbol(s.fromCurrency) == Text(CurrencySymbol(s.fromCurrency))
    ensures GetCurrencySymbol(s.toCurrency) == Text(CurrencySymbol(s.toCurrency))
    ensures CurrencySymbol(s.fromCurrency) in Symbols.Values
    ensures CurrencySymbol(s.toCurrency) in Symbols.Values
  {
  }

  // ---------------------------------------------------------------- the component

  class ConverterComponent {
    var fromCurrency: string
    var toCurrency: string
    var fromAmount: Number
    var toAmount: Number
    var isLoading: bool

    function State(): FormState
      reads this
    {
      FormState(fromCurrency, toCurrency, fromAmount, toAmount, isLoading)
    }

    ghost predicate Valid()
      reads this
    {
      WellFormed(State())
    }

    constructor ()
      ensures Valid()
      ensures State() == Initial
    {
      fromCurrency := "USD";
      toCurrency := "EUR";
      fromAmount := Zero;
      toAmount := Zero;
      isLoading := false;
    }

    method SwitchCurrencies()
      requires Valid()
      modifies this
      ensures Valid()
      ensures State() == Swapped(old(State()))
    {
      var from := fromCurrency;
      var to := toCurrency;
      fromCurrency, toCurrency := to, from;
    }

    method SelectCurrency(field: CurrencyField, code: string)
      requires Valid()
      requires code in Codes
      modifies this
      ensures Valid()
      ensures State() == WithCurrency(old(State()), field, code)
    {
      if field == FromCurrency {
        fromCurrency := code;
      } else {
        toCurrency := code;
      }
    }

    /** `patchValue` on one amount control. */
    method PatchAmount(field: AmountField, n: Number)
      modifies this
      ensures State() == WithAmount(old(State()), field, n)
    {
      if field == FromAmount {
        fromAmount := n;
      } else {
        toAmount := n;
      }
    }

    method OnAmountInput(raw: string, inputType: AmountField, parseFloat: string -> Number)
      requires Valid()
      modifies this
      ensures Valid()
      ensures State() == AmountInput(old(State()), inputType, raw, parseFloat)
    {
      var value := StripNonNumeric(raw);
      var numericValue := parseFloat(value);
      PatchAmount(inputType, OrZero(numericValue));
    }

    method ConvertFromTo(from: string, to: string, amount: Number) returns (call: Call)
      requires Valid()
      modifies this
      ensures Valid()
      ensures Step(State(), call) == Converted(old(State()), from, to, amount)
    {
      if !Truthy(amount) || amount == Zero {
        PatchAmount(ToAmount, Zero);
        return Skipped;
      }
      call := Request(fromCurrency, toCurrency, amount);
    }

    /** The first `tap` of every pipeline. */
    method StartLoading()
      modifies this
      ensures State() == old(State()).(isLoading := true)
    {
      isLoading := true;
    }

    /** The closing `tap` and the subscriber of a pipeline writing `target`. */
    method Settle(target: AmountField, result: Value)
      requires Valid()
      modifies this
      ensures Valid()
      ensures State() == Settled(old(State()), target, result)
    {
      isLoading := false;
      if result.Num? && Truthy(result.n) {
        PatchAmount(target, result.n);
      }
    }

    /** The `fromAmount` pipeline for one value that passed the debounce and
        `distinctUntilChanged`, resolved before anything else happens. */
    method OnFromAmountChange(amount: Number, upstream: Upstream)
      requires Valid()
      modifies this
      ensures Valid()
      ensures State() == Run(old(State()), FromAmountChanged(amount), upstream)
    {
      StartLoading();
      var call := ConvertFromTo(fromCurrency, toCurrency, amount);
      Settle(ToAmount, Resolved(call, upstream));
    }

    /** The `toAmount` pipeline, likewise. */
    method OnToAmountChange(amount: Number, upstream: Upstream)
      requires Valid()
      modifies this
      ensures Valid()
      ensures State() == Run(old(State()), ToAmountChanged(amount), upstream)
    {
      StartLoading();
      var call := ConvertFromTo(toCurrency, fromCurrency, amount);
      Settle(FromAmount, Resolved(call, upstream));
    }

    /** The currency pipeline, for one firing of `combineLatest`. */
    method OnCurrencyChange(upstream: Upstream)
      requires Valid()
      modifies this
      ensures Valid()
      ensures State() == Run(old(State()), CurrencyChanged, upstream)
    {
      StartLoading();
      var call := ConvertFromTo(fromCurrency, toCurrency, fromAmount);
      Settle(ToAmount, Resolved(call, upstream));
    }
  }

  /** A client of the component: 100 typed into the first amount field, with an
      upstream that converts 100 USD into 92.34 EUR. */
  method HundredDollars()
  {
    var parseFloat := (text: string) => if text == "100" then Finite(100.0) else NaN;
    var upstream := (from: string, to: string, amount: Number) =>
      if from == "USD" && to == "EUR" && amount == Finite(100.0) then Body(Num(Finite(92.34))) else Failed;
    var c := new ConverterComponent();
    assert StripNonNumeric("$100") == "100";
    c.OnAmountInput("$100", FromAmount, parseFloat);
    assert c.fromAmount == Finite(100.0);
    c.OnFromAmountChange(c.fromAmount, upstream);
    assert c.toAmount == Finite(92.34) && !c.isLoading;
    c.SwitchCurrencies();
    assert c.fromCurrency == "EUR" && c.toCurrency == "USD";
    c.OnCurrencyChange(upstream);
    assert c.toAmount == Finite(92.34);
  }
}
