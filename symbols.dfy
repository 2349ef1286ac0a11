/**
 The currency-symbol suffix shown next to each amount field.
 The component keeps the symbols in a plain object literal and returns
 `currencySymbols[currency] || currency`.
 */
module CurrencySymbols {

  /** The four currencies the selectors offer. */
  const Codes: set<string> := {"RUB", "USD", "EUR", "GBP"}

  /** The object literal's own properties. */
  const Symbols: map<string, string> := map["USD" := "$", "EUR" := "€", "GBP" := "£", "RUB" := "₽"]

  /** Names a plain object inherits from Object.prototype; each holds a function
      (or, for `__proto__`, an object), so each is truthy. */
  const PrototypeMembers: set<string> := {
    "constructor", "hasOwnProperty", "isPrototypeOf", "propertyIsEnumerable",
    "toLocaleString", "toString", "valueOf", "__proto__",
    "__defineGetter__", "__defineSetter__", "__lookupGetter__", "__lookupSetter__"
  }

  /** The value `getCurrencySymbol` returns: a string, or an inherited member of
      Object.prototype (not a string at all). */
  datatype Lookup = Text(text: string) | ObjectMember(name: string)

  lemma SymbolTableCoversCodes()
    ensures Symbols.Keys == Codes
    ensures Codes !! PrototypeMembers
  {
  }

  /** `getCurrencySymbol` as written: a property lookup on a plain object, which
      falls through to Object.prototype for keys the table does not own. */
  function GetCurrencySymbol(currency: string): (r: Lookup)
    ensures r.Text? <==> currency !in PrototypeMembers
    ensures currency in Codes ==> r.Text? && r.text == Symbols[currency]
    ensures r.Text? && currency !in Codes ==> r.text == currency
  {
    if currency in Symbols then Text(Symbols[currency])
    else if currency in PrototypeMembers then ObjectMember(currency)
    else Text(currency)
  }

  /** The input `"toString"` exhibits the fall-through: the result is
      Object.prototype.toString, a function, and not the code itself. */
  lemma InheritedKeyIsNotACode()
    ensures GetCurrencySymbol("toString") == ObjectMember("toString")
    ensures GetCurrencySymbol("toString") != Text("toString")
  {
  }

  /** The lookup as evidently intended: own properties only, otherwise the code. */
  function CurrencySymbol(currency: string): (r: string)
    ensures currency == "USD" ==> r == "$"
    ensures currency == "EUR" ==> r == "€"
    ensures currency == "GBP" ==> r == "£"
    ensures currency == "RUB" ==> r == "₽"
    ensures currency !in Codes ==> r == currency
    ensures |r| == 0 <==> |currency| == 0
  {
    if currency in Symbols then Symbols[currency] else currency
  }

  /** The two agree on every key but the inherited ones; in particular on the
      four codes the selectors can hold. */
  lemma AsWrittenAgreesOutsidePrototype(currency: string)
    ensures currency !in PrototypeMembers <==> GetCurrencySymbol(currency) == Text(CurrencySymbol(currency))
  {
  }
}
