/** The currency converter widget: the from/to pair with its swap guard, the amount,
    the converted amount recomputed by an effect from the fetched rial prices, the
    decimal-count rule used for display and the display-name fallback. */
module CurrencyConverter {
  import opened Js

  // ---------------------------------------------------------------------------
  // Number.prototype.toFixed(2) followed by Number(...), on exact reals

  /** The nearest whole number to a non-negative `y`, a tie going to the larger one. */
  function RoundHalfUp(y: real): (n: int)
    requires y >= 0.0
    ensures n as real - y <= 0.5 && y - n as real < 0.5
  {
    (y + 0.5).Floor
  }

  /** The number of hundredths `x.toFixed(2)` shows: a negative value is rounded as
      its magnitude. */
  function Hundredths(x: real): (n: int)
    ensures n as real - x * 100.0 <= 0.5 && x * 100.0 - n as real <= 0.5
  {
    if x < 0.0 then -RoundHalfUp(-x * 100.0) else RoundHalfUp(x * 100.0)
  }

  /** `Number(x.toFixed(2))` */
  function ToFixed2(x: real): (r: real)
    ensures -0.005 <= r - x <= 0.005
  {
    Hundredths(x) as real / 100.0
  }

  /** A value that is a whole number of hundredths is left as it is. */
  lemma ToFixed2Exact(k: int)
    ensures ToFixed2(k as real / 100.0) == k as real / 100.0
  {
    var x := k as real / 100.0;
    assert x * 100.0 == k as real;
    if x < 0.0 {
      assert -x * 100.0 + 0.5 == (-k) as real + 0.5;
      assert RoundHalfUp(-x * 100.0) == -k;
    } else {
      assert RoundHalfUp(x * 100.0) == k;
    }
  }

  // ---------------------------------------------------------------------------
  // The converter's state

  /** The fetched record of one currency; only its rial price is used. */
  datatype Rate = Rate(rialPrice: real)

  datatype Converter = Converter(from: string, to: string, amount: real, converted: real, swapping: bool)

  function Initial(): Converter
  {
    Converter("EUR", "USD", 1.0, 0.0, false)
  }

  /** `handleSwap`: both codes change in one transition and the swap guard is raised. */
  function Swapped(c: Converter): Converter
  {
    c.(from := c.to, to := c.from, swapping := true)
  }

  /** The timer that ends the swap animation. */
  function SwapEnded(c: Converter): Converter
  {
    c.(swapping := false)
  }

  /** A click on the swap button, which is disabled while a swap is in progress. */
  function SwapClicked(c: Converter): Converter
  {
    if c.swapping then c else Swapped(c)
  }

  /** The guard of the conversion effect: both records present, a non-zero amount,
      and both rial prices non-zero. */
  predicate ShouldConvert(amount: real, fromData: Option<Rate>, toData: Option<Rate>)
  {
    fromData.Some? && toData.Some? && amount != 0.0 &&
    fromData.value.rialPrice != 0.0 && toData.value.rialPrice != 0.0
  }

  /** The exact conversion: `amount * fromRialPrice / toRialPrice`. */
  function Exchange(amount: real, fromRialPrice: real, toRialPrice: real): real
    requires toRialPrice != 0.0
  {
    amount * fromRialPrice / toRialPrice
  }

  /** A run of the conversion effect. */
  function Converted(c: Converter, fromData: Option<Rate>, toData: Option<Rate>): Converter
  {
    if ShouldConvert(c.amount, fromData, toData) then
      c.(converted := ToFixed2(Exchange(c.amount, fromData.value.rialPrice, toData.value.rialPrice)))
    else c
  }

  class CurrencyConverter {
    var fromCurrency: string
    var toCurrency: string
    var amount: real
    var convertedAmount: real
    var isSwapping: bool

    function State(): Converter
      reads this
    {
      Converter(fromCurrency, toCurrency, amount, convertedAmount, isSwapping)
    }

    /** The swap button's `disabled` attribute */
    function SwapDisabled(): bool
      reads this
    {
      isSwapping
    }

    constructor ()
      ensures State() == Initial()
    {
      fromCurrency := "EUR";
      toCurrency := "USD";
      amount := 1.0;
      convertedAmount := 0.0;
      isSwapping := false;
    }

    method HandleSwap()
      modifies this
      ensures State() == Swapped(old(State()))
    {
      isSwapping := true;
      var temp := fromCurrency;
      fromCurrency := toCurrency;
      toCurrency := temp;
    }

    method ClickSwap()
      modifies this
      ensures State() == SwapClicked(old(State()))
    {
      if !SwapDisabled() {
        HandleSwap();
      }
    }

    method EndSwap()
      modifies this
      ensures State() == SwapEnded(old(State()))
    {
      isSwapping := false;
    }

    method SetFromCurrency(code: string)
      modifies this
      ensures State() == old(State()).(from := code)
    {
      fromCurrency := code;
    }

    method SetToCurrency(code: string)
      modifies this
      ensures State() == old(State()).(to := code)
    {
      toCurrency := code;
    }

    method SetAmount(a: real)
      modifies this
      ensures State() == old(State()).(amount := a)
    {
      amount := a;
    }

    /** The conversion effect, run with the records the two fetches currently hold. */
    method RunConversion(fromData: Option<Rate>, toData: Option<Rate>)
      modifies this
      ensures State() == Converted(old(State()), fromData, toData)
    {
      if fromData.Some? && toData.Some? && amount != 0.0 {
        var fromRialPrice := fromData.value.rialPrice;
        var toRialPrice := toData.value.rialPrice;
        if fromRialPrice != 0.0 && toRialPrice != 0.0 {
          var converted := Exchange(amount, fromRialPrice, toRialPrice);
          convertedAmount := ToFixed2(converted);
        }
      }
    }
  }

  // ---------------------------------------------------------------------------
  // Display rules

  /** The number of fraction digits `formatNumber` shows for a currency. */
  function Decimals(currency: Option<string>): nat
  {
    if currency == Some("IRT") || currency == Some("IRR") then 0 else 3
  }

  /** One entry of the supported-currency list; only the key and Persian label are used. */
  datatype SupportedCurrency = SupportedCurrency(key: string, labelFa: string)

  predicate FirstWithKey(cs: seq<SupportedCurrency>, code: string, i: nat)
  {
    i < |cs| && cs[i].key == code && forall j :: 0 <= j < i ==> cs[j].key != code
  }

  /** `cs.find(c => c.key === code)`, as the position of the element found. */
  function FindByKey(cs: seq<SupportedCurrency>, code: string): (r: Option<nat>)
    ensures r.Some? ==> FirstWithKey(cs, code, r.value)
    ensures r.None? ==> forall j :: 0 <= j < |cs| ==> cs[j].key != code
  {
    if cs == [] then None
    else if cs[0].key == code then Some(0)
    else match FindByKey(cs[1..], code)
      case None => None
      case Some(i) => Some(i + 1)
  }

  datatype Display = Display(code: string, name: string)

  /** `getCurrencyDisplay`: the Persian label of the first supported currency with
      this key when it is non-empty, the code otherwise. */
  function GetCurrencyDisplay(supported: Option<seq<SupportedCurrency>>, code: string): (d: Display)
    ensures d.code == code
    ensures supported.None? ==> d.name == code
    ensures supported.Some? && (forall j :: 0 <= j < |supported.value| ==> supported.value[j].key != code)
            ==> d.name == code
    ensures forall i: nat :: supported.Some? && FirstWithKey(supported.value, code, i) ==>
              d.name == if supported.value[i].labelFa != "" then supported.value[i].labelFa else code
  {
    var found := if supported.Some? then FindByKey(supported.value, code) else None;
    var name := if found.Some? && supported.value[found.value].labelFa != "" then supported.value[found.value].labelFa else code;
    Display(code, name)
  }

  // ---------------------------------------------------------------------------
  // Properties of the converter

  /** The widget starts converting 1 EUR to USD, with nothing converted and no swap in progress. */
  lemma InitialState()
    ensures Initial().from == "EUR" && Initial().to == "USD"
    ensures Initial().amount == 1.0 && Initial().converted == 0.0 && !Initial().swapping
  {
  }

  /** A swap exchanges the pair in one step; two swaps restore it, with or without the
      guard lowered in between. */
  lemma SwapTwiceRestores(c: Converter)
    ensures Swapped(c).from == c.to && Swapped(c).to == c.from && Swapped(c).swapping
    ensures Swapped(Swapped(c)) == c.(swapping := true)
    ensures Swapped(SwapEnded(Swapped(c))) == c.(swapping := true)
  {
  }

  /** While a swap is in progress a click does nothing; otherwise it swaps. */
  lemma SwapGuard(c: Converter)
    ensures c.swapping ==> SwapClicked(c) == c
    ensures !c.swapping ==> SwapClicked(c) == Swapped(c)
    ensures SwapClicked(SwapClicked(c)) == SwapClicked(c)
  {
  }

  /** The converted amount changes only when the guard holds, and then it is the
      amount times the from-price over the to-price, to within the two-decimal rounding. */
  lemma ConversionRule(c: Converter, fromData: Option<Rate>, toData: Option<Rate>)
    ensures !ShouldConvert(c.amount, fromData, toData) ==> Converted(c, fromData, toData) == c
    ensures Converted(c, fromData, toData).(converted := c.converted) == c
    ensures ShouldConvert(c.amount, fromData, toData) ==>
      var exact := Exchange(c.amount, fromData.value.rialPrice, toData.value.rialPrice);
      -0.005 <= Converted(c, fromData, toData).converted - exact <= 0.005
  {
  }

  /** 1 EUR at a rial price of 1000, converted to USD at 500, gives 2. */
  lemma ConversionExample()
    ensures Converted(Initial(), Some(Rate(1000.0)), Some(Rate(500.0))).converted == 2.0
  {
    assert Exchange(1.0, 1000.0, 500.0) == 200 as real / 100.0;
    ToFixed2Exact(200);
  }

  /** No decimals for the rial and the toman, three for every other currency and for none. */
  lemma DecimalRule(currency: Option<string>)
    ensures Decimals(currency) == 0 <==> currency == Some("IRT") || currency == Some("IRR")
    ensures Decimals(currency) == 0 || Decimals(currency) == 3
    ensures Decimals(None) == 3
  {
  }
}
