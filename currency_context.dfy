/** The currency selection provider: two React state variables (the selected
    currency codes and the colour mode), hydrated from the store once, overwritten
    by the `currencies_updated` event, and written back to the store by two
    effects. */
module CurrencyContext {
  import opened Js

  datatype ColorMode = NORMAL | X

  function ModeValue(m: ColorMode): JsValue
  {
    match m
    case NORMAL => Str("NORMAL")
    case X => Str("X")
  }

  const CurrenciesKey := "currencies"
  const ColorModeKey := "currencyColorMode"

  /** The list used when the store holds no currency list. */
  const DefaultCurrencies: JsValue := StrArray(["USD", "EUR", "GRAM"])

  /** The provider's state. `mounted` is also whether the event subscription is live:
      subscription and unsubscription happen together with mount and unmount. */
  datatype Provider = Provider(currencies: JsValue, colorMode: JsValue, store: Store, mounted: bool)

  /** Mount: both state variables start null; the effects' first run writes nothing. */
  function Mount(store: Store): Provider
  {
    Provider(Null, Null, store, true)
  }

  /** `setSelectedCurrencies(v)` followed by the save effect: React skips the update
      when the value is unchanged or the provider is unmounted; the effect writes
      the list only when it is an array. */
  function WithCurrencies(p: Provider, v: JsValue): Provider
  {
    if !p.mounted || SameValue(p.currencies, v) then p
    else p.(currencies := v, store := if v.Arr? then p.store[CurrenciesKey := v] else p.store)
  }

  /** `setCurrencyColorMode(v)` followed by the save effect, which writes only a truthy mode. */
  function WithColorMode(p: Provider, v: JsValue): Provider
  {
    if !p.mounted || SameValue(p.colorMode, v) then p
    else p.(colorMode := v, store := if Truthy(v) then p.store[ColorModeKey := v] else p.store)
  }

  /** Completion of `load`: both keys are read, then `stored ?? default` and `mode || NORMAL` are set. */
  function Loaded(p: Provider): Provider
  {
    var stored := Read(p.store, CurrenciesKey);
    var mode := Read(p.store, ColorModeKey);
    WithColorMode(WithCurrencies(p, Coalesce(stored, DefaultCurrencies)), Or(mode, ModeValue(NORMAL)))
  }

  /** Delivery of a `currencies_updated` event (to a live subscription only). */
  function Updated(p: Provider, payload: map<string, JsValue>): Provider
  {
    WithColorMode(WithCurrencies(p, Get(payload, "currencies")), Get(payload, "colorMode"))
  }

  function Unmounted(p: Provider): Provider
  {
    p.(mounted := false)
  }

  /** What a consumer of the context sees. */
  datatype ContextValue = ContextValue(selectedCurrencies: JsValue, currencyColorMode: JsValue)

  function View(p: Provider): ContextValue
  {
    ContextValue(Coalesce(p.currencies, Arr([])), p.colorMode)
  }

  /** Store and state agree: an array list and a truthy mode are what the store holds. */
  predicate Converged(p: Provider)
  {
    && (p.currencies.Arr? ==> Read(p.store, CurrenciesKey) == p.currencies)
    && (Truthy(p.colorMode) ==> Read(p.store, ColorModeKey) == p.colorMode)
  }

  class CurrencyProvider {
    var selectedCurrencies: JsValue
    var currencyColorMode: JsValue
    var store: Store
    var mounted: bool

    function State(): Provider
      reads this
    {
      Provider(selectedCurrencies, currencyColorMode, store, mounted)
    }

    function Value(): ContextValue
      reads this
    {
      View(State())
    }

    constructor (store: Store)
      ensures State() == Mount(store)
    {
      selectedCurrencies := Null;
      currencyColorMode := Null;
      this.store := store;
      mounted := true;
    }

    /** A state update and the effect that persists it. */
    method SetCurrencies(v: JsValue)
      modifies this
      ensures State() == WithCurrencies(old(State()), v)
    {
      if mounted && !SameValue(selectedCurrencies, v) {
        selectedCurrencies := v;
        if v.Arr? {
          store := store[CurrenciesKey := v];
        }
      }
    }

    method SetColorMode(v: JsValue)
      modifies this
      ensures State() == WithColorMode(old(State()), v)
    {
      if mounted && !SameValue(currencyColorMode, v) {
        currencyColorMode := v;
        if Truthy(v) {
          store := store[ColorModeKey := v];
        }
      }
    }

    method Load()
      modifies this
      ensures State() == Loaded(old(State()))
    {
      var stored := Read(store, CurrenciesKey);
      var mode := Read(store, ColorModeKey);
      SetCurrencies(Coalesce(stored, DefaultCurrencies));
      SetColorMode(Or(mode, ModeValue(NORMAL)));
    }

    method OnCurrenciesUpdated(payload: map<string, JsValue>)
      modifies this
      ensures State() == Updated(old(State()), payload)
    {
      SetCurrencies(Get(payload, "currencies"));
      SetColorMode(Get(payload, "colorMode"));
    }

    /** The consumer's `setSelectedCurrencies` */
    method SetSelectedCurrencies(xs: seq<string>)
      modifies this
      ensures State() == WithCurrencies(old(State()), StrArray(xs))
    {
      SetCurrencies(StrArray(xs));
    }

    /** The consumer's `setCurrencyColorMode` */
    method SetCurrencyColorMode(m: ColorMode)
      modifies this
      ensures State() == WithColorMode(old(State()), ModeValue(m))
    {
      SetColorMode(ModeValue(m));
    }

    /** `reorderCurrencies` is `setSelectedCurrencies` under another name. */
    method ReorderCurrencies(xs: seq<string>)
      modifies this
      ensures State() == WithCurrencies(old(State()), StrArray(xs))
    {
      SetCurrencies(StrArray(xs));
    }

    method Unmount()
      modifies this
      ensures State() == Unmounted(old(State()))
    {
      mounted := false;
    }
  }

  // ---------------------------------------------------------------------------
  // Properties of the provider

  /** Before load completes nothing is selected: consumers see an empty list and no mode. */
  lemma BeforeLoad(store: Store)
    ensures Mount(store).currencies == Null && Mount(store).colorMode == Null
    ensures View(Mount(store)) == ContextValue(Arr([]), Null)
    ensures Mount(store).store == store
  {
  }

  /** Load keeps any stored list that is not null/undefined (an empty list too) and
      uses the default list otherwise. */
  lemma LoadCurrencies(p: Provider)
    requires p.mounted
    ensures var stored := Read(p.store, CurrenciesKey);
      Loaded(p).currencies == if Nullish(stored) then DefaultCurrencies else stored
    ensures Read(p.store, CurrenciesKey) == Arr([]) ==> Loaded(p).currencies == Arr([])
    ensures Loaded(p).mounted
  {
  }

  /** Load takes a truthy stored mode and NORMAL otherwise. */
  lemma LoadColorMode(p: Provider)
    requires p.mounted
    ensures var mode := Read(p.store, ColorModeKey);
      Loaded(p).colorMode == if Truthy(mode) then mode else Str("NORMAL")
    ensures Truthy(Loaded(p).colorMode)
  {
  }

  /** On an empty store, load gives the documented defaults and writes them back. */
  lemma LoadEmptyStore()
    ensures Loaded(Mount(map[])) ==
      Provider(DefaultCurrencies, Str("NORMAL"),
               map[CurrenciesKey := DefaultCurrencies, ColorModeKey := Str("NORMAL")], true)
  {
  }

  /** An event overwrites both fields with the payload, loaded or not. */
  lemma EventOverwrites(p: Provider, payload: map<string, JsValue>)
    requires p.mounted
    ensures Updated(p, payload).currencies == Get(payload, "currencies")
    ensures Updated(p, payload).colorMode == Get(payload, "colorMode")
    ensures Updated(p, payload).mounted
  {
  }

  /** The list is written only as an array and only under `currencies`; the mode only
      when truthy and only under `currencyColorMode`. A null never reaches the store. */
  lemma PersistOnlyDefinedValues(p: Provider, v: JsValue)
    ensures WithCurrencies(p, v).store == p.store ||
            (v.Arr? && WithCurrencies(p, v).store == p.store[CurrenciesKey := v])
    ensures WithColorMode(p, v).store == p.store ||
            (Truthy(v) && WithColorMode(p, v).store == p.store[ColorModeKey := v])
  {
  }

  /** Round trip: a list set by a consumer is what a fresh provider loads. */
  lemma CurrenciesRoundTrip(p: Provider, xs: seq<string>)
    requires p.mounted
    ensures Loaded(Mount(WithCurrencies(p, StrArray(xs)).store)).currencies == StrArray(xs)
  {
    var q := WithCurrencies(p, StrArray(xs));
    assert Read(q.store, CurrenciesKey) == StrArray(xs);
  }

  /** Round trip for the colour mode chosen by a consumer, when the store agreed with the state. */
  lemma ColorModeRoundTrip(p: Provider, m: ColorMode)
    requires p.mounted && Converged(p)
    ensures Loaded(Mount(WithColorMode(p, ModeValue(m)).store)).colorMode == ModeValue(m)
  {
    var q := WithColorMode(p, ModeValue(m));
    assert Read(q.store, ColorModeKey) == ModeValue(m);
  }

  /** Every step keeps the store in agreement with the state. */
  lemma StepsKeepConverged(p: Provider, payload: map<string, JsValue>, xs: seq<string>, m: ColorMode)
    requires Converged(p)
    ensures Converged(Mount(p.store)) && Converged(Loaded(p)) && Converged(Updated(p, payload))
    ensures Converged(WithCurrencies(p, StrArray(xs))) && Converged(WithColorMode(p, ModeValue(m)))
    ensures Converged(Unmounted(p))
  {
  }

  /** After unmount the subscription is gone: events and a late load change nothing. */
  lemma UnmountedIsInert(p: Provider, payload: map<string, JsValue>)
    ensures Updated(Unmounted(p), payload) == Unmounted(p)
    ensures Loaded(Unmounted(p)) == Unmounted(p)
  {
  }
}
