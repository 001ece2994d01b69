# Widgetify new-tab dashboard: storage-backed component state, in Dafny

This project models the decision logic and the state machines of four React
components of the Widgetify browser "new tab" extension:

- the **currency selection provider** (`CurrencyProvider`). It hydrates the selected currency codes and the
  colour mode from the persistent store, with defaults. The `currencies_updated`
  event overwrites both. Two effects write a changed value back: the list only when it
  is an array, the mode only when it is truthy.
- the **WigiPad clock** (`ClockDisplay`). Its settings come from the store under `clock`, or
  from a default record. The `wigiPadClockSettingsChanged` event replaces them. The
  settings choose the analog or the digital clock. The settings button publishes
  `openWidgetsSettings`.
- the **currency converter** (`CurrencyConverter`). It holds the from/to pair and its swap guard, and
  the effect that recomputes the converted amount from the two rial prices. It also has the
  decimal-count rule and the display-name fallback.
- the **home page** (`HomePage`). It decides between the welcome modal and the release
  notes. It loads the wallpaper through a fallback chain: stored, then random, then a
  fixed gradient. It handles `wallpaperChanged` and `openWidgetsSettings`, and toggles
  the page. It rewrites a gradient's CSS direction with a chain of first-occurrence
  `replace` calls, and cuts the widget row to four entries with its layout choice.

Module `Js` gives the JavaScript value semantics the components rely on:

- dynamically typed values (`JsValue`), truthiness, `??`, `||` and property access;
- `Object.is`, the test React uses to skip a state update;
- the persistent store, a map from key to value;
- `String.prototype.replace` with a string pattern.

Each component module has two parts:

- a snapshot datatype with one pure step function per event (mount, load
  completion, bus delivery, click, unmount), and lemmas that state what the
  source promises about those steps;
- a class whose fields are the component's React state variables. The provider,
  the clock and the home page also carry the store they read and a `mounted` flag;
  the converter reads no store and has no flag. A method that handles a modelled
  event is proved to move `State()` exactly as its step function says. The plain
  setters of the converter and `ChangeWallpaper` are proved to change only their
  own field, and `WelcomeModalOnClose` to change nothing.

Conventions of the model:

- A key absent from the store reads as `null`. This is what the `lastVersion` and
  `showWelcomeModal` checks of the home page depend on.
- After unmount, a React state update is dropped and no bus event is delivered.
- A state setter given an equal primitive value does nothing, so its effect does not
  run. Arrays and objects handed to a setter are taken to be fresh references.
- The home page's `ConfigKey.VERSION_NAME` is a constructor parameter.
- `ClockType.Digital` is taken to be `'digital'` and `WidgetTabKeys.wigiPad` to be
  `'wigiPad'`. Their declaring files are not part of this model.

Three behaviours of the code worth noting:

- Defaults are not applied "only on absence". The colour mode uses `||`, and the clock
  and wallpaper loads test truthiness, so a stored falsy value is replaced too.
- A wallpaper load that completes after unmount still changes the document and
  writes the store. The code has no liveness guard there.
- A `currencies_updated` event is written back to the store by the save effect,
  although it came from another writer.

Two quirks of the home page are kept as written:

- the direction `to-tr` reaches the `to-t` rule first and becomes `to topr`;
- the welcome modal's `onClose` returns `handleGetStarted` without calling it.

## Model

| member | source | states |
|---|---|---|
| CurrencyContext.CurrencyProvider.constructor | src/context/currency.context.tsx:29-32 | on mount both state variables are null and the store is untouched |
| CurrencyContext.BeforeLoad | src/context/currency.context.tsx:79-87 | before load the consumer sees `selectedCurrencies = []` and `currencyColorMode = null` |
| CurrencyContext.CurrencyProvider.Load | src/context/currency.context.tsx:35-42 | load reads both keys, then sets `stored ?? default` and `mode \|\| NORMAL`, each followed by its save effect |
| CurrencyContext.LoadCurrencies | src/context/currency.context.tsx:40 | after load the list is the stored one unless that is null/undefined, and the default otherwise; a stored empty list is kept |
| CurrencyContext.LoadColorMode | src/context/currency.context.tsx:41 | after load the mode is the stored one when truthy, `NORMAL` otherwise, so it is always truthy |
| CurrencyContext.LoadEmptyStore | src/context/currency.context.tsx:34-73 | on an empty store load gives `['USD','EUR','GRAM']` and `NORMAL` and writes both back |
| CurrencyContext.CurrencyProvider.OnCurrenciesUpdated | src/context/currency.context.tsx:44-50 | the event sets both fields from the payload, each followed by its save effect |
| CurrencyContext.EventOverwrites | src/context/currency.context.tsx:44-50 | a delivered event leaves exactly the payload's `currencies` and `colorMode`, whether or not load has run |
| CurrencyContext.CurrencyProvider.SetCurrencies | src/context/currency.context.tsx:58-63 | a list update writes key `currencies` only when the new value is an array |
| CurrencyContext.CurrencyProvider.SetColorMode | src/context/currency.context.tsx:65-73 | a mode update writes key `currencyColorMode` only when the new value is truthy |
| CurrencyContext.PersistOnlyDefinedValues | src/context/currency.context.tsx:58-73 | the store either stays as it is or gains exactly the new array or truthy mode under its own key; null never reaches it |
| CurrencyContext.CurrencyProvider.SetSelectedCurrencies | src/context/currency.context.tsx:80-87 | the consumer's list setter is the list update with save effect |
| CurrencyContext.CurrencyProvider.SetCurrencyColorMode | src/context/currency.context.tsx:80-87 | the consumer's mode setter is the mode update with save effect |
| CurrencyContext.CurrencyProvider.ReorderCurrencies | src/context/currency.context.tsx:75-77 | reordering has exactly the effect of `setSelectedCurrencies` on the same list |
| CurrencyContext.CurrenciesRoundTrip | src/context/currency.context.tsx:34-63 | a list set by a consumer is what a fresh provider loads from the resulting store |
| CurrencyContext.ColorModeRoundTrip | src/context/currency.context.tsx:34-73 | a mode set by a consumer is what a fresh provider loads, given that the store agreed with the state |
| CurrencyContext.StepsKeepConverged | src/context/currency.context.tsx:34-77 | every step keeps the store holding the current array list and truthy mode |
| CurrencyContext.CurrencyProvider.Unmount | src/context/currency.context.tsx:53-55 | unmount removes the subscription |
| CurrencyContext.UnmountedIsInert | src/context/currency.context.tsx:52-56 | after unmount, events and a late load change nothing |
| ClockDisplay.ClockDisplay.constructor | src/layouts/widgets/wigiPad/clock-display/clock-display.tsx:12-13 | the settings start null |
| ClockDisplay.NothingBeforeLoad | src/layouts/widgets/wigiPad/clock-display/clock-display.tsx:47-49 | while the settings are null nothing is rendered |
| ClockDisplay.ClockDisplay.Load | src/layouts/widgets/wigiPad/clock-display/clock-display.tsx:17-29 | load sets the stored `clock` value when truthy, the default record otherwise |
| ClockDisplay.LoadSettings | src/layouts/widgets/wigiPad/clock-display/clock-display.tsx:18-28 | a truthy stored value is taken exactly, otherwise the default; either way a clock is rendered afterwards |
| ClockDisplay.DefaultIsDigital | src/layouts/widgets/wigiPad/clock-display/clock-display.tsx:21-28 | with nothing stored the default record shows the digital clock |
| ClockDisplay.SettingsFrom | src/layouts/widgets/wigiPad/clock-display/clock-display.tsx:32-37 | the record built from a payload has exactly the four settings keys, each with the payload's value |
| ClockDisplay.ClockDisplay.OnSettingsChanged | src/layouts/widgets/wigiPad/clock-display/clock-display.tsx:31-38 | the event replaces the settings with the record built from the payload |
| ClockDisplay.EventKeepsFourFields | src/layouts/widgets/wigiPad/clock-display/clock-display.tsx:31-38 | after the event every settings field is the payload's for the four keys and absent for any other key |
| ClockDisplay.AnalogIff | src/layouts/widgets/wigiPad/clock-display/clock-display.tsx:68-72 | the analog clock is chosen iff `clockType` is exactly `'analog'`, the digital one otherwise |
| ClockDisplay.ClockDisplay.OnClickSettings | src/layouts/widgets/wigiPad/clock-display/clock-display.tsx:51-53 | the settings button publishes `openWidgetsSettings` with tab `wigiPad` and nothing else |
| ClockDisplay.ClockDisplay.Unmount | src/layouts/widgets/wigiPad/clock-display/clock-display.tsx:42-44 | unmount removes the subscription |
| ClockDisplay.UnmountedIsInert | src/layouts/widgets/wigiPad/clock-display/clock-display.tsx:40-45 | after unmount, a late load and further events change nothing |
| CurrencyConverter.CurrencyConverter.constructor | src/layouts/widgets/tools/currency/currency-converter.tsx:15-19 | the widget starts from `EUR` to `USD`, amount 1, converted 0, not swapping |
| CurrencyConverter.InitialState | src/layouts/widgets/tools/currency/currency-converter.tsx:15-19 | the initial snapshot has exactly those five values |
| CurrencyConverter.CurrencyConverter.HandleSwap | src/layouts/widgets/tools/currency/currency-converter.tsx:49-54 | a swap exchanges the two codes in one step and raises `isSwapping` |
| CurrencyConverter.CurrencyConverter.EndSwap | src/layouts/widgets/tools/currency/currency-converter.tsx:55 | the timer lowers `isSwapping` and changes nothing else |
| CurrencyConverter.CurrencyConverter.ClickSwap | src/layouts/widgets/tools/currency/currency-converter.tsx:113-118 | a click on the swap button swaps only when the button is enabled |
| CurrencyConverter.SwapTwiceRestores | src/layouts/widgets/tools/currency/currency-converter.tsx:49-53 | one swap exchanges the pair; two swaps restore it, with or without the guard lowered in between |
| CurrencyConverter.SwapGuard | src/layouts/widgets/tools/currency/currency-converter.tsx:113-118 | while `isSwapping` a click changes nothing, otherwise it is a swap |
| CurrencyConverter.CurrencyConverter.SetFromCurrency | src/layouts/widgets/tools/currency/currency-converter.tsx:99 | choosing a source currency changes only `fromCurrency` |
| CurrencyConverter.CurrencyConverter.SetToCurrency | src/layouts/widgets/tools/currency/currency-converter.tsx:135 | choosing a target currency changes only `toCurrency` |
| CurrencyConverter.CurrencyConverter.SetAmount | src/layouts/widgets/tools/currency/currency-converter.tsx:105 | typing an amount changes only `amount` |
| CurrencyConverter.CurrencyConverter.RunConversion | src/layouts/widgets/tools/currency/currency-converter.tsx:34-47 | the effect recomputes the converted amount exactly when its guard holds |
| CurrencyConverter.ConversionRule | src/layouts/widgets/tools/currency/currency-converter.tsx:35-41 | without both records, a non-zero amount and both prices non-zero nothing changes; otherwise only `convertedAmount` changes, to within 0.005 of `amount * from / to` |
| CurrencyConverter.ConversionExample | src/layouts/widgets/tools/currency/currency-converter.tsx:40-41 | 1 EUR at 1000 converted to USD at 500 gives exactly 2 |
| CurrencyConverter.RoundHalfUp | src/layouts/widgets/tools/currency/currency-converter.tsx:41 | the whole number nearest a non-negative value, a tie going up |
| CurrencyConverter.Hundredths | src/layouts/widgets/tools/currency/currency-converter.tsx:41 | the hundredths `toFixed(2)` shows are within half a unit of the value times 100 |
| CurrencyConverter.ToFixed2 | src/layouts/widgets/tools/currency/currency-converter.tsx:41 | `Number(x.toFixed(2))` is within 0.005 of `x` |
| CurrencyConverter.ToFixed2Exact | src/layouts/widgets/tools/currency/currency-converter.tsx:41 | a whole number of hundredths is left unchanged by the rounding |
| CurrencyConverter.DecimalRule | src/layouts/widgets/tools/currency/currency-converter.tsx:59-60 | 0 decimals iff the currency is `IRT` or `IRR`, 3 for any other currency and for none |
| CurrencyConverter.FindByKey | src/layouts/widgets/tools/currency/currency-converter.tsx:68 | `find` gives the first entry with the key, or reports that no entry has it |
| CurrencyConverter.GetCurrencyDisplay | src/layouts/widgets/tools/currency/currency-converter.tsx:67-72 | the code is the input; the name is the first match's non-empty Persian label, and the code otherwise, also when the list is missing or has no match |
| Home.HomePage.constructor | src/pages/home.tsx:131-135 | no modal, the home page, settings closed, no tab |
| Home.HomePage.DisplayModalIfNeeded | src/pages/home.tsx:137-149 | the modal decision reads the welcome flag and, only when needed, the last version |
| Home.WelcomeRule | src/pages/home.tsx:138-143 | the welcome modal is shown iff the stored flag is truthy or exactly null, and then `lastVersion` plays no part |
| Home.ReleaseNotesRule | src/pages/home.tsx:145-148 | otherwise the release notes are shown iff the stored version differs from the running one, and the welcome modal stays hidden |
| Home.HomePage.HandleGetStarted | src/pages/home.tsx:156-159 | "get started" stores `showWelcomeModal = false` and hides the modal |
| Home.HomePage.OnCloseReleaseNotes | src/pages/home.tsx:161-164 | closing the notes stores the running version and hides them |
| Home.ModalsAreRemembered | src/pages/home.tsx:137-164 | after "get started" the next visit shows no welcome; after closing the notes as well, it shows neither modal |
| Home.HomePage.WelcomeModalOnClose | src/pages/home.tsx:336 | closing the welcome modal changes nothing, because the handler is returned and not called |
| Home.HomePage.ChangeWallpaper | src/pages/home.tsx:231-299 | applying a wallpaper records it as the last one applied and changes nothing else in the state |
| Home.FromRandom | src/pages/home.tsx:184-190 | the stored form of a random wallpaper keeps its id, type, source and gradient and turns retouching off |
| Home.HomePage.LoadWallpaper | src/pages/home.tsx:177-208 | the load follows the stored, random, default-gradient chain |
| Home.WallpaperChain | src/pages/home.tsx:177-208 | a stored wallpaper is shown and the store untouched; otherwise the random one, else the default gradient, is shown and stored; the store then holds what is shown |
| Home.DefaultGradientShown | src/pages/home.tsx:194-204 | the default gradient runs from `#a1c4fd` to `#c2e9fb` towards `to-r` |
| Home.PaintGradient | src/pages/home.tsx:247-261 | a GRADIENT wallpaper with a string direction is drawn from its `from` and `to` colours in the direction the `replace` chain gives |
| Home.PaintDefaultGradient | src/pages/home.tsx:194-204 | the default gradient is drawn `to right` from `#a1c4fd` to `#c2e9fb` |
| Home.PaintKeepsPrevious | src/pages/home.tsx:231-298 | the previous background stays iff the type is none of IMAGE/GRADIENT/VIDEO or a GRADIENT lacks `gradient` |
| Home.PaintFromRandom | src/pages/home.tsx:184-190 | a random wallpaper is drawn as the random record would be, with retouching off |
| Home.HomePage.OnWallpaperChanged | src/pages/home.tsx:167-175 | a delivered wallpaper event is handled as the pure step says |
| Home.WallpaperEvent | src/pages/home.tsx:167-175 | a truthy payload is shown and stored; a falsy one changes nothing |
| Home.HomePage.OnOpenWidgetsSettings | src/pages/home.tsx:218-224 | the event opens the settings modal and sets the tab only to a truthy one |
| Home.HomePage.CloseWidgetSettings | src/pages/home.tsx:310-313 | closing the settings modal resets the flag and the tab to null |
| Home.SettingsModal | src/pages/home.tsx:218-223 | the modal always opens; the tab changes only to a truthy `data.tab`; nothing else changes; closing resets both |
| Home.ClockButtonOpensWigiPadTab | src/pages/home.tsx:220-222 | the clock's settings request opens the modal on the `wigiPad` tab |
| Home.HomePage.TogglePage | src/pages/home.tsx:347-349 | the corner button switches between `home` and `wigi-page` |
| Home.PageToggleAlternates | src/pages/home.tsx:347-349 | a toggle always changes the page and two toggles restore the state |
| Home.HomePage.Unmount | src/pages/home.tsx:212-214 | unmount removes the subscriptions |
| Home.UnmountedHandlers | src/pages/home.tsx:166-229 | after unmount, events and a late modal decision change nothing, while a late wallpaper load still writes the store |
| Js.IndexOfFrom | src/pages/home.tsx:250-257 | the first position where a pattern occurs, or that it occurs nowhere |
| Js.ReplaceFirstAt | src/pages/home.tsx:250-257 | `replace` rewrites exactly the first occurrence of its pattern |
| Js.NoMatch | src/pages/home.tsx:250-257 | a pattern that does not occur leaves the string unchanged |
| Js.NoMatchNear | src/pages/home.tsx:250-257 | in a string at most one longer than the pattern, a mismatch at each possible position leaves the string unchanged |
| Js.ReplaceFirstMissingChar | src/pages/home.tsx:250-257 | a pattern holding a character the string lacks leaves it unchanged |
| Home.ApplyRulesWithoutDash | src/pages/home.tsx:249-257 | rules whose patterns all contain `-` leave a string without `-` unchanged |
| Home.DirectionWithoutDash | src/pages/home.tsx:249-257 | a direction without `-` is passed through unchanged |
| Home.FiresAt | src/pages/home.tsx:249-257 | when earlier rules change nothing and the k-th leaves no `-`, the chain's result is the k-th rule's |
| Home.DirectionToRight | src/pages/home.tsx:250 | `to-r` becomes `to right` |
| Home.DirectionToLeft | src/pages/home.tsx:251 | `to-l` becomes `to left` |
| Home.DirectionToTop | src/pages/home.tsx:252 | `to-t` becomes `to top` |
| Home.DirectionToBottom | src/pages/home.tsx:253 | `to-b` becomes `to bottom` |
| Home.DirectionToTopRight | src/pages/home.tsx:249-257 | `to-tr` becomes `to topr`, because the `to-t` rule fires before the `to-tr` rule |
| Home.DirectionToTopLeft | src/pages/home.tsx:249-257 | `to-tl` becomes `to topl` |
| Home.DirectionToBottomRight | src/pages/home.tsx:249-257 | `to-br` becomes `to bottomr` |
| Home.DirectionToBottomLeft | src/pages/home.tsx:249-257 | `to-bl` becomes `to bottoml` |
| Home.HomeWidgets | src/pages/home.tsx:38 | the row shows the first `min(4, n)` sorted widgets, in order |
| Home.LayoutChoice | src/pages/home.tsx:40-47 | the flex layout is used iff exactly two widgets are shown, the grid otherwise |

## Left out

- The document changes made by `changeWallpaper` are described by `Paint` but not kept in the state: the state holds the wallpaper last handed to it (`lastApplied`). A wallpaper of unknown type, or a GRADIENT without `gradient`, only removes the video and leaves the previous body background on screen; `lastApplied` then differs from what is seen. The exact CSS strings and filters are not modelled.
- A GRADIENT wallpaper whose direction is not a string makes `changeWallpaper` throw (`Paint` gives `Throws`); the state steps do not model that exception, which in `loadWallpaper` would also skip the store write.
- Event payloads are objects (`map<string, JsValue>`). A null or undefined payload, on which `data.currencies`, `data.clockType` or `data.tab` would throw, is not modelled; the publishers' types rule it out.
- The converter has no `mounted` flag: the swap timer's `setIsSwapping(false)` firing after unmount, which React drops, changes the model's (unobserved) state.
- Storage is modelled as a map. Its asynchrony, `Promise.all` and I/O failures are left out. Each load completes in one step after its reads, and the two awaits of `displayModalIfNeeded` are one step.
- Interleavings of a load with events are not treated specially: the steps compose in any order.
- The event bus is not modelled as a component. A delivery to a live subscriber is a method call, and publishing returns the message.
- Data-fetching hooks are inputs to the steps that use them: the rate lookups, the supported-currency list and `getRandomWallpaper`. Their loading flags and spinners are left out.
- Analytics calls, toasts, JSX, CSS classes, `contentAlignment` and the `WigiPage` grid are left out.
- `Intl.NumberFormat` is left out; only the decimal-count rule is modelled. `Number(e)` parsing of the amount input and `NaN` are left out too.
- `useCurrencyStore`'s throw is not modelled. The context always has a non-null default, so it cannot fire.
- `src/layouts/widgets/network/components/network-ip-card.tsx` is left out. It only guards a clipboard write and shows a toast.
- CurrencyConverter.ToFixed2: rounds the exact real value. Binary floating-point representation is not modelled, and neither is exponent notation for magnitudes of 1e21 and above.
- Js.SameValue: arrays and objects handed to a setter are always taken to be new references. A caller that passes back the current array itself, which React would skip, is not modelled.
