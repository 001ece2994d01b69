/** The WigiPad clock: one state variable holding the clock settings, loaded from
    the store under `clock` (with a default record when nothing truthy is stored)
    and replaced by the `wigiPadClockSettingsChanged` event. */
module ClockDisplay {
  import opened Js

  const ClockKey := "clock"

  /** The four fields a clock settings record carries. */
  const SettingsKeys: set<string> := {"clockType", "showSeconds", "showTimeZone", "useSelectedFont"}

  /** `ClockType.Digital` with seconds, time zone and the selected font shown. */
  const DefaultSettings: JsValue := Obj(map[
    "clockType" := Str("digital"),
    "showSeconds" := Bool(true),
    "showTimeZone" := Bool(true),
    "useSelectedFont" := Bool(true)])

  /** The settings state and whether the component is mounted (and so subscribed). */
  datatype Clock = Clock(settings: JsValue, mounted: bool)

  datatype Face = Nothing | Analog | Digital

  /** What the settings button publishes: open the widget settings on the WigiPad tab. */
  const SettingsRequest: Message := Message("openWidgetsSettings", map["tab" := Str("wigiPad")])

  function Mount(): Clock
  {
    Clock(Null, true)
  }

  /** Completion of `load`: the stored record when truthy, otherwise the default. */
  function Loaded(c: Clock, store: Store): Clock
  {
    if !c.mounted then c
    else
      var stored := Read(store, ClockKey);
      c.(settings := if Truthy(stored) then stored else DefaultSettings)
  }

  /** The record the event handler builds: the payload's four settings fields only. */
  function SettingsFrom(data: map<string, JsValue>): (r: JsValue)
    ensures r.Obj? && r.fields.Keys == SettingsKeys
    ensures forall k :: k in SettingsKeys ==> r.fields[k] == Get(data, k)
  {
    Obj(map k | k in SettingsKeys :: Get(data, k))
  }

  function SettingsChanged(c: Clock, data: map<string, JsValue>): Clock
  {
    if !c.mounted then c else c.(settings := SettingsFrom(data))
  }

  function Unmounted(c: Clock): Clock
  {
    c.(mounted := false)
  }

  /** What is rendered: nothing while the settings are falsy, the analog clock when
      `clockType` is exactly 'analog', the digital clock otherwise. */
  function Rendered(settings: JsValue): Face
  {
    if !Truthy(settings) then Nothing
    else if Field(settings, "clockType") == Str("analog") then Analog
    else Digital
  }

  class ClockDisplay {
    var clockSettings: JsValue
    var mounted: bool
    const store: Store

    function State(): Clock
      reads this
    {
      Clock(clockSettings, mounted)
    }

    constructor (store: Store)
      ensures State() == Mount() && this.store == store
    {
      clockSettings := Null;
      mounted := true;
      this.store := store;
    }

    method Load()
      modifies this
      ensures State() == Loaded(old(State()), store)
    {
      var clockFromStore := Read(store, ClockKey);
      if mounted {
        if Truthy(clockFromStore) {
          clockSettings := clockFromStore;
        } else {
          clockSettings := DefaultSettings;
        }
      }
    }

    method OnSettingsChanged(data: map<string, JsValue>)
      modifies this
      ensures State() == SettingsChanged(old(State()), data)
    {
      if mounted {
        clockSettings := SettingsFrom(data);
      }
    }

    method Unmount()
      modifies this
      ensures State() == Unmounted(old(State()))
    {
      mounted := false;
    }

    /** The settings button publishes `openWidgetsSettings` for the WigiPad tab. */
    method OnClickSettings() returns (m: Message)
      ensures m.topic == "openWidgetsSettings"
      ensures m.payload.Keys == {"tab"} && m.payload["tab"] == Str("wigiPad")
    {
      m := SettingsRequest;
    }
  }

  // ---------------------------------------------------------------------------
  // Properties of the clock

  /** The settings start null and nothing is rendered until they are set. */
  lemma NothingBeforeLoad()
    ensures Mount().settings == Null && Rendered(Mount().settings) == Nothing
  {
  }

  /** Load takes a truthy stored value exactly, otherwise the default record; either
      way the clock is rendered afterwards. */
  lemma LoadSettings(c: Clock, store: Store)
    requires c.mounted
    ensures Truthy(Read(store, ClockKey)) ==> Loaded(c, store).settings == Read(store, ClockKey)
    ensures !Truthy(Read(store, ClockKey)) ==> Loaded(c, store).settings == DefaultSettings
    ensures Rendered(Loaded(c, store).settings) != Nothing
  {
  }

  /** With nothing stored the default is the digital clock. */
  lemma DefaultIsDigital()
    ensures Rendered(Loaded(Mount(), map[]).settings) == Digital
  {
    assert Field(DefaultSettings, "clockType") == Str("digital");
  }

  /** The event keeps exactly the four settings fields of its payload. */
  lemma EventKeepsFourFields(c: Clock, data: map<string, JsValue>, k: string)
    requires c.mounted
    ensures Field(SettingsChanged(c, data).settings, k) == if k in SettingsKeys then Get(data, k) else Undefined
  {
  }

  /** The analog clock is chosen iff `clockType` is 'analog'. */
  lemma AnalogIff(settings: JsValue)
    requires Truthy(settings)
    ensures Rendered(settings) == Analog <==> Field(settings, "clockType") == Str("analog")
    ensures Rendered(settings) == Digital <==> Field(settings, "clockType") != Str("analog")
  {
  }

  /** After unmount, a late load and further events change nothing. */
  lemma UnmountedIsInert(c: Clock, store: Store, data: map<string, JsValue>)
    ensures Loaded(Unmounted(c), store) == Unmounted(c)
    ensures SettingsChanged(Unmounted(c), data) == Unmounted(c)
  {
  }
}
