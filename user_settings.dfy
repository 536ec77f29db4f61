/**
 * The user's preferences and the key-value store (`UserDefaults`) they persist to.
 * Swift runs a property's `didSet` on every assignment except those made by the class's own
 * initializer, so assignments in `init` read the store without writing it back.
 */
module UserSettings {

  import IntConversions

  /** What a key of the store holds. */
  datatype StoredValue = DoubleValue(d: real) | BoolValue(b: bool) | IntValue(i: int)

  const HighPriceThresholdKey: string := "highPriceThreshold"
  const LowPriceThresholdKey: string := "lowPriceThreshold"
  const NotificationsEnabledKey: string := "notificationsEnabled"
  const RefreshIntervalKey: string := "refreshInterval"

  /** `double(forKey:)`: 0 for a missing key; numbers convert, a boolean reads as 1 or 0. */
  function DoubleFor(entries: map<string, StoredValue>, key: string): real
  {
    if key !in entries then 0.0
    else match entries[key]
      case DoubleValue(d) => d
      case IntValue(i) => i as real
      case BoolValue(b) => if b then 1.0 else 0.0
  }

  /** `integer(forKey:)`: 0 for a missing key; a double is truncated, a boolean reads as 1 or 0. */
  function IntegerFor(entries: map<string, StoredValue>, key: string): int
  {
    if key !in entries then 0
    else match entries[key]
      case DoubleValue(d) => IntConversions.TruncateToInt(d)
      case IntValue(i) => i
      case BoolValue(b) => if b then 1 else 0
  }

  /** `bool(forKey:)`: false for a missing key; a number reads as true when non-zero. */
  function BoolFor(entries: map<string, StoredValue>, key: string): bool
  {
    if key !in entries then false
    else match entries[key]
      case DoubleValue(d) => d != 0.0
      case IntValue(i) => i != 0
      case BoolValue(b) => b
  }

  /** A key-value store shared by everything that holds a reference to it. */
  class Defaults {
    var entries: map<string, StoredValue>

    constructor (entries: map<string, StoredValue>)
      ensures this.entries == entries
    {
      this.entries := entries;
    }

    /** `set(_:forKey:)`. */
    method Set(key: string, value: StoredValue)
      modifies this
      ensures entries == old(entries)[key := value]
    {
      entries := entries[key := value];
    }
  }

  /** The four preferences as one value. */
  datatype Preferences = Preferences(
    highPriceThreshold: real, lowPriceThreshold: real, notificationsEnabled: bool, refreshInterval: int)

  /** The private defaults, which are also the properties' initial values. */
  const DefaultPreferences: Preferences := Preferences(10.0, 2.0, true, 30)

  /**
   * What `init` ends with for a given store: a threshold or interval is adopted only when it
   * reads as non-zero, the notifications flag whenever its key is present.
   */
  function Loaded(entries: map<string, StoredValue>): (p: Preferences)
    ensures p.highPriceThreshold ==
      if DoubleFor(entries, HighPriceThresholdKey) != 0.0 then DoubleFor(entries, HighPriceThresholdKey) else 10.0
    ensures p.lowPriceThreshold ==
      if DoubleFor(entries, LowPriceThresholdKey) != 0.0 then DoubleFor(entries, LowPriceThresholdKey) else 2.0
    ensures p.notificationsEnabled ==
      if NotificationsEnabledKey in entries then BoolFor(entries, NotificationsEnabledKey) else true
    ensures p.refreshInterval ==
      if IntegerFor(entries, RefreshIntervalKey) != 0 then IntegerFor(entries, RefreshIntervalKey) else 30
  {
    var high := DoubleFor(entries, HighPriceThresholdKey);
    var low := DoubleFor(entries, LowPriceThresholdKey);
    var interval := IntegerFor(entries, RefreshIntervalKey);
    Preferences(
      if high != 0.0 then high else DefaultPreferences.highPriceThreshold,
      if low != 0.0 then low else DefaultPreferences.lowPriceThreshold,
      if NotificationsEnabledKey in entries then BoolFor(entries, NotificationsEnabledKey)
      else DefaultPreferences.notificationsEnabled,
      if interval != 0 then interval else DefaultPreferences.refreshInterval)
  }

  /** The store after all four preferences have been written to it. */
  function Persisted(entries: map<string, StoredValue>, p: Preferences): map<string, StoredValue>
  {
    entries[HighPriceThresholdKey := DoubleValue(p.highPriceThreshold)]
           [LowPriceThresholdKey := DoubleValue(p.lowPriceThreshold)]
           [NotificationsEnabledKey := BoolValue(p.notificationsEnabled)]
           [RefreshIntervalKey := IntValue(p.refreshInterval)]
  }

  /** An empty store yields the defaults. */
  lemma EmptyStoreLoadsDefaults()
    ensures Loaded(map[]) == DefaultPreferences
  {
  }

  /**
   * Writing preferences and loading them back gives them back, provided no threshold or interval
   * is zero (a stored zero means "unset").
   */
  lemma PersistThenLoad(entries: map<string, StoredValue>, p: Preferences)
    requires p.highPriceThreshold != 0.0 && p.lowPriceThreshold != 0.0 && p.refreshInterval != 0
    ensures Loaded(Persisted(entries, p)) == p
  {
  }

  class UserSettings {
    const store: Defaults
    var highPriceThreshold: real
    var lowPriceThreshold: real
    var notificationsEnabled: bool
    var refreshInterval: int

    function Current(): Preferences
      reads this
    {
      Preferences(highPriceThreshold, lowPriceThreshold, notificationsEnabled, refreshInterval)
    }

    /** `init`: start from the defaults, then adopt what the store holds. Nothing is written. */
    constructor (store: Defaults)
      ensures this.store == store
      ensures Current() == Loaded(store.entries)
    {
      this.store := store;
      highPriceThreshold := 10.0;
      lowPriceThreshold := 2.0;
      notificationsEnabled := true;
      refreshInterval := 30;
      new;
      var storedHighThreshold := DoubleFor(store.entries, HighPriceThresholdKey);
      if storedHighThreshold != 0.0 {
        highPriceThreshold := storedHighThreshold;
      }
      var storedLowThreshold := DoubleFor(store.entries, LowPriceThresholdKey);
      if storedLowThreshold != 0.0 {
        lowPriceThreshold := storedLowThreshold;
      }
      if NotificationsEnabledKey in store.entries {
        notificationsEnabled := BoolFor(store.entries, NotificationsEnabledKey);
      }
      var storedRefreshInterval := IntegerFor(store.entries, RefreshIntervalKey);
      if storedRefreshInterval != 0 {
        refreshInterval := storedRefreshInterval;
      }
    }

    /** Assigning `highPriceThreshold`; `didSet` writes that one key. */
    method SetHighPriceThreshold(value: real)
      modifies this, store
      ensures Current() == old(Current()).(highPriceThreshold := value)
      ensures store.entries == old(store.entries)[HighPriceThresholdKey := DoubleValue(value)]
    {
      highPriceThreshold := value;
      store.Set(HighPriceThresholdKey, DoubleValue(highPriceThreshold));
    }

    method SetLowPriceThreshold(value: real)
      modifies this, store
      ensures Current() == old(Current()).(lowPriceThreshold := value)
      ensures store.entries == old(store.entries)[LowPriceThresholdKey := DoubleValue(value)]
    {
      lowPriceThreshold := value;
      store.Set(LowPriceThresholdKey, DoubleValue(lowPriceThreshold));
    }

    method SetNotificationsEnabled(value: bool)
      modifies this, store
      ensures Current() == old(Current()).(notificationsEnabled := value)
      ensures store.entries == old(store.entries)[NotificationsEnabledKey := BoolValue(value)]
    {
      notificationsEnabled := value;
      store.Set(NotificationsEnabledKey, BoolValue(notificationsEnabled));
    }

    method SetRefreshInterval(value: int)
      modifies this, store
      ensures Current() == old(Current()).(refreshInterval := value)
      ensures store.entries == old(store.entries)[RefreshIntervalKey := IntValue(value)]
    {
      refreshInterval := value;
      store.Set(RefreshIntervalKey, IntValue(refreshInterval));
    }

    /** `resetToDefaults`: four assignments, each persisted by its `didSet`. */
    method ResetToDefaults()
      modifies this, store
      ensures Current() == DefaultPreferences
      ensures store.entries == Persisted(old(store.entries), DefaultPreferences)
    {
      SetHighPriceThreshold(DefaultPreferences.highPriceThreshold);
      SetLowPriceThreshold(DefaultPreferences.lowPriceThreshold);
      SetNotificationsEnabled(DefaultPreferences.notificationsEnabled);
      SetRefreshInterval(DefaultPreferences.refreshInterval);
    }
  }

  /** Resetting twice leaves the same preferences and the same store as resetting once. */
  method ResetIsIdempotent(settings: UserSettings)
    modifies settings, settings.store
    ensures settings.Current() == DefaultPreferences
    ensures settings.store.entries == Persisted(old(settings.store.entries), DefaultPreferences)
  {
    settings.ResetToDefaults();
    ghost var once := settings.store.entries;
    settings.ResetToDefaults();
    assert settings.store.entries == once;
  }

  /** A non-zero high threshold assigned through one object is what a new object on the same store starts with. */
  method HighThresholdRoundTrip(settings: UserSettings, value: real) returns (reloaded: UserSettings)
    requires value != 0.0
    modifies settings, settings.store
    ensures reloaded.highPriceThreshold == value
  {
    settings.SetHighPriceThreshold(value);
    reloaded := new UserSettings(settings.store);
  }
}
