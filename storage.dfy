/** Loading, saving and resetting settings and statistics against the
    Preferences namespace (src/storage.cpp). Every operation first opens the
    namespace; when that fails (`storeFails`) it returns without touching the
    store or any global. */
module Storage {
  import opened Config
  import opened Prefs
  import opened Device

  const KEY_MODE: string := "pourMode"
  const KEY_VOLUME: string := "volume"
  const KEY_SHOT: string := "shot"
  const KEY_POURS: string := "totalPours"
  const KEY_TOTAL_VOLUME: string := "totalVolume"
  const KEY_TOTAL_TIME: string := "totalTime"
  const KEY_ERRORS: string := "errors"

  const SettingsKeys: set<string> := {KEY_MODE, KEY_VOLUME, KEY_SHOT}
  const StatsKeys: set<string> := {KEY_POURS, KEY_TOTAL_VOLUME, KEY_TOTAL_TIME, KEY_ERRORS}

  /** The persisted user settings: mode code, target volume, selected shot. */
  datatype Settings = Settings(mode: int, volume: U16, shot: U8)

  const DefaultSettings: Settings := Settings(MODE_MANUAL, VOLUME_DEFAULT, 1)

  /** The settings `loadSettings` reads, each key falling back to its default. */
  function StoredSettings(s: Store): (r: Settings)
    ensures s.Keys !! SettingsKeys ==> r == DefaultSettings
    ensures 0 <= r.mode < Two8
  {
    Settings(GetUChar(s, KEY_MODE, MODE_MANUAL),
             GetUShort(s, KEY_VOLUME, VOLUME_DEFAULT),
             GetUChar(s, KEY_SHOT, 1))
  }

  /** The statistics `loadSettings` reads into `base`: the four persisted
      counters come from the store (zero when absent); the last-pour fields
      are never persisted and keep their in-memory values. */
  function StoredStats(s: Store, base: Statistics): (r: Statistics)
    ensures r.lastPourVolume == base.lastPourVolume && r.lastPourTime == base.lastPourTime
    ensures s.Keys !! StatsKeys ==> r == base.(totalPours := 0, totalVolume := 0, totalTime := 0, errors := 0)
  {
    base.(totalPours := GetUInt(s, KEY_POURS, 0),
          totalVolume := GetUInt(s, KEY_TOTAL_VOLUME, 0),
          totalTime := GetUInt(s, KEY_TOTAL_TIME, 0),
          errors := GetUInt(s, KEY_ERRORS, 0))
  }

  /** The store after `saveSettings` wrote `st`. Reading it back gives `st`
      with the mode narrowed to a byte; the statistics keys are untouched. */
  function WithSettings(s: Store, st: Settings): (r: Store)
    ensures StoredSettings(r) == st.(mode := st.mode % Two8)
    ensures 0 <= st.mode < Two8 ==> StoredSettings(r) == st
    ensures forall k :: k in StatsKeys ==> (k in r <==> k in s) && (k in s ==> r[k] == s[k])
    ensures r.Keys == s.Keys + SettingsKeys
  {
    var s1 := PutUChar(s, KEY_MODE, st.mode);
    var s2 := PutUShort(s1, KEY_VOLUME, st.volume);
    PutUChar(s2, KEY_SHOT, st.shot)
  }

  /** A second save of settings replaces the first entirely. */
  lemma SaveSettingsTwice(s: Store, a: Settings, b: Settings)
    ensures WithSettings(WithSettings(s, a), b) == WithSettings(s, b)
  {
  }

  /** The store after `saveStatistics` wrote the four persisted counters of
      `st`. Reading it back restores those counters into any in-memory
      record; the settings keys are untouched. */
  function WithStats(s: Store, st: Statistics): (r: Store)
    ensures forall base :: StoredStats(r, base) == base.(totalPours := st.totalPours,
      totalVolume := st.totalVolume, totalTime := st.totalTime, errors := st.errors)
    ensures StoredStats(r, st) == st
    ensures StoredSettings(r) == StoredSettings(s)
    ensures r.Keys == s.Keys + StatsKeys
  {
    var s1 := PutUInt(s, KEY_POURS, st.totalPours);
    var s2 := PutUInt(s1, KEY_TOTAL_VOLUME, st.totalVolume);
    var s3 := PutUInt(s2, KEY_TOTAL_TIME, st.totalTime);
    PutUInt(s3, KEY_ERRORS, st.errors)
  }

  /** The settings currently held in the globals. */
  function CurrentSettings(d: DeviceState): Settings
    reads d
  {
    Settings(d.mode, d.targetVolume, d.selectedShot)
  }

  /** `loadSettings`: copy the stored settings and counters into the
      globals, with no range check on volume or shot. */
  method LoadSettings(d: DeviceState)
    requires d.Consistent()
    modifies d`mode, d`targetVolume, d`selectedShot, d`stats
    ensures d.Consistent()
    ensures d.storeFails ==> CurrentSettings(d) == old(CurrentSettings(d)) && d.stats == old(d.stats)
    ensures !d.storeFails ==> CurrentSettings(d) == StoredSettings(d.store)
    ensures !d.storeFails ==> d.stats == StoredStats(d.store, old(d.stats))
    ensures d.Valid() <==> if d.storeFails then old(d.Valid()) else 1 <= StoredSettings(d.store).shot <= SHOT_COUNT
  {
    if d.storeFails {
      return;
    }
    d.mode := GetUChar(d.store, KEY_MODE, MODE_MANUAL);
    d.targetVolume := GetUShort(d.store, KEY_VOLUME, VOLUME_DEFAULT);
    d.selectedShot := GetUChar(d.store, KEY_SHOT, 1);

    d.stats := d.stats.(totalPours := GetUInt(d.store, KEY_POURS, 0));
    d.stats := d.stats.(totalVolume := GetUInt(d.store, KEY_TOTAL_VOLUME, 0));
    d.stats := d.stats.(totalTime := GetUInt(d.store, KEY_TOTAL_TIME, 0));
    d.stats := d.stats.(errors := GetUInt(d.store, KEY_ERRORS, 0));
  }

  /** `saveSettings`: persist mode, volume and shot. */
  method SaveSettings(d: DeviceState)
    modifies d`store
    ensures d.store == if d.storeFails then old(d.store) else WithSettings(old(d.store), CurrentSettings(d))
  {
    if d.storeFails {
      return;
    }
    d.store := PutUChar(d.store, KEY_MODE, d.mode);
    d.store := PutUShort(d.store, KEY_VOLUME, d.targetVolume);
    d.store := PutUChar(d.store, KEY_SHOT, d.selectedShot);
  }

  /** `saveStatistics`: persist the four lifetime counters. */
  method SaveStatistics(d: DeviceState)
    modifies d`store
    ensures d.store == if d.storeFails then old(d.store) else WithStats(old(d.store), d.stats)
  {
    if d.storeFails {
      return;
    }
    d.store := PutUInt(d.store, KEY_POURS, d.stats.totalPours);
    d.store := PutUInt(d.store, KEY_TOTAL_VOLUME, d.stats.totalVolume);
    d.store := PutUInt(d.store, KEY_TOTAL_TIME, d.stats.totalTime);
    d.store := PutUInt(d.store, KEY_ERRORS, d.stats.errors);
  }

  /** `resetSettings`: erase the whole namespace, statistics keys included,
      and restore the default settings in memory; the in-memory statistics
      are left as they are. */
  method ResetSettings(d: DeviceState)
    requires d.Consistent()
    modifies d`store, d`mode, d`targetVolume, d`selectedShot
    ensures d.Consistent()
    ensures d.storeFails ==> d.store == old(d.store) && CurrentSettings(d) == old(CurrentSettings(d))
    ensures !d.storeFails ==> d.store == map[] && CurrentSettings(d) == DefaultSettings && d.Valid()
  {
    if d.storeFails {
      return;
    }
    d.store := map[];
    d.mode := MODE_MANUAL;
    d.targetVolume := VOLUME_DEFAULT;
    d.selectedShot := 1;
  }

  /** `resetStatistics`: zero all six counters in memory, then persist. */
  method ResetStatistics(d: DeviceState)
    modifies d`stats, d`store
    ensures d.stats == ZeroStats
    ensures d.store == if d.storeFails then old(d.store) else WithStats(old(d.store), ZeroStats)
  {
    d.stats := d.stats.(totalPours := 0, totalVolume := 0, totalTime := 0, errors := 0);
    d.stats := d.stats.(lastPourVolume := 0, lastPourTime := 0);
    SaveStatistics(d);
  }
}
