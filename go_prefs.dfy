/**
 The preferences the Go language object adds when it is created: defaults
 for the tool locations, the editor settings of a first start, and the
 one-time registration of the GoFmt formatter. The global preference set is
 a map from preference names to values; a nested preference set carries its
 own id and map.
 */
module GoLanguagePrefs {

  datatype Pref =
    | StringPref(s: string)
    | LongPref(n: int)
    | BooleanPref(b: bool)
    | OrderedPref(items: seq<string>)
    | PrefSet(id: string, entries: map<string, Pref>)

  type Prefs = map<string, Pref>

  const GoFormatterUuid := "{cf500001-ec59-4047-86e7-369d257f4b80}"
  const InstalledFlag := "haveInstalledGoFormatter"
  const FormattersKey := "configuredFormatters"

  /** `prefs.getBoolean(key, default)`. */
  function GetBoolean(prefs: Prefs, key: string, default: bool): (b: bool)
    requires key !in prefs || prefs[key].BooleanPref?
    ensures key !in prefs ==> b == default
    ensures key in prefs ==> prefs[key] == BooleanPref(b)
  {
    if key in prefs then prefs[key].b else default
  }

  /** Sets `key` to `value` unless the key is already there (`hasPref` then `setStringPref`). */
  function WithDefault(prefs: Prefs, key: string, value: Pref): (r: Prefs)
    ensures key in r && (key in prefs ==> r[key] == prefs[key]) && (key !in prefs ==> r[key] == value)
    ensures r.Keys == prefs.Keys + {key}
    ensures forall k :: k in prefs && k != key ==> r[k] == prefs[k]
  {
    if key in prefs then prefs else prefs[key := value]
  }

  /**
   The location defaults: each missing tool location becomes "". When the
   go location itself is missing (a first start), the Go editor settings
   are set as well, whatever they were.
   */
  function WithLocationDefaults(prefs: Prefs): Prefs {
    var p := WithDefault(WithDefault(prefs, "gocodeDefaultLocation", StringPref("")),
                         "godefDefaultLocation", StringPref(""));
    if "golangDefaultLocation" in p then p else WithFirstStartSettings(p)
  }

  /** An empty go location, and the Go editor settings: utf-8, a width of 8, tabs. */
  function WithFirstStartSettings(prefs: Prefs): Prefs {
    prefs["golangDefaultLocation" := StringPref("")]
         ["Go/newEncoding" := StringPref("utf-8")]
         ["Go/indentWidth" := LongPref(8)]
         ["Go/useTabs" := BooleanPref(true)]
  }

  /** The preference set describing the GoFmt formatter: `go fmt` run through the generic formatter. */
  const GoFormatterPrefs: Pref :=
    PrefSet(GoFormatterUuid, map[
      "lang" := StringPref("Go"),
      "name" := StringPref("GoFmt"),
      "uuid" := StringPref(GoFormatterUuid),
      "formatter_name" := StringPref("generic"),
      "genericFormatterPrefs" := PrefSet("genericFormatterPrefs", map[
        "executable" := StringPref("%(go)"),
        "arguments" := StringPref("fmt")])])

  /**
   What the registration needs from the host: the flag, when present, is a
   boolean, and while it is not set the formatter list exists.
   */
  predicate CanRegisterFormatter(prefs: Prefs) {
    && (InstalledFlag !in prefs || prefs[InstalledFlag].BooleanPref?)
    && (!GetBoolean(prefs, InstalledFlag, false) ==>
          FormattersKey in prefs && prefs[FormattersKey].OrderedPref?)
  }

  /**
   Registers the formatter unless the flag says it is installed: its uuid is
   appended to the formatter list, its preference set is stored under the
   uuid and the flag is set.
   */
  function WithGoFormatter(prefs: Prefs): Prefs
    requires CanRegisterFormatter(prefs)
  {
    if GetBoolean(prefs, InstalledFlag, false) then prefs else WithFormatterRegistered(prefs)
  }

  /** The uuid appended to the formatter list, the formatter stored under it, the flag set. */
  function WithFormatterRegistered(prefs: Prefs): Prefs
    requires FormattersKey in prefs && prefs[FormattersKey].OrderedPref?
  {
    prefs[FormattersKey := OrderedPref(prefs[FormattersKey].items + [GoFormatterUuid])]
         [GoFormatterUuid := GoFormatterPrefs]
         [InstalledFlag := BooleanPref(true)]
  }

  /** The location defaults leave the flag and the formatter list alone. */
  lemma LocationDefaultsKeepFormatterKeys(prefs: Prefs)
    ensures InstalledFlag in WithLocationDefaults(prefs) <==> InstalledFlag in prefs
    ensures InstalledFlag in prefs ==> WithLocationDefaults(prefs)[InstalledFlag] == prefs[InstalledFlag]
    ensures FormattersKey in WithLocationDefaults(prefs) <==> FormattersKey in prefs
    ensures FormattersKey in prefs ==> WithLocationDefaults(prefs)[FormattersKey] == prefs[FormattersKey]
  {
  }

  /** The registration touches only the flag, the formatter list and the formatter's own entry. */
  lemma GoFormatterKeepsOthers(prefs: Prefs, key: string)
    requires CanRegisterFormatter(prefs)
    requires key != InstalledFlag && key != FormattersKey && key != GoFormatterUuid
    ensures key in WithGoFormatter(prefs) <==> key in prefs
    ensures key in prefs ==> WithGoFormatter(prefs)[key] == prefs[key]
  {
  }

  /** Everything the language object's constructor does to the global preferences. */
  function WithGoDefaults(prefs: Prefs): (r: Prefs)
    requires CanRegisterFormatter(prefs)
    ensures prefs.Keys <= r.Keys
    ensures "gocodeDefaultLocation" in r && "godefDefaultLocation" in r && "golangDefaultLocation" in r
    ensures CanRegisterFormatter(r) && GetBoolean(r, InstalledFlag, false)
  {
    LocationDefaultsKeepFormatterKeys(prefs);
    WithGoFormatter(WithLocationDefaults(prefs))
  }

  // ---- Properties ----

  /** A tool location that is already set is never overwritten, and a missing one becomes "". */
  lemma LocationsKept(prefs: Prefs, key: string)
    requires CanRegisterFormatter(prefs)
    requires key in {"gocodeDefaultLocation", "godefDefaultLocation", "golangDefaultLocation"}
    ensures key in WithGoDefaults(prefs)
    ensures key in prefs ==> WithGoDefaults(prefs)[key] == prefs[key]
    ensures key !in prefs ==> WithGoDefaults(prefs)[key] == StringPref("")
  {
    LocationDefaultsKeepFormatterKeys(prefs);
  }

  /**
   The editor settings are written exactly on a first start (no go location
   yet), and then they are utf-8, a width of 8 and tabs.
   */
  lemma EditorSettingsOnFirstStart(prefs: Prefs)
    requires CanRegisterFormatter(prefs)
    ensures "golangDefaultLocation" !in prefs ==>
      && WithGoDefaults(prefs)["Go/newEncoding"] == StringPref("utf-8")
      && WithGoDefaults(prefs)["Go/indentWidth"] == LongPref(8)
      && WithGoDefaults(prefs)["Go/useTabs"] == BooleanPref(true)
    ensures "golangDefaultLocation" in prefs ==>
      forall k :: k in {"Go/newEncoding", "Go/indentWidth", "Go/useTabs"} ==>
        (k in WithGoDefaults(prefs) <==> k in prefs) &&
        (k in prefs ==> WithGoDefaults(prefs)[k] == prefs[k])
  {
    LocationDefaultsKeepFormatterKeys(prefs);
    var loc := WithLocationDefaults(prefs);
    forall k | k in {"Go/newEncoding", "Go/indentWidth", "Go/useTabs"}
      ensures k in WithGoDefaults(prefs) <==> k in loc
      ensures k in loc ==> WithGoDefaults(prefs)[k] == loc[k]
    {
      GoFormatterKeepsOthers(loc, k);
    }
  }

  /**
   The formatter is registered exactly while the flag is unset: its uuid is
   appended once to the list, and afterwards the flag is set.
   */
  lemma FormatterRegisteredOnce(prefs: Prefs)
    requires CanRegisterFormatter(prefs)
    ensures GetBoolean(WithGoDefaults(prefs), InstalledFlag, false)
    ensures !GetBoolean(prefs, InstalledFlag, false) ==>
      && WithGoDefaults(prefs)[FormattersKey] == OrderedPref(prefs[FormattersKey].items + [GoFormatterUuid])
      && WithGoDefaults(prefs)[GoFormatterUuid] == GoFormatterPrefs
    ensures GetBoolean(prefs, InstalledFlag, false) ==>
      && (FormattersKey in WithGoDefaults(prefs) <==> FormattersKey in prefs)
      && (FormattersKey in prefs ==> WithGoDefaults(prefs)[FormattersKey] == prefs[FormattersKey])
  {
    LocationDefaultsKeepFormatterKeys(prefs);
  }

  /** A second start changes nothing: the defaults and the formatter are added once. */
  lemma GoDefaultsIdempotent(prefs: Prefs)
    requires CanRegisterFormatter(prefs)
    ensures CanRegisterFormatter(WithGoDefaults(prefs))
    ensures WithGoDefaults(WithGoDefaults(prefs)) == WithGoDefaults(prefs)
  {
    FormatterRegisteredOnce(prefs);
    var once := WithGoDefaults(prefs);
    LocationsKept(prefs, "gocodeDefaultLocation");
    LocationsKept(prefs, "godefDefaultLocation");
    LocationsKept(prefs, "golangDefaultLocation");
    assert WithLocationDefaults(once) == once;
  }

  /** Preferences the constructor does not name are left as they were. */
  lemma OtherPrefsUntouched(prefs: Prefs, key: string)
    requires CanRegisterFormatter(prefs)
    requires key !in {"gocodeDefaultLocation", "godefDefaultLocation", "golangDefaultLocation",
                      "Go/newEncoding", "Go/indentWidth", "Go/useTabs",
                      InstalledFlag, FormattersKey, GoFormatterUuid}
    ensures key in WithGoDefaults(prefs) <==> key in prefs
    ensures key in prefs ==> WithGoDefaults(prefs)[key] == prefs[key]
  {
  }

  /** The global preference service, updated in place by the language object's constructor. */
  class GlobalPrefs {
    var prefs: Prefs

    constructor (initial: Prefs)
      ensures prefs == initial
    {
      prefs := initial;
    }

    /** The constructor's preference updates, one `hasPref`/`set…Pref` at a time. */
    method AddGoDefaults()
      requires CanRegisterFormatter(prefs)
      modifies this
      ensures prefs == WithGoDefaults(old(prefs))
    {
      LocationDefaultsKeepFormatterKeys(prefs);
      prefs := WithDefault(prefs, "gocodeDefaultLocation", StringPref(""));
      prefs := WithDefault(prefs, "godefDefaultLocation", StringPref(""));
      if "golangDefaultLocation" !in prefs {
        prefs := WithFirstStartSettings(prefs);
      }
      if !GetBoolean(prefs, InstalledFlag, false) {
        prefs := WithFormatterRegistered(prefs);
      }
    }
  }
}
