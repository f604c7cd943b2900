/** Link-level settings of an LTI tool placement (`Tsugi\Core\Settings`).

    The PHP class reads three pieces of global state: the `lti_link` row of
    the current link (through `$PDOX`), the `link_settings` slot of
    `$_SESSION['lti']`, and the legacy custom launch parameters (through
    `LTIX::getCustom`). Here the first two are the fields of class `Settings`
    and the third is a function fixed at construction. The JSON text that the
    row and the session slot hold is represented by the map it decodes to.

    The transition functions below (`GetAll`, `AfterGetAll`, `AfterSetAll`,
    `AfterSet`) describe each operation on a `Globals` value; the methods of
    the class are proved to follow them, and SettingsProperties proves what
    they mean. */
module TsugiCore {
  import opened PhpValue

  type Key = string

  /** A decoded settings blob: `json_decode($json, true)` of a JSON object. */
  type SettingsMap = map<Key, Value>

  datatype Option<T> = None | Some(value: T)

  /** The `settings` column of the link's row: no row at all, a row whose
      column is SQL null, or a row holding a blob. */
  datatype Row = Missing | NullSettings | Stored(settings: SettingsMap)

  /** `$_SESSION['lti']`: not set, or set with the `link_settings` slot empty
      or holding the cached blob. */
  datatype Session = NoSession | Active(slot: Option<SettingsMap>)

  datatype Globals = Globals(row: Row, session: Session)

  /** The legacy field names, in the order and with the repetition of the
      source. */
  const LegacyFields: seq<Key> := ["dologin", "close", "due", "due", "timezone", "period", "cost"]

  /** `$defaults`: each legacy field mapped to its custom launch parameter. */
  function Defaults(custom: Key -> Value): SettingsMap {
    map k | k in LegacyFields :: custom(k)
  }

  /** `array_merge($base, $over)` on string keys: every key of either map,
      the value of `over` winning where both have the key. */
  function Merge(base: SettingsMap, over: SettingsMap): (m: SettingsMap)
    ensures m.Keys == base.Keys + over.Keys
    ensures forall k :: k in over ==> m[k] == over[k]
    ensures forall k :: k in base && k !in over ==> m[k] == base[k]
  {
    base + over
  }

  predicate CacheHit(g: Globals) {
    g.session.Active? && g.session.slot.Some?
  }

  /** What `linkGetAll` returns: the cached blob as it is on a cache hit,
      otherwise the defaults, merged under the stored blob when the row holds
      one. */
  function GetAll(g: Globals, defaults: SettingsMap): SettingsMap {
    if CacheHit(g) then g.session.slot.value
    else match g.row
      case Missing => defaults
      case NullSettings => defaults
      case Stored(settings) => Merge(defaults, settings)
  }

  /** The globals after `linkGetAll`: a blob read from the row is cached when
      a session exists; nothing else changes. */
  function AfterGetAll(g: Globals): Globals {
    if !CacheHit(g) && g.row.Stored? && g.session.Active? then
      g.(session := Active(Some(g.row.settings)))
    else g
  }

  /** What `linkGet` returns: the value under `key`, or `false`. */
  function Lookup(all: SettingsMap, key: Key): Value {
    if key in all then all[key] else Bool(false)
  }

  /** The globals after `linkSetAll(keyvals)`. The write is an SQL UPDATE, so
      a link without a row keeps having none; the cache is overwritten only
      when a session exists. */
  function AfterSetAll(g: Globals, keyvals: SettingsMap): Globals {
    Globals(
      if g.row.Missing? then Missing else Stored(keyvals),
      if g.session.Active? then Active(Some(keyvals)) else NoSession)
  }

  /** No key of `keyvals` is missing from `all` or loosely different there:
      the condition under which `linkSet` does not write. */
  predicate Covered(keyvals: SettingsMap, all: SettingsMap) {
    forall k :: k in keyvals ==> k in all && LooseEquals(keyvals[k], all[k])
  }

  /** The globals after `linkSet(keyvals)`: a read, then, unless every key is
      already covered, `linkSetAll` of the read settings merged with
      `keyvals`. */
  function AfterSet(g: Globals, defaults: SettingsMap, keyvals: SettingsMap): Globals {
    var all := GetAll(g, defaults);
    if Covered(keyvals, all) then AfterGetAll(g)
    else AfterSetAll(AfterGetAll(g), Merge(all, keyvals))
  }

  class Settings {
    /** The `lti_link` row of the current link. */
    var row: Row
    /** `$_SESSION['lti']` and its `link_settings` slot. */
    var session: Session
    /** `LTIX::getCustom`, fixed for the request. */
    const custom: Key -> Value

    ghost function State(): Globals
      reads this
    {
      Globals(row, session)
    }

    constructor (row: Row, session: Session, custom: Key -> Value)
      ensures State() == Globals(row, session) && this.custom == custom
    {
      this.row := row;
      this.session := session;
      this.custom := custom;
    }

    /** The loop of `linkGetAll` that fills `$defaults`. */
    method BuildDefaults() returns (defaults: SettingsMap)
      ensures defaults == Defaults(custom)
    {
      defaults := map[];
      var i := 0;
      while i < |LegacyFields|
        invariant 0 <= i <= |LegacyFields|
        invariant defaults == map k | k in LegacyFields[..i] :: custom(k)
      {
        var k := LegacyFields[i];
        assert LegacyFields[..i + 1] == LegacyFields[..i] + [k];
        defaults := defaults[k := custom(k)];
        i := i + 1;
      }
      assert LegacyFields[..i] == LegacyFields;
    }

    method LinkSetAll(keyvals: SettingsMap)
      modifies this
      ensures State() == AfterSetAll(old(State()), keyvals)
    {
      if !row.Missing? {
        row := Stored(keyvals);
      }
      if session.Active? {
        session := Active(Some(keyvals));
      }
    }

    method LinkGetAll() returns (all: SettingsMap)
      modifies this`session
      ensures all == GetAll(old(State()), Defaults(custom))
      ensures State() == AfterGetAll(old(State()))
    {
      var defaults := BuildDefaults();
      if session.Active? && session.slot.Some? {
        return session.slot.value;
      }
      if row.Missing? || row.NullSettings? {
        return defaults;
      }
      var stored := row.settings;
      if session.Active? {
        session := Active(Some(stored));
      }
      all := Merge(defaults, stored);
    }

    method LinkGet(key: Key) returns (value: Value)
      modifies this`session
      ensures value == Lookup(GetAll(old(State()), Defaults(custom)), key)
      ensures State() == AfterGetAll(old(State()))
    {
      var allSettings := LinkGetAll();
      if key in allSettings {
        value := allSettings[key];
      } else {
        value := Bool(false);
      }
    }

    /** The scan of `linkSet`: stops at the first key of `keyvals` that is
        missing from `allSettings` or loosely different there. */
    static method FindDifference(keyvals: SettingsMap, allSettings: SettingsMap) returns (different: bool)
      ensures different <==> !Covered(keyvals, allSettings)
    {
      different := false;
      var pending := keyvals.Keys;
      while pending != {}
        invariant pending <= keyvals.Keys
        invariant forall k :: k in keyvals && k !in pending ==> k in allSettings && LooseEquals(keyvals[k], allSettings[k])
        decreases pending
      {
        var k :| k in pending;
        if k in allSettings {
          if !LooseEquals(keyvals[k], allSettings[k]) {
            different := true;
            break;
          }
        } else {
          different := true;
          break;
        }
        pending := pending - {k};
      }
    }

    method LinkSet(keyvals: SettingsMap)
      modifies this
      ensures State() == AfterSet(old(State()), Defaults(custom), keyvals)
    {
      var allSettings := LinkGetAll();
      var different := FindDifference(keyvals, allSettings);
      if !different {
        return;
      }
      var newSettings := Merge(allSettings, keyvals);
      LinkSetAll(newSettings);
    }
  }
}
