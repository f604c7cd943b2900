/** What the four operations of `Tsugi\Core\Settings` guarantee, stated on
    the transition functions of TsugiCore that the class's methods follow. */
module SettingsProperties {
  import opened PhpValue
  import opened TsugiCore

  // ---------------------------------------------------------------------
  // linkGetAll

  /** The defaults have exactly the six distinct legacy names as keys (the
      repeated "due" adds nothing), each mapped to its custom parameter. */
  lemma DefaultsShape(custom: Key -> Value)
    ensures Defaults(custom).Keys == LegacyKeys()
    ensures |Defaults(custom)| == 6
    ensures forall k :: k in Defaults(custom) ==> Defaults(custom)[k] == custom(k)
  {
    assert Defaults(custom).Keys == LegacyKeys() by {
      forall k | k in LegacyFields ensures k in LegacyKeys() { }
      forall k | k in LegacyKeys() ensures k in LegacyFields {
        if k == "dologin" { assert LegacyFields[0] == k; }
        else if k == "close" { assert LegacyFields[1] == k; }
        else if k == "due" { assert LegacyFields[2] == k; }
        else if k == "timezone" { assert LegacyFields[4] == k; }
        else if k == "period" { assert LegacyFields[5] == k; }
        else { assert LegacyFields[6] == k; }
      }
    }
    LegacyKeysCount();
  }

  /** The six distinct legacy field names. */
  function LegacyKeys(): set<Key> {
    {"dologin", "close", "due", "timezone", "period", "cost"}
  }

  lemma LegacyKeysCount()
    ensures |LegacyKeys()| == 6
  {
    var s1: set<Key> := {"dologin"};
    var s2 := s1 + {"close"};
    assert "close" !in s1 by { assert |"close"| != |"dologin"|; }
    var s3 := s2 + {"due"};
    assert "due" !in s2 by { assert |"due"| != |"dologin"| && |"due"| != |"close"|; }
    var s4 := s3 + {"timezone"};
    assert "timezone" !in s3;
    var s5 := s4 + {"period"};
    assert "period" !in s4;
    var s6 := s5 + {"cost"};
    assert "cost" !in s5;
    assert s6 == LegacyKeys();
  }

  /** With no cached blob and no stored blob (no row, or a null column), the
      read returns exactly the defaults and changes nothing. */
  lemma GetAllWithoutBlobIsDefaults(g: Globals, custom: Key -> Value)
    requires !CacheHit(g) && !g.row.Stored?
    ensures GetAll(g, Defaults(custom)) == Defaults(custom)
    ensures AfterGetAll(g) == g
  {
  }

  /** With no cached blob and a stored blob, the read returns the defaults
      overlaid by the stored blob: stored keys win, and every default key
      survives. The stored blob is cached if and only if a session exists. */
  lemma GetAllFromRow(g: Globals, defaults: SettingsMap)
    requires !CacheHit(g) && g.row.Stored?
    ensures var all := GetAll(g, defaults);
      && all.Keys == defaults.Keys + g.row.settings.Keys
      && (forall k :: k in g.row.settings ==> all[k] == g.row.settings[k])
      && (forall k :: k in defaults && k !in g.row.settings ==> all[k] == defaults[k])
    ensures AfterGetAll(g).row == g.row
    ensures AfterGetAll(g).session ==
      (if g.session.Active? then Active(Some(g.row.settings)) else NoSession)
  {
  }

  /** On a cache hit the read returns the cached blob whatever the row and
      the defaults are, and changes nothing. */
  lemma GetAllOnCacheHit(g: Globals, defaults: SettingsMap, otherRow: Row, otherDefaults: SettingsMap)
    requires CacheHit(g)
    ensures GetAll(g, defaults) == g.session.slot.value
    ensures GetAll(g.(row := otherRow), otherDefaults) == GetAll(g, defaults)
    ensures AfterGetAll(g) == g
  {
  }

  /** The cache-hit path does not merge the defaults: when a read fills the
      cache from a row, a default key absent from the stored blob is in the
      first read's result and missing from the second's. */
  lemma SecondReadDropsDefaults(settings: SettingsMap, defaults: SettingsMap, k: Key)
    requires k in defaults && k !in settings
    ensures var g := Globals(Stored(settings), Active(None));
      && Lookup(GetAll(g, defaults), k) == defaults[k]
      && Lookup(GetAll(AfterGetAll(g), defaults), k) == Bool(false)
  {
    var g := Globals(Stored(settings), Active(None));
    assert GetAll(g, defaults) == Merge(defaults, settings);
    assert AfterGetAll(g).session == Active(Some(settings));
  }

  /** Apart from that one case (a session with an empty slot and a stored
      blob), a read leaves the globals as they were, so reading again gives
      the same result. */
  lemma ReadIsRepeatable(g: Globals, defaults: SettingsMap)
    requires !(g.session == Active(None) && g.row.Stored?)
    ensures AfterGetAll(g) == g
    ensures GetAll(AfterGetAll(g), defaults) == GetAll(g, defaults)
  {
  }

  // ---------------------------------------------------------------------
  // linkSetAll

  /** When the link has a row or a session exists, reading after
      `linkSetAll(keyvals)` finds every key of `keyvals` with its value: the
      cache holds exactly `keyvals`, and without a session the row's blob is
      `keyvals` merged over the defaults. */
  lemma SetAllThenGetAll(g: Globals, defaults: SettingsMap, keyvals: SettingsMap, k: Key)
    requires !g.row.Missing? || g.session.Active?
    requires k in keyvals
    ensures GetAll(AfterSetAll(g, keyvals), defaults) ==
      (if g.session.Active? then keyvals else Merge(defaults, keyvals))
    ensures Lookup(GetAll(AfterSetAll(g, keyvals), defaults), k) == keyvals[k]
  {
    var g' := AfterSetAll(g, keyvals);
    if g.session.Active? {
      assert CacheHit(g');
    } else {
      assert g'.row == Stored(keyvals);
    }
  }

  /** `linkSetAll` of an empty map empties the settings: a later read gives
      only the defaults without a session, and an empty map with one. */
  lemma SetAllEmptyClears(g: Globals, defaults: SettingsMap)
    requires !g.row.Missing?
    ensures AfterSetAll(g, map[]).row == Stored(map[])
    ensures GetAll(AfterSetAll(g, map[]), defaults) ==
      (if g.session.Active? then map[] else defaults)
  {
    assert Merge(defaults, map[]) == defaults;
  }

  /** Without a row and without a session the write is lost: the UPDATE
      touches nothing and no cache is written. */
  lemma SetAllWithoutRowOrSessionIsLost(g: Globals, keyvals: SettingsMap)
    requires g.row.Missing? && g.session.NoSession?
    ensures AfterSetAll(g, keyvals) == g
  {
  }

  // ---------------------------------------------------------------------
  // linkSet

  /** When every key of `keyvals` already has a loosely equal value in the
      current settings, `linkSet` writes nothing: the globals are those a
      plain read leaves, the row is untouched, and the session changes only
      by the read's own caching. */
  lemma SetCoveredIsNoWrite(g: Globals, defaults: SettingsMap, keyvals: SettingsMap)
    requires Covered(keyvals, GetAll(g, defaults))
    ensures AfterSet(g, defaults, keyvals) == AfterGetAll(g)
    ensures AfterSet(g, defaults, keyvals).row == g.row
  {
  }

  /** In particular, setting values that are already stored exactly is a
      no-op. */
  lemma SetUnchangedValuesIsNoWrite(g: Globals, defaults: SettingsMap, keyvals: SettingsMap)
    requires forall k :: k in keyvals ==>
      k in GetAll(g, defaults) && GetAll(g, defaults)[k] == keyvals[k]
    ensures AfterSet(g, defaults, keyvals) == AfterGetAll(g)
  {
    var all := GetAll(g, defaults);
    forall k | k in keyvals ensures k in all && LooseEquals(keyvals[k], all[k]) {
      EqualIsLooselyEqual(keyvals[k], all[k]);
    }
  }

  /** Loose comparison: setting the integer 1 where the string "1" is stored
      is a no-op, and the string stays. */
  lemma SetLooselyEqualIsNoWrite(g: Globals, defaults: SettingsMap)
    requires !CacheHit(g) && g.row.Stored? && g.row.settings == map["a" := Str("1")]
    ensures AfterSet(g, defaults, map["a" := Int(1)]) == AfterGetAll(g)
    ensures Lookup(GetAll(AfterSet(g, defaults, map["a" := Int(1)]), defaults), "a") == Str("1")
  {
    var all := GetAll(g, defaults);
    assert all["a"] == Str("1");
    NumericStringsCompareAsNumbers();
    LooseEqualsSymmetric(Int(1), Str("1"));
    assert Covered(map["a" := Int(1)], all);
  }

  /** When some key of `keyvals` is missing or differs, `linkSet` stores the
      current settings merged with `keyvals` (in the row if there is one, in
      the cache if there is a session): every key of `keyvals` takes its new
      value and every other current key, defaults included, keeps its own. */
  lemma SetWritesMerge(g: Globals, defaults: SettingsMap, keyvals: SettingsMap)
    requires !Covered(keyvals, GetAll(g, defaults))
    ensures var all := GetAll(g, defaults);
      var m := Merge(all, keyvals);
      && AfterSet(g, defaults, keyvals) ==
         Globals(if g.row.Missing? then Missing else Stored(m),
                 if g.session.Active? then Active(Some(m)) else NoSession)
      && m.Keys == all.Keys + keyvals.Keys
      && (forall k :: k in keyvals ==> m[k] == keyvals[k])
      && (forall k :: k in all && k !in keyvals ==> m[k] == all[k])
  {
    var all := GetAll(g, defaults);
    var g1 := AfterGetAll(g);
    assert g1.row == g.row && g1.session.Active? == g.session.Active?;
  }

  /** The first write of a link whose settings came from the row persists
      every legacy default along with the new keys. */
  lemma SetPersistsDefaults(g: Globals, defaults: SettingsMap, keyvals: SettingsMap)
    requires !CacheHit(g) && !g.row.Missing?
    requires !Covered(keyvals, GetAll(g, defaults))
    ensures AfterSet(g, defaults, keyvals).row.Stored?
    ensures defaults.Keys <= AfterSet(g, defaults, keyvals).row.settings.Keys
  {
    SetWritesMerge(g, defaults, keyvals);
  }

  /** Read after a writing `linkSet`: when the link has a row or a session
      exists, `linkGet(k)` returns exactly the value just set. */
  lemma SetThenGetAfterWrite(g: Globals, defaults: SettingsMap, keyvals: SettingsMap, k: Key)
    requires !g.row.Missing? || g.session.Active?
    requires !Covered(keyvals, GetAll(g, defaults))
    requires k in keyvals
    ensures Lookup(GetAll(AfterSet(g, defaults, keyvals), defaults), k) == keyvals[k]
  {
    var all := GetAll(g, defaults);
    var g1 := AfterGetAll(g);
    assert g1.row.Missing? == g.row.Missing? && g1.session.Active? == g.session.Active?;
    SetAllThenGetAll(g1, defaults, Merge(all, keyvals), k);
  }

  /** Read after a `linkSet` that wrote nothing: `linkGet(k)` returns a
      value loosely equal to the one set, unless the read inside it filled
      the cache from a stored blob that lacks `k` (a key it held reads back
      from the cache). */
  lemma SetThenGetAfterNoWrite(g: Globals, defaults: SettingsMap, keyvals: SettingsMap, k: Key)
    requires !(g.session == Active(None) && g.row.Stored?) || k in g.row.settings
    requires Covered(keyvals, GetAll(g, defaults))
    requires k in keyvals
    ensures LooseEquals(Lookup(GetAll(AfterSet(g, defaults, keyvals), defaults), k), keyvals[k])
  {
    LooseEqualsSymmetric(keyvals[k], GetAll(g, defaults)[k]);
  }

  /** ... and when it did fill the cache, a key whose value came only from
      the defaults is lost: `linkSet({"due": "x"})` with a `due` default of
      "x" and an empty stored blob writes nothing, and the next `linkGet("due")`
      returns false. */
  lemma SetThenGetLosesDefault()
    ensures var defaults := Defaults(k => if k == "due" then Str("x") else Null);
      var g := Globals(Stored(map[]), Active(None));
      var keyvals := map["due" := Str("x")];
      && Covered(keyvals, GetAll(g, defaults))
      && Lookup(GetAll(AfterSet(g, defaults, keyvals), defaults), "due") == Bool(false)
      && !LooseEquals(Lookup(GetAll(AfterSet(g, defaults, keyvals), defaults), "due"), keyvals["due"])
  {
    var custom: Key -> Value := k => if k == "due" then Str("x") else Null;
    var defaults := Defaults(custom);
    DefaultsShape(custom);
    assert "due" in defaults && defaults["due"] == Str("x");
    var g := Globals(Stored(map[]), Active(None));
    var keyvals := map["due" := Str("x")];
    assert GetAll(g, defaults) == defaults;
    LooseEqualsReflexive(Str("x"));
    assert Covered(keyvals, GetAll(g, defaults));
    SecondReadDropsDefaults(map[], defaults, "due");
  }
}
