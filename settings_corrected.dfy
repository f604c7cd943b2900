/** `linkGetAll` as its own documentation describes it: the legacy custom
    parameters are defaults for every key the settings do not have, on the
    cache-hit path as on the row path. With that one change a read no longer
    changes what the next read returns, and `linkSet` followed by `linkGet`
    finds the value just set. */
module CorrectedSettings {
  import opened PhpValue
  import opened TsugiCore

  /** The read with the defaults merged under the cached blob too. */
  function GetAllMerged(g: Globals, defaults: SettingsMap): SettingsMap {
    if CacheHit(g) then Merge(defaults, g.session.slot.value)
    else GetAll(g, defaults)
  }

  /** `linkSet` over the corrected read; the caching and the write are those
      of the program. */
  function AfterSetMerged(g: Globals, defaults: SettingsMap, keyvals: SettingsMap): Globals {
    var all := GetAllMerged(g, defaults);
    if Covered(keyvals, all) then AfterGetAll(g)
    else AfterSetAll(AfterGetAll(g), Merge(all, keyvals))
  }

  /** Every default key is in every corrected read. */
  lemma MergedReadKeepsDefaults(g: Globals, defaults: SettingsMap)
    ensures defaults.Keys <= GetAllMerged(g, defaults).Keys
  {
  }

  /** Filling the cache no longer changes what a read returns. */
  lemma MergedReadIsRepeatable(g: Globals, defaults: SettingsMap)
    ensures GetAllMerged(AfterGetAll(g), defaults) == GetAllMerged(g, defaults)
  {
    if !CacheHit(g) && g.row.Stored? && g.session.Active? {
      assert CacheHit(AfterGetAll(g));
    } else {
      assert AfterGetAll(g) == g;
    }
  }

  /** Read after write: when the link has a row or a session exists, a read
      after the corrected `linkSet(keyvals)` finds each key of `keyvals` with
      its value when a write happened, and with a loosely equal value when it
      did not. */
  lemma MergedSetThenGet(g: Globals, defaults: SettingsMap, keyvals: SettingsMap, k: Key)
    requires !g.row.Missing? || g.session.Active?
    requires k in keyvals
    ensures var v := Lookup(GetAllMerged(AfterSetMerged(g, defaults, keyvals), defaults), k);
      LooseEquals(v, keyvals[k])
    ensures !Covered(keyvals, GetAllMerged(g, defaults)) ==>
      Lookup(GetAllMerged(AfterSetMerged(g, defaults, keyvals), defaults), k) == keyvals[k]
  {
    var all := GetAllMerged(g, defaults);
    var g1 := AfterGetAll(g);
    if Covered(keyvals, all) {
      MergedReadIsRepeatable(g, defaults);
      LooseEqualsSymmetric(keyvals[k], all[k]);
    } else {
      var m := Merge(all, keyvals);
      var g2 := AfterSetAll(g1, m);
      assert g1.row.Missing? == g.row.Missing? && g1.session.Active? == g.session.Active?;
      if g.session.Active? {
        assert CacheHit(g2) && g2.session.slot.value == m;
      } else {
        assert g2.row == Stored(m);
      }
      assert Lookup(GetAllMerged(g2, defaults), k) == keyvals[k];
      LooseEqualsReflexive(keyvals[k]);
    }
  }

  /** The situation of SettingsProperties.SetThenGetLosesDefault (a session
      with an empty slot, a stored blob without key `k`, and `linkSet` of
      `k`'s default value) no longer loses the default. */
  lemma MergedKeepsDefaultAfterSet(settings: SettingsMap, defaults: SettingsMap, k: Key)
    requires k in defaults && k !in settings
    ensures var g := Globals(Stored(settings), Active(None));
      Lookup(GetAllMerged(AfterSetMerged(g, defaults, map[k := defaults[k]]), defaults), k) == defaults[k]
  {
    var g := Globals(Stored(settings), Active(None));
    var all := GetAllMerged(g, defaults);
    LooseEqualsReflexive(defaults[k]);
    assert Covered(map[k := defaults[k]], all);
    assert AfterSetMerged(g, defaults, map[k := defaults[k]]) == AfterGetAll(g);
    MergedReadIsRepeatable(g, defaults);
  }
}
