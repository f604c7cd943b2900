/** One request as a sequence of calls to the four operations of
    `Tsugi\Core\Settings`, and what no sequence of calls can change: none of
    them creates the link's row or the session, and once the session caches a
    blob it keeps one. */
module SettingsRequests {
  import opened TsugiCore

  datatype Call =
    | GetAllCall
    | GetCall(key: Key)
    | SetAllCall(keyvals: SettingsMap)
    | SetCall(keyvals: SettingsMap)

  /** The globals after one call; `linkGet` changes them as `linkGetAll`
      does. */
  function Step(g: Globals, defaults: SettingsMap, call: Call): Globals {
    match call
    case GetAllCall => AfterGetAll(g)
    case GetCall(_) => AfterGetAll(g)
    case SetAllCall(keyvals) => AfterSetAll(g, keyvals)
    case SetCall(keyvals) => AfterSet(g, defaults, keyvals)
  }

  /** The globals after the calls, in order. */
  function Run(g: Globals, defaults: SettingsMap, calls: seq<Call>): Globals
    decreases |calls|
  {
    if calls == [] then g else Run(Step(g, defaults, calls[0]), defaults, calls[1..])
  }

  /** One call keeps whether the row exists and whether the session exists,
      and a cached blob stays cached. */
  lemma StepKeepsShape(g: Globals, defaults: SettingsMap, call: Call)
    ensures Step(g, defaults, call).row.Missing? == g.row.Missing?
    ensures Step(g, defaults, call).session.Active? == g.session.Active?
    ensures CacheHit(g) ==> CacheHit(Step(g, defaults, call))
  {
  }

  /** No sequence of calls creates the link's row (the write is an UPDATE)
      or the session, or removes either. */
  lemma {:induction false} RunKeepsRowAndSession(g: Globals, defaults: SettingsMap, calls: seq<Call>)
    ensures Run(g, defaults, calls).row.Missing? == g.row.Missing?
    ensures Run(g, defaults, calls).session.Active? == g.session.Active?
    decreases |calls|
  {
    if calls != [] {
      StepKeepsShape(g, defaults, calls[0]);
      RunKeepsRowAndSession(Step(g, defaults, calls[0]), defaults, calls[1..]);
    }
  }

  /** Once the session caches a blob, every later read is a cache hit. */
  lemma {:induction false} RunKeepsCacheHit(g: Globals, defaults: SettingsMap, calls: seq<Call>)
    requires CacheHit(g)
    ensures CacheHit(Run(g, defaults, calls))
    decreases |calls|
  {
    if calls != [] {
      StepKeepsShape(g, defaults, calls[0]);
      RunKeepsCacheHit(Step(g, defaults, calls[0]), defaults, calls[1..]);
    }
  }

  /** For a link with no row and no session, no sequence of calls changes
      anything: every write is lost, and every read returns the defaults. */
  lemma {:induction false} RunWithoutRowOrSessionChangesNothing(g: Globals, defaults: SettingsMap, calls: seq<Call>)
    requires g.row.Missing? && g.session.NoSession?
    ensures Run(g, defaults, calls) == g
    ensures GetAll(Run(g, defaults, calls), defaults) == defaults
    decreases |calls|
  {
    if calls != [] {
      assert Step(g, defaults, calls[0]) == g;
      RunWithoutRowOrSessionChangesNothing(g, defaults, calls[1..]);
    }
  }

  /** A request made only of reads leaves the globals as they were, except
      that a session with an empty slot caches the stored blob. */
  lemma {:induction false} RunOfReadsOnlyCaches(g: Globals, defaults: SettingsMap, calls: seq<Call>)
    requires forall i :: 0 <= i < |calls| ==> calls[i].GetAllCall? || calls[i].GetCall?
    ensures Run(g, defaults, calls) == if calls == [] then g else AfterGetAll(g)
    decreases |calls|
  {
    if calls != [] {
      var g1 := Step(g, defaults, calls[0]);
      assert g1 == AfterGetAll(g);
      assert AfterGetAll(g1) == g1;
      RunOfReadsOnlyCaches(g1, defaults, calls[1..]);
    }
  }
}
