# Tsugi link settings, modelled in Dafny

This project models `Tsugi\Core\Settings` (lib/settings.class.php), the
link-level settings store of the Tsugi LTI tool framework. A "link" is one
placement of a tool in a learning management system. Its settings are a
key/value blob kept as JSON text in the `settings` column of the link's
`lti_link` row and cached in `$_SESSION['lti']['link_settings']`. Legacy LTI 1.x
custom launch parameters serve as defaults.

The model treats the class's global state as a small state machine:

- `TsugiCore.Row`: the link's row. It is `Missing`, `NullSettings` (a SQL null
  column), or `Stored(settings)`.
- `TsugiCore.Session`: `NoSession` when `$_SESSION['lti']` is not set, else
  `Active(slot)` with the slot empty or holding a cached blob.
- `custom: Key -> Value`: stands for `LTIX::getCustom` and is fixed for the
  request. The defaults map each of the legacy names `dologin`, `close`, `due`,
  `due`, `timezone`, `period` and `cost` to its custom parameter.

Module by module:

- `TsugiCore` (settings.dfy) describes each operation as a pure transition
  function on `Globals(row, session)`: `GetAll`, `AfterGetAll`, `Lookup`,
  `AfterSetAll` and `AfterSet`. Class `Settings` holds `row` and `session` as
  fields. Its methods `LinkSetAll`, `LinkGetAll`, `LinkGet` and `LinkSet` update
  those fields in place and are proved to follow the transition functions. The
  loop that builds `$defaults` is `BuildDefaults`. The scan in `linkSet` that
  breaks at the first difference is `FindDifference`.
- `SettingsProperties` (settings_properties.dfy) proves what the operations
  mean. It covers the shape of the defaults, the three read paths, the
  precedence of stored keys over defaults, and what `linkSetAll` leaves behind.
  For `linkSet` it proves the no-write condition, the merged write, and read
  after write.
- `PhpValue` (php_value.dfy) gives the scalar values a decoded blob holds
  (null, booleans, integers and strings). It also gives PHP 8's loose `==`,
  which `linkSet` uses to decide whether a key changed: `"1" == 1` holds, and
  loose equality is not transitive.
- `SettingsRequests` (settings_requests.dfy) treats one request as a sequence
  of calls to the four operations. It proves what no sequence of calls can
  change: none creates or removes the row or the session, and a filled cache
  stays filled.
- `CorrectedSettings` (settings_corrected.dfy) holds the corrected read of
  the finding below, with the properties it restores.

Three points where the code is more precise than a plain reading of its
documentation. The model follows the code:

- `linkSetAll` is an SQL `UPDATE ... WHERE link_id`. When the link has no row,
  nothing is stored. Without a session as well, the write is lost
  (`SetAllWithoutRowOrSessionIsLost`).
- A `linkSet` that finds nothing to change still calls `linkGetAll`. That read
  may fill the session cache from the row. So "no write" means the globals are
  exactly those a plain read leaves: the row is unchanged, but the cache may be
  filled.
- After `linkSetAll(M)`, with a session the read returns `M`; without one it
  returns `M` merged over the defaults (`SetAllThenGetAll`).

## Model

| member | source | states |
|---|---|---|
| `PhpValue.ToBool` | lib/settings.class.php:104 | PHP's conversion to boolean: null, false, 0, "" and "0" are false, every other scalar true |
| `PhpValue.IsIntegerString` | lib/settings.class.php:104 | a string is in integer form when it is an optional sign followed by at least one decimal digit; the only strings this model treats as numeric |
| `PhpValue.IntegerValue` | lib/settings.class.php:104 | the integer an integer-form string denotes, leading zeros and sign included |
| `PhpValue.IntEqualsString` | lib/settings.class.php:104 | an integer loosely equals a string exactly when the string is an integer-form string and denotes that integer |
| `PhpValue.LooseEquals` | lib/settings.class.php:104 | PHP 8 `==` on null, booleans, integers and strings: a boolean on either side, or null against a non-string, compares as booleans; null against a string compares "" with it; integers and integer-form strings compare as numbers; other strings compare as text |
| `PhpValue.LooseEqualsReflexive` | lib/settings.class.php:104 | every value is loosely equal to itself |
| `PhpValue.LooseEqualsSymmetric` | lib/settings.class.php:104 | `a == b` and `b == a` agree, so the order of the operands of `!=` in the scan does not matter |
| `PhpValue.EqualIsLooselyEqual` | lib/settings.class.php:104 | exactly equal values are loosely equal |
| `PhpValue.NumericStringsCompareAsNumbers` | lib/settings.class.php:104 | `1 == "1"`, `"01" == "1"` and `"-7" == -7` under loose comparison |
| `PhpValue.NonNumericStringsCompareAsText` | lib/settings.class.php:104 | `0 != "a"` and `"1" != "1a"`: a non-numeric string never equals an integer, and is compared with another string as text |
| `PhpValue.LooseEqualsNotTransitive` | lib/settings.class.php:104 | `null == 0` and `0 == "0"`, yet `null != "0"` |
| `TsugiCore.Defaults` | lib/settings.class.php:48-53 | `$defaults`: each legacy field name mapped to the custom parameter `LTIX::getCustom` gives for it |
| `TsugiCore.CacheHit` | lib/settings.class.php:54 | the session exists and its `link_settings` slot holds a blob |
| `TsugiCore.GetAll` | lib/settings.class.php:54-71 | what `linkGetAll` returns: the cached blob on a cache hit; else the defaults when there is no row or a null column; else the defaults merged under the stored blob |
| `TsugiCore.AfterGetAll` | lib/settings.class.php:54-70 | the state after `linkGetAll`: without a cache hit, a stored blob is cached when a session exists; nothing else changes |
| `TsugiCore.Lookup` | lib/settings.class.php:84-88 | what `linkGet` returns from the read settings: the value under the key, or `false` when the key is absent |
| `TsugiCore.AfterSetAll` | lib/settings.class.php:24-31 | the state after `linkSetAll`: an existing row stores the map, a missing row stays missing, and the cache holds the map exactly when a session exists |
| `TsugiCore.Covered` | lib/settings.class.php:101-113 | the no-write condition of `linkSet`: every key given is present in the read settings with a loosely equal value |
| `TsugiCore.AfterSet` | lib/settings.class.php:97-116 | the state after `linkSet`: the state after its read when every key is covered, else that after `linkSetAll` of the read settings merged with the keys given |
| `TsugiCore.Merge` | lib/settings.class.php:71 | `array_merge` on string keys: the keys of both maps, with the second map's value winning on shared keys and the first's kept elsewhere |
| `TsugiCore.Settings.BuildDefaults` | lib/settings.class.php:48-53 | the loop over the legacy fields returns the map from each legacy name to its custom parameter |
| `TsugiCore.Settings.LinkGetAll` | lib/settings.class.php:45-72 | returns the cached blob on a cache hit, else the defaults, merged under the stored blob when the row has one; caches a blob read from the row when a session exists, and changes nothing else |
| `TsugiCore.Settings.LinkGet` | lib/settings.class.php:81-89 | returns the value under the key in what `linkGetAll` returns, or `false` when the key is absent; the session changes as with `linkGetAll` |
| `TsugiCore.Settings.LinkSetAll` | lib/settings.class.php:21-32 | the row (when there is one) stores exactly the given map; the cache holds it when a session exists; without a session the session stays absent |
| `TsugiCore.Settings.FindDifference` | lib/settings.class.php:101-112 | the scan reports a difference exactly when some key is missing from the current settings or loosely different there |
| `TsugiCore.Settings.LinkSet` | lib/settings.class.php:97-116 | reads; if every key is covered, the state is that after the read; otherwise the current settings merged with the new keys are written through `linkSetAll` |
| `SettingsProperties.DefaultsShape` | lib/settings.class.php:48-53 | the defaults have exactly the six distinct legacy names as keys (the repeated `due` adds nothing), each mapped to its custom parameter |
| `SettingsProperties.GetAllWithoutBlobIsDefaults` | lib/settings.class.php:60-64 | with no cached blob and no row or a null column, the read returns exactly the defaults and leaves the state unchanged |
| `SettingsProperties.GetAllFromRow` | lib/settings.class.php:63-71 | with a stored blob and no cache hit, the result has the keys of defaults and blob, stored values winning; the blob is cached if and only if a session exists |
| `SettingsProperties.GetAllOnCacheHit` | lib/settings.class.php:54-58 | on a cache hit the result is the cached blob whatever the row and the defaults, and nothing changes |
| `SettingsProperties.SecondReadDropsDefaults` | lib/settings.class.php:54-71 | a read that fills the cache from a row returns a default key the blob lacks; the next read does not |
| `SettingsProperties.ReadIsRepeatable` | lib/settings.class.php:54-71 | except in the cache-filling case, a read leaves the state unchanged and a second read returns the same map |
| `SettingsProperties.SetAllThenGetAll` | lib/settings.class.php:21-72 | with a row or a session, a read after `linkSetAll(M)` returns `M` (with a session) or `M` over the defaults (without), so every key of `M` reads back its value |
| `SettingsProperties.SetAllEmptyClears` | lib/settings.class.php:17-31 | `linkSetAll` of an empty map stores an empty blob; a later read gives only the defaults without a session and an empty map with one |
| `SettingsProperties.SetAllWithoutRowOrSessionIsLost` | lib/settings.class.php:25-31 | with no row and no session, `linkSetAll` changes nothing |
| `SettingsProperties.SetCoveredIsNoWrite` | lib/settings.class.php:100-113 | when every key is present with a loosely equal value, `linkSet` leaves the row untouched and the state equals that after a plain read |
| `SettingsProperties.SetUnchangedValuesIsNoWrite` | lib/settings.class.php:100-113 | setting values already present with exactly equal values writes nothing |
| `SettingsProperties.SetLooselyEqualIsNoWrite` | lib/settings.class.php:102-113 | setting integer 1 where string "1" is stored writes nothing, and "1" is still read back |
| `SettingsProperties.SetWritesMerge` | lib/settings.class.php:113-115 | when some key is missing or differs, `linkSet` stores the current settings merged with the new keys (row if present, cache if a session exists): new keys take their values, all other current keys keep theirs |
| `SettingsProperties.SetPersistsDefaults` | lib/settings.class.php:114-115 | the first write after a read from the row persists every legacy default in the row |
| `SettingsProperties.SetThenGetAfterWrite` | lib/settings.class.php:97-116 | with a row or a session, after a writing `linkSet` every key set reads back exactly its new value |
| `SettingsProperties.SetThenGetAfterNoWrite` | lib/settings.class.php:97-116 | after a `linkSet` that writes nothing, every key set reads back a loosely equal value, except a key that the read filling the cache from the row does not find in the stored blob |
| `SettingsProperties.SetThenGetLosesDefault` | lib/settings.class.php:54-58 | with a session, an empty stored blob and a `due` default of "x", `linkSet({"due": "x"})` writes nothing and the next `linkGet("due")` returns `false` |
| `SettingsRequests.Step` | lib/settings.class.php:21-116 | the state after one call of `linkGetAll`, `linkGet`, `linkSetAll` or `linkSet` |
| `SettingsRequests.Run` | lib/settings.class.php:21-116 | the state after a request's calls, applied in order |
| `SettingsRequests.StepKeepsShape` | lib/settings.class.php:21-116 | one call of any of the four operations keeps whether the row and the session exist, and keeps a cached blob cached |
| `SettingsRequests.RunKeepsRowAndSession` | lib/settings.class.php:25-31 | no sequence of calls creates or removes the link's row (the write is an UPDATE) or the session |
| `SettingsRequests.RunKeepsCacheHit` | lib/settings.class.php:29-31 | once the session caches a blob, every later read in the request is a cache hit |
| `SettingsRequests.RunWithoutRowOrSessionChangesNothing` | lib/settings.class.php:21-72 | for a link with no row and no session, no sequence of calls changes the state, and every read returns the defaults |
| `SettingsRequests.RunOfReadsOnlyCaches` | lib/settings.class.php:54-71 | a request of reads only leaves the state as after its first read: at most the stored blob gets cached |
| `CorrectedSettings.GetAllMerged` | lib/settings.class.php:39-71 | the corrected read: as `linkGetAll`, except that on a cache hit the defaults are merged under the cached blob |
| `CorrectedSettings.AfterSetMerged` | lib/settings.class.php:97-116 | `linkSet` over the corrected read, with the program's own caching and write |
| `CorrectedSettings.MergedReadKeepsDefaults` | lib/settings.class.php:39-43 | the corrected read always contains every default key |
| `CorrectedSettings.MergedReadIsRepeatable` | lib/settings.class.php:54-71 | with the corrected read, filling the cache does not change what a read returns |
| `CorrectedSettings.MergedSetThenGet` | lib/settings.class.php:97-116 | with the corrected read and a row or a session, every key set reads back a loosely equal value, and exactly its value when a write happened |
| `CorrectedSettings.MergedKeepsDefaultAfterSet` | lib/settings.class.php:54-58 | the situation of `SetThenGetLosesDefault` reads back the default under the corrected read |

## Findings

| source | as written | input that shows it | evidently intended | confidence | as-written member | corrected member |
|---|---|---|---|---|---|---|
| lib/settings.class.php:54-58 | on a cache hit `linkGetAll` returns the cached blob without merging `$defaults`, while a read from the row caches the blob without the defaults | `$_SESSION['lti']` set with no `link_settings`, row settings `[]`, `getCustom('due')` = "x": `linkSet(['due' => 'x'])` writes nothing, and the next `linkGet('due')` returns `false` (two plain `linkGet('due')` calls return "x", then `false`) | the legacy custom parameters are defaults for every key the settings lack, as the doc comment at lines 39-43 says, on the cache path too | high; not executed | `SettingsProperties.SetThenGetLosesDefault` | `CorrectedSettings.MergedSetThenGet` |

Class `Settings` and the transition functions in `TsugiCore` keep the
behaviour as written. Callers can see it: a read after a cache fill returns
different results. `CorrectedSettings` defines the corrected read and proves
read-after-write and repeatable reads for it.

## Left out

- SQL text and database failures (`queryDie`, `rowDie`) are not modelled. The
  row is a field, and a failing query is I/O outside the model.
- The JSON text format is not modelled. The row and the cache hold the map the
  text decodes to. Malformed JSON and JSON that is not an object are therefore
  not modelled. The guard `strlen($json) < 0` at line 56 has no counterpart: a
  length is never negative, so it is dead code.
- `LTIX::getCustom` is a call into code that is not part of this model. It is
  the function `custom`, fixed for the request.
- The link id (`$LINK->id`) and the other links' rows are not modelled. The
  model holds the current link's row only.
- The other entries of `$_SESSION['lti']` are not modelled. Only the
  `link_settings` slot is.
- The key order of PHP arrays is not modelled, and neither is the renumbering
  of integer-like keys by `array_merge`. Keys are strings and maps are
  unordered.
- Values cover null, booleans, integers and strings. Floats and nested
  arrays or objects are not modelled.
- `PhpValue.IntegerValue`, `PhpValue.IntEqualsString`, `PhpValue.LooseEquals`:
  PHP integers are 64 bits wide, but `PhpValue.Value.Int` is unbounded and
  integer strings are read as exact integers of any size. PHP compares an
  integer with a numeric string outside the 64-bit range as floating-point
  numbers (so `PHP_INT_MAX == "9223372036854775808"` holds there), while
  `LooseEquals` compares the exact integers, so `linkSet` writes in that case
  where PHP would not.
- `PhpValue.IsIntegerString`, `PhpValue.IntEqualsString`, `PhpValue.LooseEquals`:
  loose comparison follows PHP 8, but treats as numeric only integer-form
  strings (an optional sign and decimal digits). Leading or trailing
  whitespace, fractions and exponents (`" 1"`, `"1.0"`, `"1e0"`) are not
  numeric here, although PHP treats them as numeric, so `1 == "1.0"` is false
  in the model and `linkSet(['a' => 1])` over a stored `"1.0"` writes where
  PHP would not. PHP 7 compared an integer with a non-numeric string
  differently.
- The context and key settings scopes named in the class comment are not
  modelled: the class does not implement them.
- Concurrent requests racing on one link are not modelled. Nothing in the code
  coordinates them.
