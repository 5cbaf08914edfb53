/**
 * The live function registry (`FunctionRegistry`): a dictionary from function
 * name to a metadata record, with overwrite-on-register, running-average
 * usage statistics, an error/success-rate formula, enable/disable, a
 * case-insensitive search, and a persistence step that writes only ten of the
 * record's fields to disk.
 */
module Registry {
  import opened Base

  /** One entry of `backup_history`. */
  datatype Backup = Backup(timestamp: string, version: string, filePath: string)

  /**
   * A registry record. Python keeps it as a dict whose keys may be missing:
   * every field is an Option, None standing for an absent key. Where a key
   * may hold JSON null the field is an Option of an Option.
   */
  datatype Entry = Entry(
    name: Option<string>,
    description: Option<string>,
    filePath: Option<Option<string>>,
    enabled: Option<bool>,
    createdAt: Option<string>,
    updatedAt: Option<string>,
    lastUsed: Option<Option<string>>,
    usageCount: Option<nat>,
    errorCount: Option<nat>,
    successRate: Option<real>,
    averageExecutionTime: Option<real>,
    tags: Option<seq<string>>,
    functionType: Option<string>,
    version: Option<string>,
    backupHistory: Option<seq<Backup>>)

  /** The empty dict `{}`. */
  const EmptyEntry := Entry(None, None, None, None, None, None, None, None, None, None, None, None, None, None, None)

  const DefaultDescription := "Sin descripción"
  const DefaultFunctionType := "utility"
  const DefaultVersion := "1.0.0"
  const BackupDir := "resources/functions/backups"

  /** Python truthiness of an optional string argument. */
  predicate Truthy(s: Option<string>) {
    s.Some? && s.value != ""
  }

  /** `description or function.__doc__ or 'Sin descripción'` */
  function ChooseDescription(description: Option<string>, doc: Option<string>): (r: string)
    ensures Truthy(description) ==> r == description.value
    ensures !Truthy(description) && Truthy(doc) ==> r == doc.value
    ensures !Truthy(description) && !Truthy(doc) ==> r == DefaultDescription
    ensures r != ""
  {
    if Truthy(description) then description.value
    else if Truthy(doc) then doc.value
    else DefaultDescription
  }

  /** The record `register` stores for a name. */
  function FreshEntry(name: string, description: string, filePath: Option<string>,
                      tags: Option<seq<string>>, functionType: Option<string>, now: string): Entry
  {
    Entry(
      name := Some(name),
      description := Some(description),
      filePath := Some(if Truthy(filePath) then filePath else None),
      enabled := Some(true),
      createdAt := Some(now),
      updatedAt := Some(now),
      lastUsed := None,
      usageCount := Some(0),
      errorCount := Some(0),
      successRate := Some(100.0),
      averageExecutionTime := Some(0.0),
      tags := Some(if tags.Some? && |tags.value| > 0 then tags.value else []),
      functionType := Some(if Truthy(functionType) then functionType.value else DefaultFunctionType),
      version := None,
      backupHistory := None)
  }

  function UsageCount(e: Entry): nat { GetOr(e.usageCount, 0) }
  function ErrorCount(e: Entry): nat { GetOr(e.errorCount, 0) }
  function AverageTime(e: Entry): real { GetOr(e.averageExecutionTime, 0.0) }

  /** The record after one more use taking `t` seconds. */
  function UsageUpdated(e: Entry, t: real, now: string): (r: Entry)
    ensures UsageCount(r) == UsageCount(e) + 1
    ensures AverageTime(r) * (UsageCount(r) as real) == AverageTime(e) * (UsageCount(e) as real) + t
  {
    var count := UsageCount(e) + 1;
    var avg := (AverageTime(e) * ((count - 1) as real) + t) / (count as real);
    e.(lastUsed := Some(Some(now)), usageCount := Some(count), averageExecutionTime := Some(avg))
  }

  /** The record after one more error: the rate is recomputed from the usage count. */
  function ErrorCounted(e: Entry): (r: Entry)
    ensures ErrorCount(r) == ErrorCount(e) + 1
    ensures r.successRate.Some?
    ensures UsageCount(e) == 0 ==> r.successRate.value == 0.0
  {
    var errors := ErrorCount(e) + 1;
    var uses := UsageCount(e);
    var rate := if uses > 0 then ((uses - errors) as real / uses as real) * 100.0 else 0.0;
    e.(errorCount := Some(errors), successRate := Some(rate))
  }

  function Sum(ts: seq<real>): real
  {
    if |ts| == 0 then 0.0 else Sum(ts[..|ts| - 1]) + ts[|ts| - 1]
  }

  /** The record after one use per element of `ts`, in order. */
  function UsagesApplied(e: Entry, ts: seq<real>, now: string): Entry
  {
    if |ts| == 0 then e else UsageUpdated(UsagesApplied(e, ts[..|ts| - 1], now), ts[|ts| - 1], now)
  }

  /** The running average stays the mean: count and total time grow together. */
  lemma {:induction false} UsagesKeepTotal(e: Entry, ts: seq<real>, now: string)
    ensures UsageCount(UsagesApplied(e, ts, now)) == UsageCount(e) + |ts|
    ensures AverageTime(UsagesApplied(e, ts, now)) * (UsageCount(e) + |ts|) as real
            == AverageTime(e) * UsageCount(e) as real + Sum(ts)
  {
    if |ts| > 0 {
      UsagesKeepTotal(e, ts[..|ts| - 1], now);
    }
  }

  /** After N uses of a record that had none, the average is the mean of the N times. */
  lemma AverageIsMean(e: Entry, ts: seq<real>, now: string)
    requires UsageCount(e) == 0 && |ts| > 0
    ensures UsageCount(UsagesApplied(e, ts, now)) == |ts|
    ensures AverageTime(UsagesApplied(e, ts, now)) == Sum(ts) / |ts| as real
  {
    UsagesKeepTotal(e, ts, now);
  }

  /** The success rate is not clamped: it lies in [0, 100] exactly when errors do not
      exceed uses, and is negative otherwise. */
  lemma SuccessRateRange(e: Entry)
    requires UsageCount(e) > 0
    ensures var rate := ErrorCounted(e).successRate.value;
      && (0.0 <= rate <= 100.0 <==> ErrorCount(e) + 1 <= UsageCount(e))
      && (rate < 0.0 <==> ErrorCount(e) + 1 > UsageCount(e))
  {
    var uses := UsageCount(e) as real;
    var errors := (ErrorCount(e) + 1) as real;
    assert ErrorCounted(e).successRate.value == ((uses - errors) / uses) * 100.0;
    if errors <= uses {
      assert (uses - errors) / uses <= 1.0;
    }
  }

  /**
   * What `_save_registry` writes for one record: ten fields, each defaulted
   * when missing; every other field is dropped.
   */
  function Project(key: string, e: Entry, now: string): (r: Entry)
    ensures r.name == Some(GetOr(e.name, key))
    ensures r.usageCount == Some(UsageCount(e)) && r.averageExecutionTime == Some(AverageTime(e))
    ensures r.enabled == Some(GetOr(e.enabled, true))
    ensures r.errorCount.None? && r.successRate.None? && r.functionType.None?
    ensures r.updatedAt.None? && r.backupHistory.None?
  {
    Entry(
      name := Some(GetOr(e.name, key)),
      description := Some(GetOr(e.description, "No description")),
      filePath := Some(GetOr(e.filePath, Some(""))),
      enabled := Some(GetOr(e.enabled, true)),
      createdAt := Some(GetOr(e.createdAt, now)),
      updatedAt := None,
      lastUsed := Some(GetOr(e.lastUsed, None)),
      usageCount := Some(UsageCount(e)),
      errorCount := None,
      successRate := None,
      averageExecutionTime := Some(AverageTime(e)),
      tags := Some(GetOr(e.tags, [])),
      functionType := None,
      version := Some(GetOr(e.version, DefaultVersion)),
      backupHistory := None)
  }

  /** The file contents after saving the records named in `keys`, in that order. */
  function Snapshot(keys: seq<string>, functions: map<string, Entry>, now: string): map<string, Entry>
    requires forall k :: k in keys ==> k in functions
  {
    if keys == [] then map[]
    else
      var last := keys[|keys| - 1];
      Snapshot(keys[..|keys| - 1], functions, now)[last := Project(last, functions[last], now)]
  }

  /** The saved file holds exactly the records named in `keys`, each as its projection. */
  lemma {:induction false} SnapshotContents(keys: seq<string>, functions: map<string, Entry>, now: string)
    requires forall k :: k in keys ==> k in functions
    ensures Snapshot(keys, functions, now).Keys == set k | k in keys
    ensures forall k :: k in keys ==> Snapshot(keys, functions, now)[k] == Project(k, functions[k], now)
  {
    if keys != [] {
      var init := keys[..|keys| - 1];
      assert forall k :: k in init ==> k in keys;
      SnapshotContents(init, functions, now);
      assert keys == init + [keys[|keys| - 1]];
    }
  }

  /** `get_function_stats` as a record. */
  datatype Stats = Stats(usageCount: nat, averageExecutionTime: real, lastUsed: Option<string>,
                         errorCount: nat, successRate: real)

  function StatsOf(e: Entry): Stats
  {
    Stats(UsageCount(e), AverageTime(e), GetOr(e.lastUsed, None), ErrorCount(e), GetOr(e.successRate, 100.0))
  }

  /** Errors are lost on disk: a record read back from the file reports no errors and a
      full success rate, whatever the live record said, while usage survives. */
  lemma ReloadForgetsErrors(key: string, e: Entry, now: string)
    ensures var s := StatsOf(Project(key, e, now));
      s.errorCount == 0 && s.successRate == 100.0 &&
      s.usageCount == UsageCount(e) && s.averageExecutionTime == AverageTime(e)
  {
  }

  /** The record matches a search query (already lowercased). */
  predicate Matches(name: string, e: Entry, lowQuery: string) {
    Contains(Lower(name), lowQuery) || Contains(Lower(GetOr(e.description, "")), lowQuery)
  }

  class FunctionRegistry {
    /** The live dictionary. */
    var functions: map<string, Entry>
    /** Its keys in insertion order (the order Python iterates the dictionary). */
    var order: seq<string>
    /** What `registry.json` holds. */
    var saved: map<string, Entry>

    ghost predicate Valid()
      reads this
    {
      Distinct(order) && (forall k :: k in functions <==> k in order)
    }

    /** The registry file holds the records as they are now, saved at time `now`. */
    ghost predicate SavedAt(now: string)
      reads this
      requires Valid()
    {
      saved == Snapshot(order, functions, now)
    }

    /** A registry with no file on disk yet: empty, and an empty file is written. */
    constructor()
      ensures Valid()
      ensures functions == map[] && order == [] && saved == map[]
    {
      functions := map[];
      order := [];
      saved := map[];
    }

    /** `_save_registry`: rebuilds the ten-field projection of every record, key by key. */
    method SaveRegistry(now: string)
      requires Valid()
      modifies this
      ensures Valid()
      ensures functions == old(functions) && order == old(order)
      ensures SavedAt(now)
    {
      var data: map<string, Entry> := map[];
      var i := 0;
      while i < |order|
        invariant 0 <= i <= |order|
        invariant data == Snapshot(order[..i], functions, now)
      {
        assert order[..i + 1][..i] == order[..i];
        data := data[order[i] := Project(order[i], functions[order[i]], now)];
        i := i + 1;
      }
      assert order[..i] == order;
      saved := data;
    }

    /**
     * `register`: stores a fresh record under `name`, replacing any earlier one, then
     * saves. `doc` is the `__doc__` of the function object passed in.
     */
    method Register(name: string, doc: Option<string>, description: Option<string>,
                    filePath: Option<string>, tags: Option<seq<string>>,
                    functionType: Option<string>, now: string) returns (ok: bool)
      requires Valid()
      modifies this
      ensures Valid()
      ensures ok
      ensures functions == old(functions)[name :=
        FreshEntry(name, ChooseDescription(description, doc), filePath, tags, functionType, now)]
      ensures order == if name in old(functions) then old(order) else old(order) + [name]
      ensures SavedAt(now)
    {
      var entry := FreshEntry(name, ChooseDescription(description, doc), filePath, tags, functionType, now);
      if name !in functions {
        order := order + [name];
      }
      functions := functions[name := entry];
      SaveRegistry(now);
      ok := true;
    }

    /** `_backup_function`: records a backup of the source file in the entry's history.
        `sourceExists` and `copyOk` stand for the file system. Nothing is saved. */
    method BackupFunction(name: string, sourceExists: bool, copyOk: bool, timestamp: string)
      requires Valid()
      modifies this
      ensures Valid()
      ensures order == old(order) && saved == old(saved)
      ensures functions.Keys == old(functions).Keys
      ensures forall k :: k in functions && k != name ==> functions[k] == old(functions)[k]
      ensures name in functions ==>
        var e := old(functions)[name];
        if e.filePath.Some? && Truthy(e.filePath.value) && sourceExists && copyOk
        then functions[name] == e.(backupHistory := Some(GetOr(e.backupHistory, []) +
               [Backup(timestamp, GetOr(e.version, DefaultVersion), BackupDir + "/" + name + "_" + timestamp + ".py")]))
        else functions[name] == e
    {
      if name in functions {
        var e := functions[name];
        if e.filePath.Some? && Truthy(e.filePath.value) && sourceExists && copyOk {
          var b := Backup(timestamp, GetOr(e.version, DefaultVersion), BackupDir + "/" + name + "_" + timestamp + ".py");
          functions := functions[name := e.(backupHistory := Some(GetOr(e.backupHistory, []) + [b]))];
        }
      }
    }

    /** `update_usage`: one more use taking `t` seconds; an unknown name changes nothing. */
    method UpdateUsage(name: string, t: real, now: string)
      requires Valid()
      modifies this
      ensures Valid() && order == old(order)
      ensures name in old(functions) ==>
        functions == old(functions)[name := UsageUpdated(old(functions)[name], t, now)] &&
        SavedAt(now)
      ensures name !in old(functions) ==> functions == old(functions) && saved == old(saved)
    {
      if name in functions {
        functions := functions[name := UsageUpdated(functions[name], t, now)];
        SaveRegistry(now);
      }
    }

    /** `increment_error_count`: one more error; an unknown name changes nothing. */
    method IncrementErrorCount(name: string, now: string)
      requires Valid()
      modifies this
      ensures Valid() && order == old(order)
      ensures name in old(functions) ==>
        functions == old(functions)[name := ErrorCounted(old(functions)[name])] &&
        SavedAt(now)
      ensures name !in old(functions) ==> functions == old(functions) && saved == old(saved)
    {
      if name in functions {
        functions := functions[name := ErrorCounted(functions[name])];
        SaveRegistry(now);
      }
    }

    /** `enable_function` (`flag` true) and `disable_function` (`flag` false): only the
        `enabled` field of a present record changes. */
    method SetEnabled(name: string, flag: bool, now: string)
      requires Valid()
      modifies this
      ensures Valid() && order == old(order)
      ensures name in old(functions) ==>
        functions == old(functions)[name := old(functions)[name].(enabled := Some(flag))] &&
        SavedAt(now)
      ensures name !in old(functions) ==> functions == old(functions) && saved == old(saved)
      ensures IsFunctionEnabled(name) == (name in functions && flag)
    {
      if name in functions {
        functions := functions[name := functions[name].(enabled := Some(flag))];
        SaveRegistry(now);
      }
    }

    /** `is_function_enabled`: unknown names are disabled. */
    function IsFunctionEnabled(name: string): (r: bool)
      reads this
      ensures name !in functions ==> !r
      ensures name in functions && functions[name].enabled.None? ==> !r
    {
      name in functions && GetOr(functions[name].enabled, false)
    }

    /** `get_function_info`: the record, or `{}`. */
    function GetFunctionInfo(name: string): (r: Entry)
      reads this
      ensures name in functions ==> r == functions[name]
      ensures name !in functions ==> r == EmptyEntry
    {
      if name in functions then functions[name] else EmptyEntry
    }

    /** `get_description`: None for an unknown name or a record without one. */
    function GetDescription(name: string): (r: Option<string>)
      reads this
      ensures name !in functions ==> r.None?
      ensures r.Some? ==> name in functions && functions[name].description == r
    {
      GetFunctionInfo(name).description
    }

    /** `search_functions` */
    function SearchFunctions(query: string): (r: map<string, Entry>)
      reads this
    {
      map k | k in functions && Matches(k, functions[k], Lower(query)) :: functions[k]
    }

    /** The search returns records unchanged, exactly those where the lowercased query
        occurs in the lowercased name or description. */
    lemma SearchExact(query: string)
      ensures forall k :: k in SearchFunctions(query) <==>
        k in functions && (Contains(Lower(k), Lower(query)) ||
                           Contains(Lower(GetOr(functions[k].description, "")), Lower(query)))
      ensures forall k :: k in SearchFunctions(query) ==> SearchFunctions(query)[k] == functions[k]
    {
    }

    /** The search ignores the case of the query. */
    lemma SearchIgnoresCase(query: string)
      ensures SearchFunctions(Lower(query)) == SearchFunctions(query)
    {
      LowerIdempotent(query);
    }

    /** The empty query finds everything. */
    lemma SearchEmptyFindsAll()
      ensures SearchFunctions("") == functions
    {
      forall k | k in functions ensures Matches(k, functions[k], Lower("")) {
        assert StartsWith(Lower(k), "");
      }
    }

    /** `get_function_stats`: None for `{}` (an unknown name), else defaulted statistics. */
    function GetFunctionStats(name: string): (r: Option<Stats>)
      reads this
      ensures r.None? <==> name !in functions
      ensures r.Some? ==> var e := functions[name];
        && r.value.usageCount == (if e.usageCount.Some? then e.usageCount.value else 0)
        && r.value.errorCount == (if e.errorCount.Some? then e.errorCount.value else 0)
        && r.value.successRate == (if e.successRate.Some? then e.successRate.value else 100.0)
        && r.value.averageExecutionTime == (if e.averageExecutionTime.Some? then e.averageExecutionTime.value else 0.0)
        && r.value.lastUsed == (if e.lastUsed.Some? then e.lastUsed.value else None)
    {
      if name !in functions then None else Some(StatsOf(functions[name]))
    }
  }

  /** A registered name reports a fresh record: enabled, no uses, no errors, full rate. */
  lemma RegisterGivesFreshStats(name: string, description: string, filePath: Option<string>,
                                tags: Option<seq<string>>, functionType: Option<string>, now: string)
    ensures var e := FreshEntry(name, description, filePath, tags, functionType, now);
      && e.enabled == Some(true)
      && StatsOf(e) == Stats(0, 0.0, None, 0, 100.0)
      && e.functionType.Some? && e.functionType.value != ""
  {
  }
}
