/**
 * The older registry (`lux/app/core/function_registry.py`): a dictionary from
 * name to a five-field record, with register, lookup, removal and a copy of
 * the whole map. Its module never imports `datetime`, so the record literal
 * in `register_function` raises `NameError` before anything is stored.
 */
module LegacyRegistry {
  import opened Base

  datatype LegacyEntry = LegacyEntry(path: string, description: string, functionType: string,
                                     extension: string, createdAt: string)

  class LegacyRegistry {
    var registry: map<string, LegacyEntry>
    /** What the JSON file holds. */
    var saved: map<string, LegacyEntry>

    /** `__init__`: `file` is what `registry.json` holds, None when there is no file yet
        or it does not load; then the registry is empty and an empty file is written. */
    constructor(file: Option<map<string, LegacyEntry>>)
      ensures file.Some? ==> registry == file.value && saved == file.value
      ensures file.None? ==> registry == map[] && saved == map[]
    {
      if file.Some? {
        registry := file.value;
        saved := file.value;
      } else {
        registry := map[];
        saved := map[];
      }
    }

    /**
     * `register_function` as written: the record literal evaluates
     * `datetime.now()`, a name the module never binds, so the `NameError` is
     * caught and the call reports failure with nothing stored or saved, for
     * every input.
     */
    method RegisterFunction(name: string, filePath: string, description: string,
                            functionType: string, extension: string := ".py") returns (ok: bool)
      modifies this
      ensures !ok
      ensures registry == old(registry) && saved == old(saved)
    {
      ok := false;
    }

    /** `register_function` with `datetime` imported: the record is stored under `name`,
        replacing any earlier one, and the registry is saved. */
    method RegisterFunctionFixed(name: string, filePath: string, description: string,
                                 functionType: string, now: string, extension: string := ".py") returns (ok: bool)
      modifies this
      ensures ok
      ensures registry == old(registry)[name := LegacyEntry(filePath, description, functionType, extension, now)]
      ensures saved == registry
      ensures GetFunctionInfo(name) == Some(LegacyEntry(filePath, description, functionType, extension, now))
    {
      registry := registry[name := LegacyEntry(filePath, description, functionType, extension, now)];
      saved := registry;
      ok := true;
    }

    /** `get_function_info`: None for an unknown name. */
    function GetFunctionInfo(name: string): (r: Option<LegacyEntry>)
      reads this
      ensures r.None? <==> name !in registry
      ensures r.Some? ==> r.value == registry[name]
    {
      if name in registry then Some(registry[name]) else None
    }

    /** `remove_function`: true exactly when the name was present; afterwards it is absent,
        the other records are untouched, and the file is rewritten only on removal. */
    method RemoveFunction(name: string) returns (ok: bool)
      modifies this
      ensures ok <==> name in old(registry)
      ensures registry == old(registry) - {name}
      ensures GetFunctionInfo(name).None?
      ensures forall k :: k != name && k in old(registry) ==> GetFunctionInfo(k) == Some(old(registry)[k])
      ensures saved == if ok then registry else old(saved)
    {
      if name in registry {
        registry := registry - {name};
        saved := registry;
        ok := true;
      } else {
        ok := false;
      }
    }

    /** `get_all_functions`: a copy. Dafny maps are values, so later changes to the
        registry cannot reach the returned map, nor the other way round. */
    method GetAllFunctions() returns (r: map<string, LegacyEntry>)
      ensures r == registry
      ensures forall k :: k in r <==> GetFunctionInfo(k).Some?
    {
      r := registry;
    }
  }

  /** Whatever is registered, the as-written registration leaves the lookup as it was:
      a name not yet present stays unknown. */
  method RegisterThenLookup(name: string) returns (ok: bool, found: Option<LegacyEntry>)
    ensures !ok && found.None?
  {
    var reg := new LegacyRegistry(None);
    ok := reg.RegisterFunction(name, "resources/functions/" + name + ".py", "d", "utility");
    found := reg.GetFunctionInfo(name);
  }

  /** With `datetime` imported the same call is found afterwards, with the default
      extension `.py`. */
  method RegisterFixedThenLookup(name: string, now: string) returns (ok: bool, found: Option<LegacyEntry>)
    ensures ok && found == Some(LegacyEntry("resources/functions/" + name + ".py", "d", "utility", ".py", now))
  {
    var reg := new LegacyRegistry(None);
    ok := reg.RegisterFunctionFixed(name, "resources/functions/" + name + ".py", "d", "utility", now);
    found := reg.GetFunctionInfo(name);
  }
}
