/**
 * The permission manager: a fixed catalog of six capabilities with risk
 * levels, detection of the capabilities a piece of code needs by looking for
 * substrings, and a map from function name to the set of granted capability
 * names, with grant (replacing), check (subset test) and revoke.
 */
module Permissions {
  import opened Base

  datatype Risk = Low | Medium | High | Critical

  datatype Permission = Permission(name: string, description: string, risk: Risk)

  const FileRead := Permission("file_read", "Leer archivos del sistema", Medium)
  const FileWrite := Permission("file_write", "Escribir archivos en el sistema", High)
  const NetworkAccess := Permission("network_access", "Acceder a la red", High)
  const SystemExec := Permission("system_exec", "Ejecutar comandos del sistema", Critical)
  const GuiAccess := Permission("gui_access", "Crear interfaces gráficas", Low)
  const InputDevice := Permission("input_device", "Acceder a dispositivos de entrada", Medium)

  /** `available_permissions`, in declaration order. */
  const CatalogList: seq<Permission> := [FileRead, FileWrite, NetworkAccess, SystemExec, GuiAccess, InputDevice]

  /** Names of the catalog. */
  const CatalogNames: set<string> :=
    {"file_read", "file_write", "network_access", "system_exec", "gui_access", "input_device"}

  /** Catalog entries are told apart by name. */
  lemma CatalogDistinct()
    ensures Distinct(CatalogList)
    ensures forall i, j :: 0 <= i < j < |CatalogList| ==> CatalogList[i].name != CatalogList[j].name
    ensures forall p :: p in CatalogList <==> p.name in CatalogNames && Lookup(p.name) == Some(p)
  {
    CatalogNamesDiffer();
    CatalogLookups();
  }

  lemma CatalogNamesDiffer()
    ensures forall i, j :: 0 <= i < j < |CatalogList| ==> CatalogList[i].name != CatalogList[j].name
  {
  }

  lemma CatalogLookups()
    ensures forall p :: p in CatalogList <==> p.name in CatalogNames && Lookup(p.name) == Some(p)
  {
  }

  /** Looks a name up in the catalog. */
  function Lookup(name: string): (r: Option<Permission>)
    ensures r.Some? <==> name in CatalogNames
    ensures r.Some? ==> r.value.name == name && r.value in CatalogList
  {
    if name == "file_read" then Some(FileRead)
    else if name == "file_write" then Some(FileWrite)
    else if name == "network_access" then Some(NetworkAccess)
    else if name == "system_exec" then Some(SystemExec)
    else if name == "gui_access" then Some(GuiAccess)
    else if name == "input_device" then Some(InputDevice)
    else None
  }

  /** The risk levels the catalog assigns. */
  lemma CatalogRisks()
    ensures Lookup("file_read").value.risk == Medium
    ensures Lookup("file_write").value.risk == High
    ensures Lookup("network_access").value.risk == High
    ensures Lookup("system_exec").value.risk == Critical
    ensures Lookup("gui_access").value.risk == Low
    ensures Lookup("input_device").value.risk == Medium
  {
  }

  /** The set `analyze_required_permissions` builds from the code's text. */
  function RequiredNames(code: string): (r: set<string>)
    ensures r <= CatalogNames
  {
    NamesFor(Contains(code, "open(") || Contains(code, "Path("),
             Contains(code, "write") || Contains(code, "create"),
             Contains(code, "socket") || Contains(code, "urllib") || Contains(code, "requests"),
             Contains(code, "subprocess") || Contains(code, "os.system"),
             Contains(code, "pygame") || Contains(code, "tkinter"),
             Contains(code, "input(") || Contains(code, "keyboard"))
  }

  /** The names detected from the answers to the six substring tests. */
  function NamesFor(opens: bool, writes: bool, net: bool, exec: bool, gui: bool, input: bool): (r: set<string>)
    ensures r <= CatalogNames
    ensures "file_write" in r <==> opens && writes
    ensures "file_read" in r <==> opens && !writes
    ensures "network_access" in r <==> net
    ensures "system_exec" in r <==> exec
    ensures "gui_access" in r <==> gui
    ensures "input_device" in r <==> input
  {
    (if opens then (if writes then {"file_write"} else {"file_read"}) else {})
    + (if net then {"network_access"} else {})
    + (if exec then {"system_exec"} else {})
    + (if gui then {"gui_access"} else {})
    + (if input then {"input_device"} else {})
  }

  /** The catalog entries whose names are in `names`, in catalog order. */
  function InCatalogOrder(names: set<string>): (r: seq<Permission>)
    ensures forall p :: p in r <==> p in CatalogList && p.name in names
    ensures Distinct(r)
  {
    CatalogDistinct();
    Filter(CatalogList, names)
  }

  function Filter(ps: seq<Permission>, names: set<string>): (r: seq<Permission>)
    requires Distinct(ps)
    ensures forall p :: p in r <==> p in ps && p.name in names
    ensures Distinct(r)
  {
    if |ps| == 0 then []
    else
      var rest := Filter(ps[1..], names);
      if ps[0].name in names then [ps[0]] + rest else rest
  }

  /**
   * `analyze_required_permissions`: the catalog entries for the detected names.
   * Python lists them in the iteration order of a set of strings, which
   * depends on string hashing; the model lists them in catalog order.
   */
  function AnalyzeRequiredPermissions(code: string): (r: seq<Permission>)
    ensures Distinct(r)
    ensures forall p :: p in r ==> p in CatalogList
    ensures forall p :: p in r <==> p in CatalogList && p.name in RequiredNames(code)
  {
    InCatalogOrder(RequiredNames(code))
  }

  function Has(code: string, name: string): bool {
    exists p :: p in AnalyzeRequiredPermissions(code) && p.name == name
  }

  /** A catalog name is in the analysis exactly when the text detects it. */
  lemma HasIff(code: string, name: string)
    requires name in CatalogNames
    ensures Has(code, name) <==> name in RequiredNames(code)
  {
    CatalogDistinct();
    var p := Lookup(name).value;
    if name in RequiredNames(code) {
      assert p in AnalyzeRequiredPermissions(code);
    }
  }

  /** File access is detected by `open(` or `Path(`; it is writing when `write` or
      `create` also occurs, reading otherwise, never both. */
  lemma DetectsFileAccess(code: string)
    ensures Has(code, "file_write") <==>
      (Contains(code, "open(") || Contains(code, "Path(")) && (Contains(code, "write") || Contains(code, "create"))
    ensures Has(code, "file_read") <==>
      (Contains(code, "open(") || Contains(code, "Path(")) && !(Contains(code, "write") || Contains(code, "create"))
    ensures !(Has(code, "file_read") && Has(code, "file_write"))
  {
    var names := RequiredNames(code);
    var opens := Contains(code, "open(") || Contains(code, "Path(");
    var writes := Contains(code, "write") || Contains(code, "create");
    assert "file_write" in names <==> opens && writes;
    assert "file_read" in names <==> opens && !writes;
    HasIff(code, "file_read");
    HasIff(code, "file_write");
  }

  /** Network access is detected by `socket`, `urllib` or `requests`. */
  lemma DetectsNetwork(code: string)
    ensures Has(code, "network_access") <==>
      Contains(code, "socket") || Contains(code, "urllib") || Contains(code, "requests")
  {
    HasIff(code, "network_access");
  }

  /** Command execution is detected by `subprocess` or `os.system`. */
  lemma DetectsSystemExec(code: string)
    ensures Has(code, "system_exec") <==> Contains(code, "subprocess") || Contains(code, "os.system")
  {
    HasIff(code, "system_exec");
  }

  /** A user interface is detected by `pygame` or `tkinter`. */
  lemma DetectsGui(code: string)
    ensures Has(code, "gui_access") <==> Contains(code, "pygame") || Contains(code, "tkinter")
  {
    HasIff(code, "gui_access");
  }

  /** Input devices are detected by `input(` or `keyboard`. */
  lemma DetectsInput(code: string)
    ensures Has(code, "input_device") <==> Contains(code, "input(") || Contains(code, "keyboard")
  {
    HasIff(code, "input_device");
  }

  /** At most five capabilities are ever required, since the file ones exclude each other. */
  lemma AtMostFive(code: string)
    ensures |AnalyzeRequiredPermissions(code)| <= 5
  {
    var names := RequiredNames(code);
    assert !("file_read" in names && "file_write" in names);
    NamesBound(AnalyzeRequiredPermissions(code), names);
  }

  lemma NamesBound(r: seq<Permission>, names: set<string>)
    requires Distinct(r)
    requires forall p :: p in r <==> p in CatalogList && p.name in names
    requires !("file_read" in names && "file_write" in names)
    ensures |r| <= 5
  {
    var s := set p | p in r;
    DistinctCard(r);
    assert s <= {FileRead, NetworkAccess, SystemExec, GuiAccess, InputDevice} ||
           s <= {FileWrite, NetworkAccess, SystemExec, GuiAccess, InputDevice};
    if s <= {FileRead, NetworkAccess, SystemExec, GuiAccess, InputDevice} {
      SubsetCard(s, {FileRead, NetworkAccess, SystemExec, GuiAccess, InputDevice});
    } else {
      SubsetCard(s, {FileWrite, NetworkAccess, SystemExec, GuiAccess, InputDevice});
    }
  }

  lemma SubsetCard<T>(a: set<T>, b: set<T>)
    requires a <= b
    ensures |a| <= |b|
  {
    if a != {} {
      var x :| x in a;
      SubsetCard(a - {x}, b - {x});
    }
  }

  lemma {:induction false} DistinctCard<T>(r: seq<T>)
    requires Distinct(r)
    ensures |set x | x in r| == |r|
  {
    if |r| > 0 {
      DistinctCard(r[1..]);
      assert (set x | x in r) == {r[0]} + (set x | x in r[1..]);
      assert r[0] !in (set x | x in r[1..]);
    }
  }

  class PermissionManager {
    /** Granted capability names per function. */
    var functionPermissions: map<string, set<string>>
    /** What `permissions.json` holds. */
    var saved: map<string, set<string>>

    /** A manager with no file yet: nothing granted, an empty file is written. */
    constructor()
      ensures functionPermissions == map[] && saved == map[]
    {
      functionPermissions := map[];
      saved := map[];
    }

    /** `grant_permissions`: any name outside the catalog refuses the whole request and
        changes nothing; otherwise the granted set becomes exactly the requested names. */
    method GrantPermissions(functionName: string, permissions: seq<string>) returns (ok: bool)
      modifies this
      ensures ok <==> forall p :: p in permissions ==> p in CatalogNames
      ensures ok ==> functionPermissions == old(functionPermissions)[functionName := set p | p in permissions]
                     && saved == functionPermissions
      ensures !ok ==> functionPermissions == old(functionPermissions) && saved == old(saved)
    {
      var i := 0;
      while i < |permissions|
        invariant 0 <= i <= |permissions|
        invariant forall j :: 0 <= j < i ==> permissions[j] in CatalogNames
      {
        if Lookup(permissions[i]).None? {
          ok := false;
          return;
        }
        i := i + 1;
      }
      functionPermissions := functionPermissions[functionName := set p | p in permissions];
      saved := functionPermissions;
      ok := true;
    }

    /** `check_permissions`: a function without an entry fails even when nothing is
        required; otherwise every required name must be granted. */
    function CheckPermissions(functionName: string, required: seq<string>): (r: bool)
      reads this
      ensures functionName !in functionPermissions ==> !r
      ensures functionName in functionPermissions ==>
        (r <==> (set p | p in required) <= functionPermissions[functionName])
    {
      functionName in functionPermissions &&
      forall p :: p in required ==> p in functionPermissions[functionName]
    }

    /** `get_function_permissions`: the catalog entries granted to the function
        (in catalog order; Python's order is that of a hash set). */
    function GetFunctionPermissions(functionName: string): (r: seq<Permission>)
      reads this
      ensures functionName !in functionPermissions ==> r == []
      ensures forall p :: p in r <==>
        (functionName in functionPermissions && p in CatalogList && p.name in functionPermissions[functionName])
    {
      if functionName !in functionPermissions then [] else InCatalogOrder(functionPermissions[functionName])
    }

    /** `revoke_permissions`: no list removes the function's entry; a list removes those
        names from an existing entry. Other functions are untouched; the file is rewritten. */
    method RevokePermissions(functionName: string, permissions: Option<seq<string>>)
      modifies this
      ensures permissions.None? ==> functionPermissions == old(functionPermissions) - {functionName}
      ensures permissions.Some? && functionName in old(functionPermissions) ==>
        functionPermissions == old(functionPermissions)[functionName :=
          old(functionPermissions)[functionName] - set p | p in permissions.value]
      ensures permissions.Some? && functionName !in old(functionPermissions) ==>
        functionPermissions == old(functionPermissions)
      ensures forall k :: k != functionName && k in old(functionPermissions) ==>
        k in functionPermissions && functionPermissions[k] == old(functionPermissions)[k]
      ensures saved == functionPermissions
    {
      match permissions {
        case None =>
          functionPermissions := functionPermissions - {functionName};
        case Some(ps) =>
          if functionName in functionPermissions {
            functionPermissions := functionPermissions[functionName :=
              functionPermissions[functionName] - set p | p in ps];
          }
      }
      saved := functionPermissions;
    }
  }

  /** Granting then checking the same names succeeds; after a full revoke the check fails. */
  method GrantCheckRevoke(m: PermissionManager, fn: string, names: seq<string>) returns (granted: bool, before: bool, after: bool)
    requires forall p :: p in names ==> p in CatalogNames
    modifies m
    ensures granted && before && !after
  {
    granted := m.GrantPermissions(fn, names);
    before := m.CheckPermissions(fn, names);
    m.RevokePermissions(fn, None);
    after := m.CheckPermissions(fn, names);
  }
}
