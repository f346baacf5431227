/**
 * The element metadata the factory consults: per library, the information
 * each kind of element declares (ports, parameters, statistics, sub-component
 * slots) and the builder tables that construct elements. Both are external
 * registries; here they are maps, and the searches the factory runs over the
 * declared lists are loops proved against their specifications.
 */
module Metadata {
  import opened Wrappers
  import opened PortPattern

  newtype uint8 = x: int | 0 <= x < 256

  /** A declared statistic: its name, the enable level it reports and its units. */
  datatype StatInfo = StatInfo(name: string, enableLevel: uint8, units: string)

  /** A declared sub-component slot. */
  datatype SlotInfo = SlotInfo(name: string, description: string)

  /** What one element declares about itself. */
  datatype ElementInfo = ElementInfo(
    ports: seq<string>,
    params: set<string>,
    stats: seq<StatInfo>,
    slots: seq<SlotInfo>)

  /** The kinds of element the information database is keyed by. */
  datatype Kind = ComponentKind | SubComponentKind | ModuleKind | PartitionerKind | PythonModuleKind

  /**
   * The builder tables: one per constructor shape. Modules have two, one for
   * builders that take only parameters and one for builders that also take
   * the owning component.
   */
  datatype BuilderKind =
    | ComponentBuilder
    | SubComponentBuilder
    | ModuleBuilder
    | ModuleWithComponentBuilder
    | PartitionerBuilder
    | PythonModuleBuilder

  /** A builder is foreign code; the model knows it by an opaque identity. */
  type BuilderId = nat

  /**
   * What a library registers when it is loaded. A kind missing from `info`
   * or `builders` is a library that registered nothing of that kind.
   */
  datatype Library = Library(
    info: map<Kind, map<string, ElementInfo>>,
    builders: map<BuilderKind, map<string, BuilderId>>)

  /** The registered libraries, by name. */
  type Database = map<string, Library>

  /** The information a library declares for one kind, if it registered any. */
  function InfoLibrary(db: Database, kind: Kind, lib: string): Option<map<string, ElementInfo>>
  {
    if lib in db && kind in db[lib].info then Some(db[lib].info[kind]) else None
  }

  /** The builder table of one kind a library registered, if any. */
  function BuilderLibrary(db: Database, kind: BuilderKind, lib: string): Option<map<string, BuilderId>>
  {
    if lib in db && kind in db[lib].builders then Some(db[lib].builders[kind]) else None
  }

  /** The two things a construction needs: the element's information and its builder. */
  datatype Resolved = Resolved(info: ElementInfo, builder: BuilderId)

  /**
   * The lookup chain every construction runs: the library's information for
   * the kind, the element's entry in it, the library's builder table and the
   * builder under `key`. The chain yields something exactly when no link is
   * missing.
   */
  function Resolve(db: Database, kind: Kind, builderKind: BuilderKind, lib: string, elem: string, key: string)
    : (r: Option<Resolved>)
    ensures r.Some? <==>
      lib in db && kind in db[lib].info && elem in db[lib].info[kind] &&
      builderKind in db[lib].builders && key in db[lib].builders[builderKind]
    ensures r.Some? ==>
      r.value == Resolved(db[lib].info[kind][elem], db[lib].builders[builderKind][key])
  {
    match InfoLibrary(db, kind, lib)
    case None => None
    case Some(infos) =>
      if elem !in infos then None
      else
        match BuilderLibrary(db, builderKind, lib)
        case None => None
        case Some(table) =>
          if key !in table then None else Some(Resolved(infos[elem], table[key]))
  }

  // ---------------------------------------------------------------------
  // Searches over the declared lists

  /** The position of the first statistic called `name`, if any. */
  function FirstStatistic(stats: seq<StatInfo>, name: string): (r: Option<nat>)
    ensures r.Some? ==> r.value < |stats| && stats[r.value].name == name
    ensures r.Some? ==> forall k :: 0 <= k < r.value ==> stats[k].name != name
    ensures r.None? ==> forall k :: 0 <= k < |stats| ==> stats[k].name != name
  {
    if stats == [] then None
    else if stats[0].name == name then Some(0)
    else
      match FirstStatistic(stats[1..], name)
      case None => None
      case Some(k) => Some(k + 1)
  }

  /** The loop over the declared statistics that stops at the first one called `name`. */
  method FindStatistic(stats: seq<StatInfo>, name: string) returns (r: Option<nat>)
    ensures r == FirstStatistic(stats, name)
  {
    var k := 0;
    while k < |stats|
      invariant k <= |stats|
      invariant forall m :: 0 <= m < k ==> stats[m].name != name
    {
      if stats[k].name == name {
        return Some(k);
      }
      k := k + 1;
    }
    return None;
  }

  /** The loop over the declared sub-component slots. */
  method FindSlot(slots: seq<SlotInfo>, name: string) returns (found: bool)
    ensures found <==> exists k :: 0 <= k < |slots| && slots[k].name == name
  {
    for k := 0 to |slots|
      invariant forall m :: 0 <= m < k ==> slots[m].name != name
    {
      if slots[k].name == name {
        return true;
      }
    }
    return false;
  }

  /** The loop over the declared port patterns: does any of them accept `portName`? */
  method AnyPortMatches(patterns: seq<string>, portName: string) returns (found: bool)
    ensures found <==>
      exists k :: 0 <= k < |patterns| && Matches(CString(patterns[k]), CString(portName))
  {
    for k := 0 to |patterns|
      invariant forall m :: 0 <= m < k ==> !Matches(CString(patterns[m]), CString(portName))
    {
      var ok := CheckPort(patterns[k], portName);
      if ok {
        return true;
      }
    }
    return false;
  }
}
