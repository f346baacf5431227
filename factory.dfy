/**
 * The element factory: it loads element libraries on demand, answers
 * questions about what an element declares, and constructs components,
 * modules, sub-components, partitioners and Python modules through the
 * builders their libraries registered.
 *
 * A fatal error of the C++ factory ends the process; here it is the `Fatal`
 * outcome, carrying whom the error message names. Builders are foreign
 * code: a construction yields an `Instance` token recording which builder
 * was invoked, with which arguments, and under which scope (the parameter
 * keys allowed at that moment and the component type being loaded).
 */
module ElementFactory {
  import opened Wrappers
  import opened LoadName
  import opened PortPattern
  import opened Metadata
  import opened LibraryRegistry

  /** What a "can't find requested ..." message names. */
  datatype Subject = Component | SubComponent | ComponentOrSubComponent | Module | Partitioner

  datatype Failure =
    | CantFind(subject: Subject, name: string)
    | EmptyModuleName

  /** A result, or the fatal error that ends the process. */
  datatype Outcome<+T> = Value(value: T) | Fatal(failure: Failure)

  type ComponentId = nat

  /** An owning component, passed through to a builder untouched. */
  type ComponentRef = nat

  datatype RankInfo = RankInfo(rank: nat, thread: nat)

  /** The arguments each kind of builder receives besides the parameters. */
  datatype BuildArgs =
    | ComponentArgs(id: ComponentId)
    | ModuleArgs
    | ModuleWithComponentArgs(owner: ComponentRef)
    | SubComponentArgs(owner: ComponentRef)
    | PartitionerArgs(totalRanks: RankInfo, myRank: RankInfo, verbosity: int)
    | PythonModuleArgs(library: string)

  /** What a builder can observe of the factory while it runs. */
  datatype Scope =
    | Scoped(allowedKeys: seq<set<string>>, loadingType: string)
    | Unscoped

  datatype Instance = Instance(builder: BuilderId, args: BuildArgs, scope: Scope)

  /** The type a statistic query is about: the one given, or the component being loaded. */
  function QueriedType(typeName: string, loadingType: string): string
  {
    if typeName == "" then loadingType else typeName
  }

  /**
   * The port patterns `isPortNameValid` checks: the component's, when the
   * library registered components; otherwise those of the sub-component
   * registered under the library's own name.
   */
  function DeclaredPorts(db: Database, lib: string, elem: string): Option<seq<string>>
  {
    match InfoLibrary(db, ComponentKind, lib)
    case Some(comps) => if elem in comps then Some(comps[elem].ports) else None
    case None =>
      match InfoLibrary(db, SubComponentKind, lib)
      case Some(subs) => if lib in subs then Some(subs[lib].ports) else None
      case None => None
  }

  /** The component information of a library, or failing that its sub-component information. */
  function ComponentOrSubComponentInfo(db: Database, lib: string): Option<map<string, ElementInfo>>
  {
    if InfoLibrary(db, ComponentKind, lib).Some? then InfoLibrary(db, ComponentKind, lib)
    else InfoLibrary(db, SubComponentKind, lib)
  }

  predicate DeclaresSlot(info: ElementInfo, slotName: string)
  {
    exists k :: 0 <= k < |info.slots| && info.slots[k].name == slotName
  }

  predicate DeclaresStatistic(info: ElementInfo, statName: string)
  {
    exists k :: 0 <= k < |info.stats| && info.stats[k].name == statName
  }

  /** The enable level of the first statistic called `statName`, or 0. */
  function EnableLevel(info: ElementInfo, statName: string): uint8
  {
    match FirstStatistic(info.stats, statName)
    case Some(k) => info.stats[k].enableLevel
    case None => 0
  }

  /**
   * The units of the first statistic called `statName`; None where the
   * C++ factory builds a string from a null pointer.
   */
  function StatisticUnits(info: ElementInfo, statName: string): Option<string>
  {
    match FirstStatistic(info.stats, statName)
    case Some(k) => Some(info.stats[k].units)
    case None => None
  }

  /** A parameter set with its stack of allowed-key restrictions. */
  class Params {
    var allowedKeys: seq<set<string>>

    constructor ()
      ensures allowedKeys == []
    {
      allowedKeys := [];
    }

    method PushAllowedKeys(keys: set<string>)
      modifies this
      ensures allowedKeys == old(allowedKeys) + [keys]
    {
      allowedKeys := allowedKeys + [keys];
    }

    method PopAllowedKeys()
      requires allowedKeys != []
      modifies this
      ensures allowedKeys == old(allowedKeys)[..|old(allowedKeys)| - 1]
    {
      allowedKeys := allowedKeys[..|allowedKeys| - 1];
    }
  }

  class Factory {
    /** The dynamic loader, which also performs the library's registration. */
    const loader: Loader
    var loadedLibraries: set<string>
    /** The information database and builder tables of the registered libraries. */
    var database: Database
    /** The type of the component being constructed, or "" outside a construction. */
    var loadingComponentType: string

    ghost function State(): Registry
      reads this
    {
      Registry(loadedLibraries, database)
    }

    ghost predicate Valid()
      reads this
    {
      Consistent(State(), loader)
    }

    constructor (loader: Loader, registered: Database)
      ensures Valid() && this.loader == loader
      ensures State() == Initial(registered) && loadingComponentType == ""
    {
      this.loader := loader;
      loadedLibraries := {Builtin};
      database := registered;
      loadingComponentType := "";
    }

    // -------------------------------------------------------------------
    // The loaded-library registry

    method LoadLibrary(name: string) returns (ok: bool)
      modifies this
      ensures (State(), ok) == Load(old(State()), loader, name)
      ensures loadingComponentType == old(loadingComponentType)
    {
      var library := loader(name);
      if library.None? {
        return false;
      }
      loadedLibraries := loadedLibraries + {name};
      database := database[name := library.value];
      return true;
    }

    method FindLibrary(name: string) returns (ok: bool)
      requires Valid()
      modifies this
      ensures Valid() && loadingComponentType == old(loadingComponentType)
      ensures (State(), ok) == Find(old(State()), loader, name)
    {
      if name in loadedLibraries {
        return true;
      }
      ok := LoadLibrary(name);
    }

    /** The quiet lookup: the same as FindLibrary, without error reports. */
    method HasLibrary(name: string) returns (ok: bool)
      requires Valid()
      modifies this
      ensures Valid() && loadingComponentType == old(loadingComponentType)
      ensures (State(), ok) == Find(old(State()), loader, name)
    {
      ok := FindLibrary(name);
    }

    method RequireLibrary(name: string)
      requires Valid()
      modifies this
      ensures Valid() && loadingComponentType == old(loadingComponentType)
      ensures State() == Require(old(State()), loader, name)
    {
      if name == Builtin {
        return;
      }
      var _ := FindLibrary(name);
    }

    /** Add the loaded library names to the caller's set `names`. */
    method GetLoadedLibraryNames(names: set<string>) returns (r: set<string>)
      ensures r == names + loadedLibraries
    {
      r := names;
      var rest := loadedLibraries;
      while rest != {}
        invariant rest <= loadedLibraries
        invariant r == names + (loadedLibraries - rest)
        decreases rest
      {
        var lib :| lib in rest;
        r := r + {lib};
        rest := rest - {lib};
      }
    }

    /** Find each of `names`, loading those not loaded yet. */
    method LoadUnloadedLibraries(names: set<string>)
      requires Valid()
      modifies this
      ensures Valid() && loadingComponentType == old(loadingComponentType)
      ensures State() == FindAll(old(State()), loader, names)
    {
      var rest := names;
      FindAllNone(State(), loader);
      assert names - rest == {};
      while rest != {}
        invariant rest <= names
        invariant Valid() && loadingComponentType == old(loadingComponentType)
        invariant State() == FindAll(old(State()), loader, names - rest)
        decreases rest
      {
        var name :| name in rest;
        ghost var done := names - rest;
        FindAllStep(old(State()), loader, done, name);
        var _ := FindLibrary(name);
        rest := rest - {name};
        assert names - rest == done + {name};
        assert State() == FindAll(old(State()), loader, done + {name});
        assert Valid();
      }
      assert names - rest == names;
    }

    method RequireEvent(eventName: string)
      requires Valid()
      modifies this
      ensures Valid() && loadingComponentType == old(loadingComponentType)
      ensures State() == Require(old(State()), loader, ParseLoadName(eventName).0)
    {
      var (lib, _) := ParseLoadName(eventName);
      RequireLibrary(lib);
    }

    // -------------------------------------------------------------------
    // Questions about what an element declares

    /** `isPortNameValid`: does a port pattern declared by `typeName` accept `portName`? */
    method IsPortNameValid(typeName: string, portName: string) returns (r: Outcome<bool>)
      requires Valid()
      modifies this
      ensures Valid() && loadingComponentType == old(loadingComponentType)
      ensures State() == Find(old(State()), loader, ParseLoadName(typeName).0).0
      ensures var (lib, elem) := ParseLoadName(typeName);
        match DeclaredPorts(database, lib, elem)
        case None => r == Fatal(CantFind(ComponentOrSubComponent, lib + "." + elem))
        case Some(patterns) =>
          r == Value(exists k :: 0 <= k < |patterns| && Matches(CString(patterns[k]), CString(portName)))
    {
      var (lib, elem) := ParseLoadName(typeName);
      if lib !in loadedLibraries {
        var _ := FindLibrary(lib);
      }
      var portNames: Option<seq<string>> := None;
      var comps := InfoLibrary(database, ComponentKind, lib);
      if comps.Some? {
        if elem in comps.value {
          portNames := Some(comps.value[elem].ports);
        }
      } else {
        var subs := InfoLibrary(database, SubComponentKind, lib);
        if subs.Some? && lib in subs.value {
          portNames := Some(subs.value[lib].ports);
        }
      }
      if portNames.None? {
        return Fatal(CantFind(ComponentOrSubComponent, lib + "." + elem));
      }
      var found := AnyPortMatches(portNames.value, portName);
      return Value(found);
    }

    /**
     * `DoesSubComponentSlotExist`: once the library has component information,
     * an unknown element simply has no slots; only a library with neither
     * component nor sub-component information is fatal.
     */
    method DoesSubComponentSlotExist(typeName: string, slotName: string) returns (r: Outcome<bool>)
      requires Valid()
      modifies this
      ensures Valid() && loadingComponentType == old(loadingComponentType)
      ensures State() == Require(old(State()), loader, ParseLoadName(typeName).0)
      ensures var (lib, elem) := ParseLoadName(typeName);
        match ComponentOrSubComponentInfo(database, lib)
        case None => r == Fatal(CantFind(ComponentOrSubComponent, typeName))
        case Some(infos) => r == Value(elem in infos && DeclaresSlot(infos[elem], slotName))
    {
      var (lib, elem) := ParseLoadName(typeName);
      RequireLibrary(lib);
      var comps := InfoLibrary(database, ComponentKind, lib);
      if comps.Some? {
        if elem in comps.value {
          var found := FindSlot(comps.value[elem].slots, slotName);
          if found {
            return Value(true);
          }
        }
        return Value(false);
      }
      var subs := InfoLibrary(database, SubComponentKind, lib);
      if subs.Some? {
        if elem in subs.value {
          var found := FindSlot(subs.value[elem].slots, slotName);
          if found {
            return Value(true);
          }
        }
        return Value(false);
      }
      return Fatal(CantFind(ComponentOrSubComponent, typeName));
    }

    /**
     * `DoesComponentInfoStatisticNameExist`: an empty `typeName` asks about
     * the component being constructed; an unknown component is fatal.
     */
    method DoesComponentInfoStatisticNameExist(typeName: string, statName: string) returns (r: Outcome<bool>)
      requires Valid()
      modifies this
      ensures Valid() && loadingComponentType == old(loadingComponentType)
      ensures var (lib, elem) := ParseLoadName(QueriedType(typeName, loadingComponentType));
        && State() == Require(old(State()), loader, lib)
        && var comps := InfoLibrary(database, ComponentKind, lib);
           if comps.Some? && elem in comps.value then r == Value(DeclaresStatistic(comps.value[elem], statName))
           else r == Fatal(CantFind(Component, typeName))
    {
      var (lib, elem) := ParseLoadName(QueriedType(typeName, loadingComponentType));
      RequireLibrary(lib);
      var comps := InfoLibrary(database, ComponentKind, lib);
      if comps.Some? && elem in comps.value {
        var k := FindStatistic(comps.value[elem].stats, statName);
        return Value(k.Some?);
      }
      return Fatal(CantFind(Component, typeName));
    }

    /** `DoesSubComponentInfoStatisticNameExist`: the same question about a sub-component. */
    method DoesSubComponentInfoStatisticNameExist(typeName: string, statName: string) returns (r: Outcome<bool>)
      requires Valid()
      modifies this
      ensures Valid() && loadingComponentType == old(loadingComponentType)
      ensures var (lib, elem) := ParseLoadName(QueriedType(typeName, loadingComponentType));
        && State() == Require(old(State()), loader, lib)
        && var subs := InfoLibrary(database, SubComponentKind, lib);
           if subs.Some? && elem in subs.value then r == Value(DeclaresStatistic(subs.value[elem], statName))
           else r == Fatal(CantFind(SubComponent, typeName))
    {
      var (lib, elem) := ParseLoadName(QueriedType(typeName, loadingComponentType));
      RequireLibrary(lib);
      var subs := InfoLibrary(database, SubComponentKind, lib);
      if subs.Some? && elem in subs.value {
        var k := FindStatistic(subs.value[elem].stats, statName);
        return Value(k.Some?);
      }
      return Fatal(CantFind(SubComponent, typeName));
    }

    /**
     * `GetComponentInfoStatisticEnableLevel`: the level of the first statistic
     * with that name, 0 when the library is known but the element or the
     * statistic is not; fatal only for a library with neither component nor
     * sub-component information.
     */
    method GetComponentInfoStatisticEnableLevel(typeName: string, statName: string) returns (r: Outcome<uint8>)
      requires Valid()
      modifies this
      ensures Valid() && loadingComponentType == old(loadingComponentType)
      ensures var (lib, elem) := ParseLoadName(QueriedType(typeName, loadingComponentType));
        && State() == Require(old(State()), loader, lib)
        && match ComponentOrSubComponentInfo(database, lib)
           case None => r == Fatal(CantFind(Component, typeName))
           case Some(infos) => r == Value(if elem in infos then EnableLevel(infos[elem], statName) else 0)
    {
      var (lib, elem) := ParseLoadName(QueriedType(typeName, loadingComponentType));
      RequireLibrary(lib);
      var comps := InfoLibrary(database, ComponentKind, lib);
      if comps.Some? {
        if elem in comps.value {
          var stats := comps.value[elem].stats;
          var k := FindStatistic(stats, statName);
          if k.Some? {
            return Value(stats[k.value].enableLevel);
          }
        }
        return Value(0);
      }
      var subs := InfoLibrary(database, SubComponentKind, lib);
      if subs.Some? {
        if elem in subs.value {
          var stats := subs.value[elem].stats;
          var k := FindStatistic(stats, statName);
          if k.Some? {
            return Value(stats[k.value].enableLevel);
          }
        }
        return Value(0);
      }
      return Fatal(CantFind(Component, typeName));
    }

    /**
     * `GetComponentInfoStatisticUnits`: the units of the first statistic with
     * that name; components only, and the library is found rather than
     * required.
     */
    method GetComponentInfoStatisticUnits(typeName: string, statName: string) returns (r: Outcome<Option<string>>)
      requires Valid()
      modifies this
      ensures Valid() && loadingComponentType == old(loadingComponentType)
      ensures var (lib, elem) := ParseLoadName(QueriedType(typeName, loadingComponentType));
        && State() == Find(old(State()), loader, lib).0
        && match InfoLibrary(database, ComponentKind, lib)
           case None => r == Fatal(CantFind(Component, typeName))
           case Some(comps) => r == Value(if elem in comps then StatisticUnits(comps[elem], statName) else None)
    {
      var (lib, elem) := ParseLoadName(QueriedType(typeName, loadingComponentType));
      if lib !in loadedLibraries {
        var _ := FindLibrary(lib);
      }
      var comps := InfoLibrary(database, ComponentKind, lib);
      if comps.Some? {
        if elem in comps.value {
          var stats := comps.value[elem].stats;
          var k := FindStatistic(stats, statName);
          if k.Some? {
            return Value(Some(stats[k.value].units));
          }
        }
        return Value(None);
      }
      return Fatal(CantFind(Component, typeName));
    }

    // -------------------------------------------------------------------
    // Construction

    /**
     * `CreateComponent`: the builder runs with the component's parameter
     * names pushed on the allowed keys and with `loadingComponentType` set to
     * the requested type; afterwards the keys are popped and the type cleared.
     */
    method CreateComponent(id: ComponentId, typeName: string, params: Params) returns (r: Outcome<Instance>)
      requires Valid()
      modifies this, params
      ensures Valid() && params.allowedKeys == old(params.allowedKeys)
      ensures var (lib, elem) := ParseLoadName(typeName);
        && State() == Require(old(State()), loader, lib)
        && match Resolve(database, ComponentKind, ComponentBuilder, lib, elem, elem)
           case None =>
             r == Fatal(CantFind(Component, typeName)) && loadingComponentType == old(loadingComponentType)
           case Some(found) =>
             && r == Value(Instance(found.builder, ComponentArgs(id),
                                    Scoped(old(params.allowedKeys) + [found.info.params], typeName)))
             && loadingComponentType == ""
    {
      var (lib, elem) := ParseLoadName(typeName);
      RequireLibrary(lib);
      var comps := InfoLibrary(database, ComponentKind, lib);
      if comps.Some? && elem in comps.value {
        var info := comps.value[elem];
        var builders := BuilderLibrary(database, ComponentBuilder, lib);
        if builders.Some? && elem in builders.value {
          var builder := builders.value[elem];
          loadingComponentType := typeName;
          params.PushAllowedKeys(info.params);
          r := Value(Instance(builder, ComponentArgs(id), Scoped(params.allowedKeys, loadingComponentType)));
          params.PopAllowedKeys();
          loadingComponentType := "";
          return;
        }
      }
      return Fatal(CantFind(Component, typeName));
    }

    /** `CreateModule`: an empty type is fatal before anything is loaded. */
    method CreateModule(typeName: string, params: Params) returns (r: Outcome<Instance>)
      requires Valid()
      modifies this, params
      ensures Valid() && loadingComponentType == old(loadingComponentType)
      ensures params.allowedKeys == old(params.allowedKeys)
      ensures typeName == "" ==> r == Fatal(EmptyModuleName) && State() == old(State())
      ensures typeName != "" ==>
        var (lib, elem) := ParseLoadName(typeName);
        && State() == Require(old(State()), loader, lib)
        && match Resolve(database, ModuleKind, ModuleBuilder, lib, elem, elem)
           case None => r == Fatal(CantFind(Module, typeName))
           case Some(found) =>
             r == Value(Instance(found.builder, ModuleArgs,
                                 Scoped(old(params.allowedKeys) + [found.info.params], loadingComponentType)))
    {
      if typeName == "" {
        return Fatal(EmptyModuleName);
      }
      var (lib, elem) := ParseLoadName(typeName);
      RequireLibrary(lib);
      var modules := InfoLibrary(database, ModuleKind, lib);
      if modules.Some? && elem in modules.value {
        var info := modules.value[elem];
        var builders := BuilderLibrary(database, ModuleBuilder, lib);
        if builders.Some? && elem in builders.value {
          var builder := builders.value[elem];
          params.PushAllowedKeys(info.params);
          r := Value(Instance(builder, ModuleArgs, Scoped(params.allowedKeys, loadingComponentType)));
          params.PopAllowedKeys();
          return;
        }
      }
      return Fatal(CantFind(Module, typeName));
    }

    /** `CreateModuleWithComponent`: a module built through the table of builders that take an owner. */
    method CreateModuleWithComponent(typeName: string, owner: ComponentRef, params: Params)
        returns (r: Outcome<Instance>)
      requires Valid()
      modifies this, params
      ensures Valid() && loadingComponentType == old(loadingComponentType)
      ensures params.allowedKeys == old(params.allowedKeys)
      ensures var (lib, elem) := ParseLoadName(typeName);
        && State() == Require(old(State()), loader, lib)
        && match Resolve(database, ModuleKind, ModuleWithComponentBuilder, lib, elem, elem)
           case None => r == Fatal(CantFind(Module, typeName))
           case Some(found) =>
             r == Value(Instance(found.builder, ModuleWithComponentArgs(owner),
                                 Scoped(old(params.allowedKeys) + [found.info.params], loadingComponentType)))
    {
      var (lib, elem) := ParseLoadName(typeName);
      RequireLibrary(lib);
      var modules := InfoLibrary(database, ModuleKind, lib);
      if modules.Some? && elem in modules.value {
        var info := modules.value[elem];
        var builders := BuilderLibrary(database, ModuleWithComponentBuilder, lib);
        if builders.Some? && elem in builders.value {
          var builder := builders.value[elem];
          params.PushAllowedKeys(info.params);
          r := Value(Instance(builder, ModuleWithComponentArgs(owner), Scoped(params.allowedKeys, loadingComponentType)));
          params.PopAllowedKeys();
          return;
        }
      }
      return Fatal(CantFind(Module, typeName));
    }

    method CreateSubComponent(typeName: string, owner: ComponentRef, params: Params) returns (r: Outcome<Instance>)
      requires Valid()
      modifies this, params
      ensures Valid() && loadingComponentType == old(loadingComponentType)
      ensures params.allowedKeys == old(params.allowedKeys)
      ensures var (lib, elem) := ParseLoadName(typeName);
        && State() == Require(old(State()), loader, lib)
        && match Resolve(database, SubComponentKind, SubComponentBuilder, lib, elem, elem)
           case None => r == Fatal(CantFind(SubComponent, typeName))
           case Some(found) =>
             r == Value(Instance(found.builder, SubComponentArgs(owner),
                                 Scoped(old(params.allowedKeys) + [found.info.params], loadingComponentType)))
    {
      var (lib, elem) := ParseLoadName(typeName);
      RequireLibrary(lib);
      var subs := InfoLibrary(database, SubComponentKind, lib);
      if subs.Some? && elem in subs.value {
        var info := subs.value[elem];
        var builders := BuilderLibrary(database, SubComponentBuilder, lib);
        if builders.Some? && elem in builders.value {
          var builder := builders.value[elem];
          params.PushAllowedKeys(info.params);
          r := Value(Instance(builder, SubComponentArgs(owner), Scoped(params.allowedKeys, loadingComponentType)));
          params.PopAllowedKeys();
          return;
        }
      }
      return Fatal(CantFind(SubComponent, typeName));
    }

    /** `CreatePartitioner`: no parameters, so no allowed-keys scope. */
    method CreatePartitioner(name: string, totalRanks: RankInfo, myRank: RankInfo, verbosity: int)
        returns (r: Outcome<Instance>)
      requires Valid()
      modifies this
      ensures Valid() && loadingComponentType == old(loadingComponentType)
      ensures var (lib, elem) := ParseLoadName(name);
        && State() == Require(old(State()), loader, lib)
        && match Resolve(database, PartitionerKind, PartitionerBuilder, lib, elem, elem)
           case None => r == Fatal(CantFind(Partitioner, name))
           case Some(found) =>
             r == Value(Instance(found.builder, PartitionerArgs(totalRanks, myRank, verbosity), Unscoped))
    {
      var (lib, elem) := ParseLoadName(name);
      RequireLibrary(lib);
      var parts := InfoLibrary(database, PartitionerKind, lib);
      if parts.Some? && elem in parts.value {
        var builders := BuilderLibrary(database, PartitionerBuilder, lib);
        if builders.Some? && elem in builders.value {
          return Value(Instance(builders.value[elem], PartitionerArgs(totalRanks, myRank, verbosity), Unscoped));
        }
      }
      return Fatal(CantFind(Partitioner, name));
    }

    /**
     * `getPythonModule`: only libraries already registered are seen, nothing
     * is loaded, a missing link gives None instead of a fatal error, and the
     * builder is the one registered under the library's own name.
     */
    method GetPythonModule(name: string) returns (r: Option<Instance>)
      ensures var (lib, elem) := ParseLoadName(name);
        match Resolve(database, PythonModuleKind, PythonModuleBuilder, lib, elem, lib)
        case None => r == None
        case Some(found) => r == Some(Instance(found.builder, PythonModuleArgs(lib), Unscoped))
    {
      var (lib, elem) := ParseLoadName(name);
      var pythons := InfoLibrary(database, PythonModuleKind, lib);
      if pythons.Some? && elem in pythons.value {
        var builders := BuilderLibrary(database, PythonModuleBuilder, lib);
        if builders.Some? && lib in builders.value {
          return Some(Instance(builders.value[lib], PythonModuleArgs(lib), Unscoped));
        }
      }
      return None;
    }
  }
}
