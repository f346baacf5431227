/**
 * The specification of the loaded-library registry: the set of library
 * names the factory has loaded, and the metadata database that loading a
 * library fills in. The dynamic loader is an oracle: for a name it either
 * reports failure or yields what the library registers.
 */
module LibraryRegistry {
  import opened Wrappers
  import opened Metadata

  /** The dynamic loader together with the library's self-registration. */
  type Loader = string -> Option<Library>

  datatype Registry = Registry(loaded: set<string>, database: Database)

  /** The built-in library, loaded from the start without the loader. */
  const Builtin: string := "sst"

  /**
   * `"sst"` is always loaded, and every other loaded name is one the loader
   * reported loaded, whose registration is in the database.
   */
  ghost predicate Consistent(reg: Registry, loader: Loader)
  {
    && Builtin in reg.loaded
    && forall n :: n in reg.loaded && n != Builtin ==>
         loader(n).Some? && n in reg.database && reg.database[n] == loader(n).value
  }

  /** The registry a factory starts with: only the built-in library, over the statically registered database. */
  function Initial(registered: Database): (reg: Registry)
    ensures forall loader: Loader :: Consistent(reg, loader)
  {
    Registry({Builtin}, registered)
  }

  /**
   * `loadLibrary`: ask the loader; on success the name joins the loaded set
   * and the library's registration joins the database.
   */
  function Load(reg: Registry, loader: Loader, name: string): (r: (Registry, bool))
    ensures r.1 <==> loader(name).Some?
    ensures r.0.loaded == if r.1 then reg.loaded + {name} else reg.loaded
    ensures forall n :: n != name ==>
      (n in r.0.database <==> n in reg.database) &&
      (n in reg.database ==> r.0.database[n] == reg.database[n])
  {
    match loader(name)
    case None => (reg, false)
    case Some(library) =>
      (Registry(reg.loaded + {name}, reg.database[name := library]), true)
  }

  /**
   * `findLibrary`: a loaded name is found without asking the loader;
   * otherwise the name is loaded. The loaded set only grows, by `name`
   * alone and only when the loader succeeds, and the answer is whether the
   * name is now loaded.
   */
  function Find(reg: Registry, loader: Loader, name: string): (r: (Registry, bool))
    ensures name in reg.loaded ==> r == (reg, true)
    ensures r.1 <==> name in r.0.loaded
    ensures name in r.0.loaded <==> name in reg.loaded || loader(name).Some?
    ensures reg.loaded <= r.0.loaded <= reg.loaded + {name}
    ensures Consistent(reg, loader) ==> Consistent(r.0, loader)
  {
    if name in reg.loaded then (reg, true) else Load(reg, loader, name)
  }

  /**
   * Finding a name twice is finding it once: after a success the name is
   * loaded, and after a failure the loader fails again on the same name.
   */
  lemma FindIdempotent(reg: Registry, loader: Loader, name: string)
    ensures Find(Find(reg, loader, name).0, loader, name) == Find(reg, loader, name)
  {
  }

  /** `requireLibrary`: the built-in library is never looked up; any other name is found. */
  function Require(reg: Registry, loader: Loader, name: string): (r: Registry)
    ensures name == Builtin ==> r == reg
    ensures Consistent(reg, loader) ==> r == Find(reg, loader, name).0
  {
    if name == Builtin then reg else Find(reg, loader, name).0
  }

  /**
   * The registry after `findLibrary` on each of `names`, in any order: every
   * name the loader can load is loaded, and the database gains the
   * registration of each name that was not loaded before.
   */
  function FindAll(reg: Registry, loader: Loader, names: set<string>): Registry
  {
    Registry(
      reg.loaded + (set n | n in names && loader(n).Some?),
      reg.database + map n | n in names && n !in reg.loaded && loader(n).Some? :: loader(n).value)
  }

  /** Finding no name changes nothing. */
  lemma FindAllNone(reg: Registry, loader: Loader)
    ensures FindAll(reg, loader, {}) == reg
  {
    var r := FindAll(reg, loader, {});
    assert r.loaded == reg.loaded;
    assert r.database == reg.database;
  }

  /**
   * Finding one more name extends FindAll by that name, whatever was found
   * before: the order in which names are found does not matter, and finding
   * a name again changes nothing.
   */
  lemma FindAllStep(reg: Registry, loader: Loader, done: set<string>, name: string)
    ensures FindAll(reg, loader, done + {name}) == Find(FindAll(reg, loader, done), loader, name).0
  {
    var before := FindAll(reg, loader, done);
    var after := FindAll(reg, loader, done + {name});
    if name in before.loaded {
      assert name in reg.loaded || loader(name).Some?;
      assert after.loaded == before.loaded;
      assert after.database == before.database;
    } else {
      assert name !in reg.loaded;
      if loader(name).Some? {
        assert after.loaded == before.loaded + {name};
        assert after.database == before.database[name := loader(name).value];
      } else {
        assert after.loaded == before.loaded;
        assert after.database == before.database;
      }
    }
  }

  /** Finding every name of `names` keeps the registry consistent. */
  lemma FindAllConsistent(reg: Registry, loader: Loader, names: set<string>)
    requires Consistent(reg, loader)
    ensures Consistent(FindAll(reg, loader, names), loader)
    ensures reg.loaded <= FindAll(reg, loader, names).loaded
  {
    var r := FindAll(reg, loader, names);
    forall n | n in r.loaded && n != Builtin
      ensures loader(n).Some? && n in r.database && r.database[n] == loader(n).value
    {
      if n !in reg.loaded {
        assert n in names && loader(n).Some?;
      }
    }
  }
}
