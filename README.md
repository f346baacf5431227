# SST element factory, modelled in Dafny

This project models the element factory of the SST simulator core
(`src/sst/core/factory.cc`). The factory turns a dotted type name
`library.element` into a running simulation object. It does five things:

- It loads the element library on demand and keeps the set of library names
  it has loaded. That set starts out holding the built-in library `sst`.
- It looks the element up in the information database. Depending on the call
  this is the component, sub-component, module, partitioner or Python-module
  database.
- It finds the builder the library registered for the element.
- While the builder runs, it pushes the element's parameter names onto the
  parameter set's allowed-key stack. It also records the type of a component
  that is being built, so that statistic queries with an empty type name can
  refer to it.
- It answers questions about declared ports, sub-component slots and
  statistics. A port name is checked against the component's port patterns,
  which may hold the placeholder `%d` or `%(name)d` for a run of digits.

The model is split into these modules:

- `PortPattern` (`port_pattern.dfy`) holds the port matcher.
  - The imperative cursor walk is kept as methods over suffixes of the two
    strings.
  - It is proved against a recursive reference definition, `MatchFrom`/`Matches`.
  - Lemmas state what that definition accepts: literal patterns, indexed
    patterns, greedy digits and malformed placeholders.
- `LoadName` (`load_name.dfy`) splits a type name at its first dot.
- `Metadata` (`metadata.dfy`) is the information database and the builder
  tables, modelled as maps. The per-element searches over declared slots,
  statistics and ports are loops.
- `LibraryRegistry` (`registry.dfy`) specifies the loaded-library set as
  values.
  - The dynamic loader is a function parameter. For a name it either fails or
    yields what the library registers.
- `ElementFactory` (`factory.dfy`) holds the two classes.
  - `Factory` has the loaded set, the database and `loadingComponentType` as
    fields.
  - `Params` has its allowed-key stack as a field.
  - Every operation states its new registry state through `LibraryRegistry`.
    It states its result through the `Metadata` lookup chain.

A fatal error, which ends the process in the C++ factory, is the `Fatal`
outcome here. It names the subject the error message names: component,
sub-component, "component or subcomponent", module or partitioner.

Builders are foreign code. A construction returns an `Instance`, which
records:

- which registered builder was invoked;
- with which arguments;
- the allowed-key stack it saw;
- the `loadingComponentType` it saw.

A query that looks statistics up by name uses the element's declared
statistics, in order. The statistic names a component reports are taken to be
the names of those declared statistics.

Where the prose description of the port grammar differs from the code, the
model follows the code:

- The wildcard pattern `*` accepts every name, the empty name included.
- The first round of the matcher's `do … while` loop runs without testing its
  guard, so a pattern that is a lone placeholder (`%d`) accepts the empty
  name.
- The digit loop may eat no digit at all, so a placeholder followed by more
  pattern accepts an empty run of digits: `a%db` accepts `ab`.
  `LenientExamples` states these cases.
- After the first round, a placeholder that ends the pattern needs at least one
  digit (`IndexedRejects`: `port%d` does not accept `port`).
- The character right after a placeholder is compared literally, without
  testing whether it opens another placeholder, so a placeholder directly
  after a placeholder is matched as plain text: `%d%d` accepts `5%d`
  (`PlaceholderAfterPlaceholder`).

## Model

| member | source | states |
|---|---|---|
| PortPattern.CString | src/sst/core/factory.cc:72-73 | the matcher sees the NUL-free prefix of each `std::string` up to its first NUL, and the whole string when it holds no NUL |
| PortPattern.DigitRun | src/sst/core/factory.cc:90 | the placeholder eats the longest run of decimal digits: all eaten characters are digits and the next one is not |
| PortPattern.CloseParen | src/sst/core/factory.cc:83 | a `%(` placeholder scans to the first `)`, with no `)` before it |
| PortPattern.PlaceholderLength | src/sst/core/factory.cc:79-88 | a placeholder is `%d` or `%(…)d` ending at the first `)` followed by `d`; it is malformed exactly when the first `)` is missing or not followed by `d` |
| PortPattern.EatPlaceholder | src/sst/core/factory.cc:79-88 | the pattern cursor's walk over a placeholder succeeds exactly when the placeholder is well formed, and then stands just past its `d` |
| PortPattern.EatDigits | src/sst/core/factory.cc:90 | the name cursor's walk stops at the first non-digit, having eaten exactly the longest digit run |
| PortPattern.CheckPort | src/sst/core/factory.cc:70-99 | `checkPort` returns exactly the reference verdict `Matches` on the two C strings, and `*` accepts every name |
| PortPattern.PlaceholderAtStart | src/sst/core/factory.cc:79-88 | a well-formed placeholder followed by anything is recognised with its own length |
| PortPattern.LiteralPrefix | src/sst/core/factory.cc:92-96 | a placeholder-free pattern prefix must be matched character for character before the rest of the pattern is matched |
| PortPattern.LiteralPattern | src/sst/core/factory.cc:92-98 | a pattern without placeholder, other than `*`, accepts exactly the name equal to it |
| PortPattern.PlaceholderAlone | src/sst/core/factory.cc:88-98 | a placeholder ending the pattern, after the first round, accepts exactly non-empty digit runs |
| PortPattern.IndexedPattern | src/sst/core/factory.cc:78-98 | after a non-empty placeholder-free prefix, `prefix%d` and `prefix%(name)d` accept exactly the prefix followed by one or more digits |
| PortPattern.DigitAfterPlaceholder | src/sst/core/factory.cc:90-92 | there is no backtracking: after a placeholder-free prefix, a placeholder followed by a literal digit accepts no name |
| PortPattern.UnclosedPlaceholder | src/sst/core/factory.cc:82-87 | after a placeholder-free prefix, a `%(` without a `)` or whose first `)` is not followed by `d` makes the pattern accept no name |
| PortPattern.IndexedAcceptsOneDigit | src/sst/core/factory.cc:78-98 | `port%(n)d` accepts `port3` |
| PortPattern.IndexedAcceptsTwoDigits | src/sst/core/factory.cc:78-98 | `port%(n)d` accepts `port12` |
| PortPattern.IndexedRejects | src/sst/core/factory.cc:78-98 | `port%(n)d` rejects `portA` and `port%d` rejects `port` |
| PortPattern.PlaceholderAfterPlaceholder | src/sst/core/factory.cc:79-92 | the character after a placeholder is compared literally even when it opens another placeholder: `%d%d` accepts `5%d` |
| PortPattern.GreedyExample | src/sst/core/factory.cc:90-92 | `port%d0` rejects `port10`, since the placeholder eats `10` whole |
| PortPattern.LiteralExamples | src/sst/core/factory.cc:92-98 | `exact` accepts `exact` and rejects `exactly` |
| PortPattern.LenientExamples | src/sst/core/factory.cc:76-98 | `*` and `%d` accept the empty name; `a%db` accepts `ab` |
| LoadName.FirstDot | src/sst/core/factory.cc:624 | `find_first_of(".")`: no dot before the offset, and a dot at it unless it is the end |
| LoadName.ParseLoadName | src/sst/core/factory.cc:621-636 | a dot-free name is both library and element; otherwise the library is dot-free and library, `.`, element rebuild the whole name |
| LoadName.ParseJoined | src/sst/core/factory.cc:621-636 | parsing `lib.elem` with a dot-free `lib` gives back `(lib, elem)` |
| Metadata.Resolve | src/sst/core/factory.cc:174-181 | the lookup chain yields something exactly when the library's information, the element, the builder table and the builder are all present, and then yields those two entries |
| Metadata.FirstStatistic | src/sst/core/factory.cc:336-340 | the first declared statistic with the name: it has the name and none before it does; None when none has it |
| Metadata.FindStatistic | src/sst/core/factory.cc:336-340 | the loop over the declared statistics stops at the first one with the name |
| Metadata.FindSlot | src/sst/core/factory.cc:218-220 | the loop over the declared slots reports whether some slot has the name |
| Metadata.AnyPortMatches | src/sst/core/factory.cc:150-153 | the loop over the port patterns reports whether some pattern accepts the port name |
| LibraryRegistry.Initial | src/sst/core/factory.cc:52-59 | a new factory has loaded only `sst`, which is consistent with any loader |
| LibraryRegistry.Load | src/sst/core/factory.cc:646-657 | loading succeeds exactly when the loader does; only then does the name join the loaded set; no other library's registration changes |
| LibraryRegistry.Find | src/sst/core/factory.cc:609-617 | a loaded name is found without loading; otherwise loading decides; the loaded set grows by at most the name; the answer is whether the name is now loaded; consistency is kept |
| LibraryRegistry.FindIdempotent | src/sst/core/factory.cc:609-617 | finding a name a second time changes nothing and gives the same answer |
| LibraryRegistry.Require | src/sst/core/factory.cc:583-587 | `sst` is never looked up; any other name is found |
| LibraryRegistry.FindAllNone | src/sst/core/factory.cc:599-606 | finding no names leaves the registry as it is |
| LibraryRegistry.FindAllStep | src/sst/core/factory.cc:599-606 | finding one more name, new or already found, extends the closed form of finding a set of names: the order of the finds does not matter |
| LibraryRegistry.FindAllConsistent | src/sst/core/factory.cc:599-606 | finding a set of names keeps the registry consistent and never unloads a library |
| ElementFactory.Params.PushAllowedKeys | src/sst/core/factory.cc:185 | the element's parameter names go on top of the allowed-key stack |
| ElementFactory.Params.PopAllowedKeys | src/sst/core/factory.cc:187 | the top of the allowed-key stack is removed |
| ElementFactory.Factory.constructor | src/sst/core/factory.cc:52-59 | a new factory has loaded only `sst`, is consistent and is not building a component |
| ElementFactory.Factory.LoadLibrary | src/sst/core/factory.cc:646-657 | the new loaded set and database are those of `Load` |
| ElementFactory.Factory.FindLibrary | src/sst/core/factory.cc:609-617 | the new state and the answer are those of `Find`, and consistency is kept |
| ElementFactory.Factory.HasLibrary | src/sst/core/factory.cc:577-580 | behaves as `findLibrary` |
| ElementFactory.Factory.RequireLibrary | src/sst/core/factory.cc:583-587 | the new state is that of `Require` |
| ElementFactory.Factory.GetLoadedLibraryNames | src/sst/core/factory.cc:590-597 | the caller's set gains exactly the loaded library names |
| ElementFactory.Factory.LoadUnloadedLibraries | src/sst/core/factory.cc:599-606 | the new state is the closed form of finding every given name: every loadable name is loaded, and only those are added |
| ElementFactory.Factory.RequireEvent | src/sst/core/factory.cc:506-515 | only the event's library is required |
| ElementFactory.Factory.IsPortNameValid | src/sst/core/factory.cc:101-155 | the library is found, not required; the ports are the component's, or else those of the sub-component keyed by the library name; with no ports the error is fatal and names `lib.elem`; otherwise the answer is whether some pattern accepts the name |
| ElementFactory.Factory.DoesSubComponentSlotExist | src/sst/core/factory.cc:200-239 | with component information present, the answer is whether the element exists and declares the slot; it is false, not fatal, for an unknown element; the sub-component information is used only when there is no component information; with neither the error is fatal |
| ElementFactory.Factory.DoesComponentInfoStatisticNameExist | src/sst/core/factory.cc:241-276 | an empty type means the component being built; the answer is whether the component declares the statistic; a missing library or component is fatal and names the type as given |
| ElementFactory.Factory.DoesSubComponentInfoStatisticNameExist | src/sst/core/factory.cc:278-312 | the same as the component query, over the sub-component database |
| ElementFactory.Factory.GetComponentInfoStatisticEnableLevel | src/sst/core/factory.cc:314-361 | the enable level of the first statistic with the name; 0 for an unknown element or statistic in a known library; falls back to sub-components only when there is no component information; fatal otherwise |
| ElementFactory.Factory.GetComponentInfoStatisticUnits | src/sst/core/factory.cc:363-395 | the library is found, not required; the units of the first statistic with the name, components only; None where the code returns a string built from 0; fatal without component information |
| ElementFactory.Factory.CreateComponent | src/sst/core/factory.cc:157-197 | on a complete lookup chain the builder runs with the element's parameter names pushed and with the requested type as `loadingComponentType`; afterwards the stack is restored and the type is `""`; any missing link is fatal and leaves the type unchanged |
| ElementFactory.Factory.CreateModule | src/sst/core/factory.cc:398-434 | an empty type is fatal before any loading; otherwise the module builder runs under the pushed parameter names, the stack is restored, and a missing link is fatal |
| ElementFactory.Factory.CreateModuleWithComponent | src/sst/core/factory.cc:436-469 | the same through the builders that also take the owning component, with no empty-name check |
| ElementFactory.Factory.CreateSubComponent | src/sst/core/factory.cc:471-503 | the sub-component builder runs under the pushed parameter names with the owner, and the stack is restored; a missing link is fatal |
| ElementFactory.Factory.CreatePartitioner | src/sst/core/factory.cc:517-545 | the partitioner builder gets the ranks and verbosity, with no parameter scope; a missing link is fatal |
| ElementFactory.Factory.GetPythonModule | src/sst/core/factory.cc:549-573 | nothing is loaded or changed; the builder is looked up under the library name, not the element name, and receives the library name; any missing link gives None, not a fatal error |

## Left out

- The factory mutex (`factoryMutex`) is left out: the model is sequential.
- Diagnostic output is not modelled. This covers the warning for an empty
  library name, the lists of valid elements printed before a fatal error, the
  loader's error reports, and the `showErrors` flag that only controls those
  reports.
- The wording of fatal messages is not modelled. Only the subject and the name
  each message carries are kept.
- `LinkMap::setAllowedPorts` and the simulation's link map are not modelled.
  The same goes for the rest of `Simulation` and `Output`, which are not part
  of this model.
- The dynamic loader, `ElemLoader`, and the libraries' self-registration are
  a deterministic oracle. A load succeeds or fails, and on success the
  library's registrations join the database.
- What a builder does is foreign code. The model records the call and does not
  follow nested constructions that a builder may start.
- `Params` restricts reads to the keys on top of its allowed-key stack. That
  belongs to `Params`, which is not part of this model. Only the push and pop
  the factory performs are modelled.
- The singleton guard in the constructor is not modelled. Neither are the
  `instance` pointer, the search paths and the destructor.
- `notFound` (src/sst/core/factory.cc:638-643) is not modelled, because no
  modelled operation calls it.
- `isdigit` is modelled in the C locale, as the ASCII digits `0`–`9`.
- PortPattern.CheckPort: a `%(` whose `)` never comes steps the pattern
  cursor one character past the terminator. The model's cursor stays on the
  terminator instead, so the pattern is treated as malformed and rejected.
- ElementFactory.Factory.IsPortNameValid: the error text lists the entries
  of the component library pointer (src/sst/core/factory.cc:114, :142), which
  is null whenever the library has no component information. So when no port
  list is found and there is no component information, the code dereferences
  a null pointer. That covers a library with no information of either kind,
  and also a library with sub-component information but no entry under its
  own name (:124-127). The model goes straight to the fatal error in both
  cases.
- ElementFactory.Factory.CreateComponent, CreateModule,
  CreateModuleWithComponent and CreateSubComponent: builders are assumed to
  return normally. The pop of the allowed keys and the reset of
  `loadingComponentType` run only after `create` returns
  (src/sst/core/factory.cc:185-188, :422-424, :457-459, :491-493), with no
  scope guard. A builder that throws leaves the pushed keys on the stack and,
  for a component, the type still set; the model does not capture that.
- ElementFactory.Factory.GetComponentInfoStatisticUnits: the code builds the
  returned `std::string` from the integer 0, which is undefined behaviour.
  The model returns None there.
