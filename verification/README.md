# Swift `Module` entities, access paths and lookup options in Dafny

This project models the parts of Swift's `include/swift/AST/Module.h` that the header spells out itself. The modules are:

- **AccessPaths** (`access_paths.dfy`): an import's access path is a chain of identifiers with source locations. `IsSameAccessPath` compares the identifier chains and ignores the locations.
- **ImportedModules** (`imported_modules.dfy`): `ImportedModule` pairs an access path with the module it names. Its `DenseMapInfo` equality and hash let it key a hash map. Equal keys hash alike because the hash only reads the path's length and the module.
- **LookupOptions** (`lookup_options.dfy`): the `NL_*` bit flags of `NameLookupOptions` and their presets. The word is 32 bits wide (`bv32`).
- **ModuleKinds** (`module_kinds.dfy`): the `ModuleKind` tag and the `classof` tests that map each tag to `TranslationUnit`, `BuiltinModule` or `LoadedModule`. It also holds the ordered `ASTStage` enum.
- **Modules** (`modules.dfy`): classes for `Module`, `TranslationUnit`, `BuiltinModule` and `LoadedModule`.
  - Each variant holds its `Module` part as the field `base`, which its constructor builds first. Its constructor establishes the variant's `Valid()`. For `TranslationUnit` and `BuiltinModule`, `Valid()` fixes the kind and whether there is a component. For `LoadedModule`, it only says that the cache slot records a loader, because the loaded-module constructor takes the kind as an argument and does not check it.
  - A translation unit starts at `Parsing`; builtin and loaded modules start at `TypeChecked`.
  - Only the builtin module may be built without a component.
  - The translation unit's guarded fields are updated in place by methods whose preconditions are the source's assertions.
- **VisibleModules** (`visible_modules.dfy`): the callback protocol of `forAllVisibleModules`. A callback returns `false` to abort iteration. The `void` overload wraps its callback so that it always continues. Both overloads return nothing; the "aborted" flag that `Visit` returns is the model's own observation of a run.

Pointers are modelled as handles: `ModuleId` for `Module *`, `ComponentId` for `Component *`, `LoaderId` for `ModuleLoader &`, and `DeclId` for `Decl *`. A null component pointer is `None`.

The code does not enforce three things one might expect:

- `setImports` has no guard. It overwrites the import list every time; the list is not write-once.
- `setLinkLibraries` only checks that the current list is empty. Setting an empty list therefore leaves the field settable again; `SetLinkLibraries` states this.
- `ASTStage` is a public field with no transition method. Nothing in the code keeps it from going backwards, so the model claims no monotonicity.

## Model

| member | source | states |
|---|---|---|
| `AccessPaths.Identifiers` | include/swift/AST/Module.h:163 | the identifier chain of a path has one entry per element, and entry i is element i's identifier |
| `AccessPaths.IsSameAccessPath` | include/swift/AST/Module.h:332-336 | true exactly when the two paths have the same identifier chain |
| `AccessPaths.IsSameAccessPathElementwise` | include/swift/AST/Module.h:332-336 | same path iff equal lengths and equal identifiers at every position (both directions) |
| `AccessPaths.DifferentLengthsDiffer` | include/swift/AST/Module.h:332-336 | paths of different lengths never compare equal |
| `AccessPaths.LocationsAreIgnored` | include/swift/AST/Module.h:332-336 | moving a path to other locations leaves it equal to itself and to everything it was equal to |
| `AccessPaths.IsSameAccessPathIsEquivalence` | include/swift/AST/Module.h:332-336 | path comparison is reflexive, symmetric and transitive |
| `ImportedModules.IsEqual` | include/swift/AST/Module.h:572-576 | two keys are equal exactly when they name the same module under the same identifier chain |
| `ImportedModules.GetHashValue` | include/swift/AST/Module.h:567-570 | the hash is the mixing function applied to the length of the identifier chain and the module; nothing else of the key enters |
| `ImportedModules.EqualKeysHashEqually` | include/swift/AST/Module.h:567-576 | keys that `isEqual` identifies have the same hash, for any mixing function |
| `ImportedModules.HashIgnoresIdentifiers` | include/swift/AST/Module.h:567-570 | the hash depends only on the path length and the module |
| `ImportedModules.IsEqualIsEquivalence` | include/swift/AST/Module.h:572-576 | key equality is reflexive, symmetric and transitive |
| `ImportedModules.RelocatedKeyIsEqual` | include/swift/AST/Module.h:572-576 | a key whose path only moved to other source locations is equal to the original key |
| `LookupOptions.FlagsAreDistinctSingleBits` | include/swift/AST/Module.h:76-92 | each of the five options is one bit, and distinct options share no bit |
| `LookupOptions.BitIdentifiesOption` | include/swift/AST/Module.h:76-92 | an option's flag tests positive for that option and for no other |
| `LookupOptions.DefaultOptions` | include/swift/AST/Module.h:94-103 | both defaults are 0x0D and hold exactly VisitSupertypes, RemoveNonVisible and RemoveOverridden (no ProtocolMembers, no DynamicLookup) |
| `LookupOptions.ConstructorOptions` | include/swift/AST/Module.h:105-106 | constructor lookup is exactly RemoveNonVisible |
| `ModuleKinds.IsTranslationUnit` | include/swift/AST/Module.h:461-463 | accepts exactly the kind a `TranslationUnit` is built with |
| `ModuleKinds.IsBuiltinModule` | include/swift/AST/Module.h:481-483 | accepts exactly the kind a `BuiltinModule` is built with |
| `ModuleKinds.IsLoadedModule` | include/swift/AST/Module.h:529-532 | accepts exactly the kinds of loaded modules: serialized Swift modules and Clang modules |
| `ModuleKinds.ClassofPartitionsKinds` | include/swift/AST/Module.h:461-532 | every kind passes exactly one of the three `classof` tests; serialized and Clang modules are loaded modules |
| `ModuleKinds.IsModule` | include/swift/AST/Module.h:345-347 | a declaration context passes exactly when it is a module |
| `ModuleKinds.IsTranslationUnitContext` | include/swift/AST/Module.h:465-467 | a context passes exactly when it is a module of the translation-unit class |
| `ModuleKinds.IsBuiltinModuleContext` | include/swift/AST/Module.h:484-486 | a context passes exactly when it is a module of the builtin class |
| `ModuleKinds.IsLoadedModuleContext` | include/swift/AST/Module.h:533-535 | a context passes exactly when it is a module of the loaded class |
| `ModuleKinds.ASTStage.Rank` | include/swift/AST/Module.h:143-152 | a stage's rank is its position in the enum's declaration order |
| `ModuleKinds.ASTStage.AtLeast` | include/swift/AST/Module.h:415 | `s >= t` holds exactly when `t` is declared no later than `s` |
| `ModuleKinds.StagesAreTotallyOrdered` | include/swift/AST/Module.h:143-152 | the stages are totally ordered Parsing < Parsed < NameBound < TypeChecked, and a stage is at least Parsed exactly when it is not Parsing |
| `Modules.Module.constructor` | include/swift/AST/Module.h:155-160 | refuses a missing component unless the kind is builtin; starts at Parsing with no lookup cache |
| `Modules.TranslationUnit.ComponentAvailable` | include/swift/AST/Module.h:159-171 | a valid translation unit always has a component, so `getComponent` may be called on it |
| `Modules.Module.GetComponent` | include/swift/AST/Module.h:168-171 | callable only when a component is present, and returns that component |
| `Modules.TranslationUnit.constructor` | include/swift/AST/Module.h:363-412 | a translation-unit module at Parsing, with no imports, no link libraries, no import buffer (-1), no builtin access and empty operator tables |
| `Modules.TranslationUnit.GetImports` | include/swift/AST/Module.h:414-417 | callable only once parsing has completed or for a SIL unit; returns the last imports set |
| `Modules.TranslationUnit.SetImports` | include/swift/AST/Module.h:418-420 | unconditionally replaces the imports; nothing else changes |
| `Modules.TranslationUnit.SetLinkLibraries` | include/swift/AST/Module.h:422-425 | callable only while the list is empty; stores the list, changes nothing else, and stays settable only if the list given was empty |
| `Modules.TranslationUnit.GetLinkLibraries` | include/swift/AST/Module.h:426-428 | returns the stored link libraries |
| `Modules.TranslationUnit.SetImportBufferID` | include/swift/AST/Module.h:438-441 | callable only while the id is -1; stores the id, changes nothing else, and no second call is allowed |
| `Modules.TranslationUnit.GetImportBufferID` | include/swift/AST/Module.h:435-437 | returns the stored id, -1 when none is set |
| `Modules.BuiltinModule.constructor` | include/swift/AST/Module.h:475-479 | a builtin-kind module without a component, already at TypeChecked |
| `Modules.LoadedModule.constructor` | include/swift/AST/Module.h:497-505 | a module of the given kind, already at TypeChecked, whose cache slot records its loader |
| `Modules.LoadedModule.GetOwner` | include/swift/AST/Module.h:507-509 | returns the loader recorded in the cache slot |
| `VisibleModules.AlwaysContinue` | include/swift/AST/Module.h:305-312 | the wrapper has the effect of the `void` callback and always answers "continue" |
| `VisibleModules.Visit` | include/swift/AST/Module.h:300-303 | iteration is aborted exactly when some answer was `false`; otherwise it ends in the state after every visible module |
| `VisibleModules.VoidCallbackNeverAborts` | include/swift/AST/Module.h:305-312 | the wrapped `void` callback never aborts and hands every visible module, in order, to the callback |
| `VisibleModules.AbortStopsThere` | include/swift/AST/Module.h:300-303 | a callback that continues on a prefix and answers `false` on the next module stops there, whatever follows, and iteration is aborted |
| `VisibleModules.ContinuingCallbackNeverAborts` | include/swift/AST/Module.h:300-303 | a callback that always continues is offered every visible module, ends in the state after all of them, and never aborts |

## Left out

- The lookup algorithms have no bodies in `Module.h`, and `Module.cpp` is not part of this model. This covers `lookupValue`, `lookupVisibleDecls`, `lookupQualified`, the prefix/infix/postfix operator lookups, `lookupClassMembers`/`lookupClassMember`, `lookupConformance`, `getImportedModules`, `collectLinkLibraries`, `getTopLevelDecls`/`getDisplayDecls`, `getModuleFilename`, `isStdlibModule` and `LoadedModule::lookupOperator`. The `NLKind` and `ConformanceKind` enums are used only by these and are left out with them.
- The traversal inside `forAllVisibleModules` is not in `Module.h`. The visible modules and their order are an input to `VisibleModules.Visit`, and the `topLevelAccessPath` argument is not modelled.
- The lookup cache (`clearLookupCache`, `cacheVisibleDecls`, `getCachedVisibleDecls`) is declared but not defined in `Module.h`. A translation unit's cache slot stays `NoLookupCache`.
- `dump`, `print` and `walk` are output and AST-walker code.
- The custom `operator new`/`delete` and the `ASTContext` reference are allocation plumbing.
- The `std::function` and template forwarding overloads of `forAllVisibleModules` and `collectLinkLibraries` only convert callback types.
- `ImportedModules.GetHashValue`: LLVM's pair-hash mixing is a parameter (`PairHash`) rather than a definition. The empty and tombstone keys of `DenseMapInfo` are hash-map internals and are not modelled.
- `Modules.TranslationUnit.SetImportBufferID`: takes a non-negative id and does not model the narrowing of the `unsigned` argument into the `int` field. In the code, an argument of 0xFFFFFFFF would store -1 and leave the field settable again.
- `Imports` and `LinkLibraries` are non-owning `ArrayRef` views of the caller's storage, and the setters keep that view. The model stores a copy as a `seq`. A later change to the caller's storage, which would show through the getters, is not modelled.
- The `Module` and `LoadedModule` constructors are protected in the source, and loaded modules are documented as serialized Swift modules or Clang modules. Dafny has no access control, so a bare `Module` of any kind can be built. A `LoadedModule` of any kind can be built too, as its constructor does not check the kind. A loaded module built with the translation-unit or builtin kind therefore passes that kind's `classof` test rather than `IsLoadedModule`. Only `TranslationUnit.Valid()` and `BuiltinModule.Valid()` tie `base.kind` to their class.
- The operator tables and declaration list of a translation unit are fields filled by name binding. No operation in `Module.h` touches them beyond their construction.
