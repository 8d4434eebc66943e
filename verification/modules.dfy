/**
 The module entities: `Module` and its three variants `TranslationUnit`,
 `BuiltinModule` and `LoadedModule`.

 Each variant holds its `Module` part as `base` (the C++ base-class
 subobject). The variant's constructor builds that part first, as the C++
 base-class constructor runs first, and then adjusts it.
 */
module Modules {
  import opened AccessPaths
  import opened ImportedModules
  import K = ModuleKinds

  /** A handle standing for a `Component *`, the group of units compiled together. */
  type ComponentId = nat

  /** A handle standing for a `ModuleLoader &`, the loader that produced a loaded module. */
  type LoaderId = nat

  /** A handle standing for a `Decl *`. */
  type DeclId = nat

  /** A library named as a link-time dependency. */
  datatype LinkLibrary = LinkLibrary(name: string)

  /** One element of `TranslationUnit::Imports`: the imported module and whether it is re-exported. */
  datatype ImportEntry = ImportEntry(imported: ImportedModule, reexported: bool)

  /** `TranslationUnit::TUKind`: the sort of file the unit was parsed from. */
  datatype TUKind = Library | Main | REPL | SIL

  /** What `LookupCachePimpl` holds: nothing yet, or, in a loaded module, the loader that owns it. */
  datatype LookupCacheSlot = NoLookupCache | ModuleLoaderRef(loader: LoaderId)

  /** The constructor's check: only the builtin module may lack a component. */
  predicate AcceptsComponent(kind: K.ModuleKind, comp: Option<ComponentId>)
  {
    comp.Some? || kind == K.BuiltinModule
  }

  datatype Option<T> = None | Some(value: T)

  /** `Module`: a unit of modularity, either the unit being compiled or an imported one. */
  class Module {
    const kind: K.ModuleKind
    var name: Identifier
    const comp: Option<ComponentId>
    var lookupCache: LookupCacheSlot
    /** Public; nothing here constrains how it changes, except that the builtin and loaded
        constructors set TypeChecked. */
    var stage: K.ASTStage

    /** The protected `Module` constructor: no cache yet, and parsing underway. */
    constructor (kind: K.ModuleKind, name: Identifier, comp: Option<ComponentId>)
      requires AcceptsComponent(kind, comp)
      ensures this.kind == kind && this.name == name && this.comp == comp
      ensures lookupCache == NoLookupCache && stage == K.Parsing
    {
      this.kind := kind;
      this.name := name;
      this.comp := comp;
      lookupCache := NoLookupCache;
      stage := K.Parsing;
    }

    /** `getComponent`: defined only when the module has a component, and then it is that component. */
    method GetComponent() returns (c: ComponentId)
      requires comp.Some?
      ensures comp == Some(c)
    {
      c := comp.value;
    }
  }

  /** `TranslationUnit`: the declarations and external references of one source file. */
  class TranslationUnit {
    const base: Module
    var tuKind: TUKind
    var imports: seq<ImportEntry>
    var linkLibraries: seq<LinkLibrary>
    /** The buffer this unit was imported from, or -1 when it is not an imported unit. */
    var importBufferID: int
    var hasBuiltinModuleAccess: bool
    var decls: seq<DeclId>
    var infixOperators: map<string, DeclId>
    var postfixOperators: map<string, DeclId>
    var prefixOperators: map<string, DeclId>

    /** The `Module` part is a translation unit, which always has a component. */
    predicate Valid()
    {
      base.kind == K.TranslationUnit && base.comp.Some?
    }

    /** On a valid translation unit, `getComponent` may always be called. */
    lemma ComponentAvailable()
      requires Valid()
      ensures base.comp.Some? && K.IsTranslationUnit(base.kind)
    {
    }

    /** A fresh unit, at stage Parsing, with every list empty and no import buffer. */
    constructor (name: Identifier, comp: Option<ComponentId>, tuKind: TUKind)
      requires AcceptsComponent(K.TranslationUnit, comp)
      ensures fresh(base) && Valid()
      ensures base.kind == K.TranslationUnit && base.name == name && base.comp == comp
      ensures base.stage == K.Parsing && base.lookupCache == NoLookupCache
      ensures this.tuKind == tuKind
      ensures imports == [] && linkLibraries == [] && importBufferID == -1
      ensures !hasBuiltinModuleAccess && decls == []
      ensures infixOperators == map[] && postfixOperators == map[] && prefixOperators == map[]
    {
      base := new Module(K.TranslationUnit, name, comp);
      this.tuKind := tuKind;
      imports := [];
      linkLibraries := [];
      importBufferID := -1;
      hasBuiltinModuleAccess := false;
      decls := [];
      infixOperators := map[];
      postfixOperators := map[];
      prefixOperators := map[];
    }

    /** `getImports`: readable once parsing has completed, or at any time in a SIL unit. */
    method GetImports() returns (r: seq<ImportEntry>)
      requires base.stage.AtLeast(K.Parsed) || tuKind == SIL
      ensures r == imports
    {
      r := imports;
    }

    /** `setImports`: unguarded; replaces the import list whatever it held. */
    method SetImports(im: seq<ImportEntry>)
      modifies this`imports
      ensures imports == im
    {
      imports := im;
    }

    /** Whether `setLinkLibraries` may still be called. */
    predicate CanSetLinkLibraries()
      reads this
    {
      linkLibraries == []
    }

    /** `setLinkLibraries`: allowed only while the list is empty; afterwards it is settable again
        exactly when the list given was empty. */
    method SetLinkLibraries(libs: seq<LinkLibrary>)
      requires CanSetLinkLibraries()
      modifies this`linkLibraries
      ensures linkLibraries == libs
      ensures CanSetLinkLibraries() <==> libs == []
    {
      linkLibraries := libs;
    }

    /** `getLinkLibraries` */
    method GetLinkLibraries() returns (r: seq<LinkLibrary>)
      ensures r == linkLibraries
    {
      r := linkLibraries;
    }

    /** Whether `setImportBufferID` may still be called. */
    predicate CanSetImportBufferID()
      reads this
    {
      importBufferID == -1
    }

    /** `setImportBufferID`: allowed only while no buffer is recorded; it records one for good. */
    method SetImportBufferID(bufID: nat)
      requires CanSetImportBufferID()
      modifies this`importBufferID
      ensures importBufferID == bufID
      ensures !CanSetImportBufferID()
    {
      importBufferID := bufID;
    }

    /** `getImportBufferID`: the recorded buffer, or -1 when there is none. */
    method GetImportBufferID() returns (id: int)
      ensures id == importBufferID
    {
      id := importBufferID;
    }
  }

  /** `BuiltinModule`: the compiler's implicitly generated declarations. */
  class BuiltinModule {
    const base: Module

    /** The `Module` part is the builtin module, which has no component. */
    predicate Valid()
    {
      base.kind == K.BuiltinModule && base.comp == None
    }

    /** The builtin module has no component and is well formed from the start. */
    constructor (name: Identifier)
      ensures fresh(base) && Valid()
      ensures base.kind == K.BuiltinModule && base.name == name && base.comp == None
      ensures base.stage == K.TypeChecked && base.lookupCache == NoLookupCache
    {
      var m := new Module(K.BuiltinModule, name, None);
      m.stage := K.TypeChecked;
      base := m;
    }
  }

  /** `LoadedModule`: a serialized Swift module or a Clang module imported into Swift. The kind is
      the constructor's argument and is not checked here. */
  class LoadedModule {
    const base: Module
    const debugModuleName: string

    /** The cache slot of the `Module` part records the loader that produced the module. */
    predicate Valid()
      reads base
    {
      base.lookupCache.ModuleLoaderRef?
    }

    /** A loaded module is well formed from the start and remembers the loader that produced it. */
    constructor (kind: K.ModuleKind, name: Identifier, debugModuleName: string,
                 comp: Option<ComponentId>, owner: LoaderId)
      requires AcceptsComponent(kind, comp)
      ensures fresh(base) && Valid()
      ensures base.kind == kind && base.name == name && base.comp == comp
      ensures base.stage == K.TypeChecked && base.lookupCache == ModuleLoaderRef(owner)
      ensures this.debugModuleName == debugModuleName
    {
      var m := new Module(kind, name, comp);
      m.stage := K.TypeChecked;
      m.lookupCache := ModuleLoaderRef(owner);
      base := m;
      this.debugModuleName := debugModuleName;
    }

    /** `getOwner`: the loader recorded by the constructor. */
    method GetOwner() returns (owner: LoaderId)
      requires Valid()
      ensures base.lookupCache == ModuleLoaderRef(owner)
    {
      owner := base.lookupCache.loader;
    }
  }
}
