/**
 The tag that tells module variants apart (`ModuleKind`), the `classof`
 tests built on it, and the compilation stage (`ASTStage`) a module is at.
 */
module ModuleKinds {

  datatype ModuleKind = TranslationUnit | BuiltinModule | SerializedModule | ClangModule

  /** The C++ class a module object is built as. */
  datatype ModuleClass = TranslationUnitClass | BuiltinModuleClass | LoadedModuleClass

  /** The class each kind is meant for: the translation-unit and builtin constructors pass their
      own kind, and loaded modules are documented as serialized Swift modules or Clang modules
      (the loaded-module constructor takes the kind as an argument and does not check it). */
  function ClassOf(kind: ModuleKind): ModuleClass
  {
    match kind
    case TranslationUnit => TranslationUnitClass
    case BuiltinModule => BuiltinModuleClass
    case SerializedModule => LoadedModuleClass
    case ClangModule => LoadedModuleClass
  }

  /** `TranslationUnit::classof(const Module *)` */
  predicate IsTranslationUnit(kind: ModuleKind)
    ensures IsTranslationUnit(kind) <==> ClassOf(kind) == TranslationUnitClass
  {
    kind == TranslationUnit
  }

  /** `BuiltinModule::classof(const Module *)` */
  predicate IsBuiltinModule(kind: ModuleKind)
    ensures IsBuiltinModule(kind) <==> ClassOf(kind) == BuiltinModuleClass
  {
    kind == BuiltinModule
  }

  /** `LoadedModule::classof(const Module *)`: serialized Swift modules and Clang modules. */
  predicate IsLoadedModule(kind: ModuleKind)
    ensures IsLoadedModule(kind) <==> ClassOf(kind) == LoadedModuleClass
  {
    kind == SerializedModule || kind == ClangModule
  }

  /** Every kind passes exactly one of the three `classof` tests. */
  lemma ClassofPartitionsKinds(kind: ModuleKind)
    ensures IsTranslationUnit(kind) || IsBuiltinModule(kind) || IsLoadedModule(kind)
    ensures !(IsTranslationUnit(kind) && IsBuiltinModule(kind))
    ensures !(IsTranslationUnit(kind) && IsLoadedModule(kind))
    ensures !(IsBuiltinModule(kind) && IsLoadedModule(kind))
  {
  }

  /** What `DeclContext::getContextKind` reports: a module, or some other kind of context. */
  datatype DeclContextKind = ModuleDeclContext | OtherDeclContext

  /** A declaration context: either a module of some kind or some other (non-module) context. */
  datatype DeclContext = ModuleContext(kind: ModuleKind) | OtherContext
  {
    function ContextKind(): DeclContextKind
    {
      if ModuleContext? then ModuleDeclContext else OtherDeclContext
    }
  }

  /** `Module::classof(const DeclContext *)`: a context passes exactly when it is a module. */
  predicate IsModule(dc: DeclContext)
    ensures IsModule(dc) <==> dc.ModuleContext?
  {
    dc.ContextKind() == ModuleDeclContext
  }

  /** `TranslationUnit::classof(const DeclContext *)` */
  predicate IsTranslationUnitContext(dc: DeclContext)
    ensures IsTranslationUnitContext(dc) <==> dc.ModuleContext? && ClassOf(dc.kind) == TranslationUnitClass
  {
    IsModule(dc) && IsTranslationUnit(dc.kind)
  }

  /** `BuiltinModule::classof(const DeclContext *)` */
  predicate IsBuiltinModuleContext(dc: DeclContext)
    ensures IsBuiltinModuleContext(dc) <==> dc.ModuleContext? && ClassOf(dc.kind) == BuiltinModuleClass
  {
    IsModule(dc) && IsBuiltinModule(dc.kind)
  }

  /** `LoadedModule::classof(const DeclContext *)` */
  predicate IsLoadedModuleContext(dc: DeclContext)
    ensures IsLoadedModuleContext(dc) <==> dc.ModuleContext? && ClassOf(dc.kind) == LoadedModuleClass
  {
    IsModule(dc) && IsLoadedModule(dc.kind)
  }

  /** `ASTStage`: which phases of parsing and semantic analysis are complete. */
  datatype ASTStage = Parsing | Parsed | NameBound | TypeChecked
  {
    /** Position in the enum's declaration order. */
    function Rank(): (r: nat)
      ensures r < |Stages| && Stages[r] == this
    {
      match this
      case Parsing => 0
      case Parsed => 1
      case NameBound => 2
      case TypeChecked => 3
    }

    /** `this >= other`: `other` is declared no later than `this`. */
    predicate AtLeast(other: ASTStage)
      ensures AtLeast(other) <==> other in Stages[..Rank() + 1]
    {
      Rank() >= other.Rank()
    }
  }

  /** The stages in the order the enum declares them. */
  const Stages: seq<ASTStage> := [Parsing, Parsed, NameBound, TypeChecked]

  /** The stages are totally ordered as declared: Parsing, Parsed, NameBound, TypeChecked.
      In particular a unit has finished parsing exactly when it is past Parsing. */
  lemma StagesAreTotallyOrdered(s: ASTStage, t: ASTStage)
    ensures Parsing.Rank() < Parsed.Rank() < NameBound.Rank() < TypeChecked.Rank()
    ensures s.AtLeast(t) || t.AtLeast(s)
    ensures s.AtLeast(t) && t.AtLeast(s) ==> s == t
    ensures s.AtLeast(Parsing) && TypeChecked.AtLeast(s)
    ensures s.AtLeast(Parsed) <==> s != Parsing
  {
  }
}
