/**
 The `NameLookupOptions` bit flags that customise qualified and unqualified
 name lookup, and the preset combinations.
 */
module LookupOptions {

  /** An `unsigned` options word. */
  type Options = bv32

  const NL_VisitSupertypes: Options := 0x01
  const NL_ProtocolMembers: Options := 0x02
  const NL_RemoveNonVisible: Options := 0x04
  const NL_RemoveOverridden: Options := 0x08
  const NL_DynamicLookup: Options := 0x10

  const NL_QualifiedDefault: Options := NL_VisitSupertypes | NL_RemoveNonVisible | NL_RemoveOverridden
  const NL_UnqualifiedDefault: Options := NL_VisitSupertypes | NL_RemoveNonVisible | NL_RemoveOverridden
  const NL_Constructor: Options := NL_RemoveNonVisible

  /** The individual lookup options. */
  datatype LookupOption =
    | VisitSupertypes
    | ProtocolMembers
    | RemoveNonVisible
    | RemoveOverridden
    | DynamicLookup

  /** The flag each option is encoded by. */
  function Bit(option: LookupOption): Options
  {
    match option
    case VisitSupertypes => NL_VisitSupertypes
    case ProtocolMembers => NL_ProtocolMembers
    case RemoveNonVisible => NL_RemoveNonVisible
    case RemoveOverridden => NL_RemoveOverridden
    case DynamicLookup => NL_DynamicLookup
  }

  /** Whether an options word asks for `option`. */
  predicate Has(options: Options, option: LookupOption)
  {
    options & Bit(option) != 0
  }

  /** Every option is a single bit, and distinct options use disjoint bits. */
  lemma FlagsAreDistinctSingleBits(o: LookupOption, p: LookupOption)
    ensures Bit(o) != 0 && Bit(o) & (Bit(o) - 1) == 0
    ensures o != p ==> Bit(o) & Bit(p) == 0
  {
  }

  /** Testing a single flag recovers exactly that option. */
  lemma BitIdentifiesOption(o: LookupOption, p: LookupOption)
    ensures Has(Bit(o), p) <==> o == p
  {
  }

  /** Qualified and unqualified lookup share one default: visit supertypes, drop non-visible and
      overridden declarations, and neither include protocol members nor look up dynamically. */
  lemma DefaultOptions(o: LookupOption)
    ensures NL_QualifiedDefault == NL_UnqualifiedDefault == 0x0D
    ensures Has(NL_QualifiedDefault, o) <==> o in {VisitSupertypes, RemoveNonVisible, RemoveOverridden}
    ensures !Has(NL_QualifiedDefault, ProtocolMembers) && !Has(NL_QualifiedDefault, DynamicLookup)
  {
  }

  /** Constructor lookup only drops non-visible declarations. */
  lemma ConstructorOptions(o: LookupOption)
    ensures NL_Constructor == NL_RemoveNonVisible
    ensures Has(NL_Constructor, o) <==> o == RemoveNonVisible
  {
  }
}
