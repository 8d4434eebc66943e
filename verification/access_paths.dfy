/**
 Access paths: the dotted scope qualifier attached to an import
 (`Module::AccessPathTy`, a list of identifier / source-location pairs).
 Source locations only serve diagnostics; comparisons look at the
 identifiers alone.
 */
module AccessPaths {

  /** An interned identifier; two identifiers are the same when their text is. */
  type Identifier = string

  /** A position in a source buffer, kept for diagnostics only. */
  datatype SourceLoc = SourceLoc(buffer: nat, offset: nat)

  datatype AccessPathElement = AccessPathElement(name: Identifier, loc: SourceLoc)

  type AccessPath = seq<AccessPathElement>

  /** The chain of identifiers of a path, with the source locations dropped. */
  function Identifiers(path: AccessPath): (ids: seq<Identifier>)
    ensures |ids| == |path|
    ensures forall i :: 0 <= i < |path| ==> ids[i] == path[i].name
  {
    if path == [] then [] else [path[0].name] + Identifiers(path[1..])
  }

  /** `Module::isSameAccessPath`: true exactly when both paths name the same chain of identifiers. */
  function IsSameAccessPath(lhs: AccessPath, rhs: AccessPath): (same: bool)
    ensures same <==> Identifiers(lhs) == Identifiers(rhs)
  {
    if |lhs| != |rhs| then false
    else if lhs == [] then true
    else lhs[0].name == rhs[0].name && IsSameAccessPath(lhs[1..], rhs[1..])
  }

  /** Element-wise reading of `IsSameAccessPath`: equal lengths and equal names at every position,
      whatever the source locations are. */
  lemma IsSameAccessPathElementwise(lhs: AccessPath, rhs: AccessPath)
    ensures IsSameAccessPath(lhs, rhs) <==>
            |lhs| == |rhs| && forall i :: 0 <= i < |lhs| ==> lhs[i].name == rhs[i].name
  {
  }

  /** Paths of different lengths never compare equal. */
  lemma DifferentLengthsDiffer(lhs: AccessPath, rhs: AccessPath)
    requires |lhs| != |rhs|
    ensures !IsSameAccessPath(lhs, rhs)
  {
  }

  /** The same path with every source location replaced by `locs`. */
  function Relocated(path: AccessPath, locs: seq<SourceLoc>): (moved: AccessPath)
    requires |locs| == |path|
    ensures Identifiers(moved) == Identifiers(path)
    ensures forall i :: 0 <= i < |moved| ==> moved[i].loc == locs[i]
  {
    seq(|path|, i requires 0 <= i < |path| => AccessPathElement(path[i].name, locs[i]))
  }

  /** Moving a path to other source locations does not change what it compares equal to. */
  lemma LocationsAreIgnored(path: AccessPath, locs: seq<SourceLoc>, other: AccessPath)
    requires |locs| == |path|
    ensures IsSameAccessPath(path, Relocated(path, locs))
    ensures IsSameAccessPath(Relocated(path, locs), other) <==> IsSameAccessPath(path, other)
  {
  }

  /** `IsSameAccessPath` is an equivalence relation on paths. */
  lemma IsSameAccessPathIsEquivalence(a: AccessPath, b: AccessPath, c: AccessPath)
    ensures IsSameAccessPath(a, a)
    ensures IsSameAccessPath(a, b) ==> IsSameAccessPath(b, a)
    ensures IsSameAccessPath(a, b) && IsSameAccessPath(b, c) ==> IsSameAccessPath(a, c)
  {
  }
}
