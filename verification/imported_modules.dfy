/**
 `Module::ImportedModule` (an access path paired with the imported module)
 and the `DenseMapInfo` specialisation that lets it key a hash map.
 */
module ImportedModules {
  import opened AccessPaths

  /** A handle standing for a `Module *`; modules are compared by identity. */
  type ModuleId = nat

  newtype u32 = x: int | 0 <= x < 0x1_0000_0000

  datatype ImportedModule = ImportedModule(path: AccessPath, target: ModuleId)

  /** The hash of a (path length, module) pair. The mixing function itself belongs to the
      hashing library, so it is a parameter here. */
  type PairHash = (nat, ModuleId) -> u32

  /** `DenseMapInfo<ImportedModule>::isEqual`: the same module reached under the same
      chain of identifiers. */
  function IsEqual(lhs: ImportedModule, rhs: ImportedModule): (equal: bool)
    ensures equal <==> lhs.target == rhs.target && Identifiers(lhs.path) == Identifiers(rhs.path)
  {
    lhs.target == rhs.target && IsSameAccessPath(lhs.path, rhs.path)
  }

  /** `DenseMapInfo<ImportedModule>::getHashValue`: hashes only the length of the identifier chain
      and the module; neither the identifiers nor their locations enter. */
  function GetHashValue(key: ImportedModule, pairHash: PairHash): (h: u32)
    ensures h == pairHash(|Identifiers(key.path)|, key.target)
  {
    pairHash(|key.path|, key.target)
  }

  /** The hash-map contract: keys that `IsEqual` identifies hash alike, whatever the mixing function. */
  lemma EqualKeysHashEqually(a: ImportedModule, b: ImportedModule, pairHash: PairHash)
    requires IsEqual(a, b)
    ensures GetHashValue(a, pairHash) == GetHashValue(b, pairHash)
  {
  }

  /** The hash never looks at identifiers or locations: keys that agree on length and module
      hash alike even when `IsEqual` tells them apart. */
  lemma HashIgnoresIdentifiers(a: ImportedModule, b: ImportedModule, pairHash: PairHash)
    requires |a.path| == |b.path| && a.target == b.target
    ensures GetHashValue(a, pairHash) == GetHashValue(b, pairHash)
  {
  }

  /** `IsEqual` is an equivalence relation, as a hash-map key comparison must be. */
  lemma IsEqualIsEquivalence(a: ImportedModule, b: ImportedModule, c: ImportedModule)
    ensures IsEqual(a, a)
    ensures IsEqual(a, b) ==> IsEqual(b, a)
    ensures IsEqual(a, b) && IsEqual(b, c) ==> IsEqual(a, c)
  {
  }

  /** Two keys that differ only in source locations are equal keys. */
  lemma RelocatedKeyIsEqual(key: ImportedModule, locs: seq<SourceLoc>)
    requires |locs| == |key.path|
    ensures IsEqual(key, ImportedModule(Relocated(key.path, locs), key.target))
  {
  }
}
