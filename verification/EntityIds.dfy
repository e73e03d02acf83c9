/** The layout of entity ids: sign, remote bit, 52 bits of unique id, 8 of kind and 2 of category. */
module EntityIds {
  import opened Common

  const UNIQUE_MASK: bv64 := 0x000f_ffff_ffff_ffff
  const KIND_MASK: bv64 := 0xff
  const CATEGORY_MASK: bv64 := 0x3
  const REMOTE_BIT: bv64 := 0x4000_0000_0000_0000
  const VALUE_MASK: bv64 := 0x7fff_ffff_ffff_ffff
  const SIGN_BIT: bv64 := 0x8000_0000_0000_0000

  datatype IdError = InvalidEntityId | InvalidCategory | InvalidKind

  /** Which kinds are registered as remote capable. */
  type Remote = bv64 -> bool

  datatype Meta = Meta(unique: bv64, full: bv64, category: bv64, kind: bv64, remoteCapable: bool)

  function Pack(unique: bv64, category: bv64, kind: bv64, remote: bool): bv64 {
    ((unique & UNIQUE_MASK) << 10) | ((kind & KIND_MASK) << 2) | (category & CATEGORY_MASK) | (if remote then REMOTE_BIT else 0)
  }

  function KindOf(id: bv64): bv64 { (id >> 2) & KIND_MASK }

  function RemoteOf(id: bv64): bool { (id >> 62) & 1 != 0 }

  function Build(unique: bv64, category: bv64, kind: bv64, remote: Remote): Result<bv64, IdError> {
    if unique == 0 || unique > UNIQUE_MASK then Err(InvalidEntityId)
    else if category > CATEGORY_MASK then Err(InvalidCategory)
    else if category == 0 then Err(InvalidEntityId)
    else if kind > KIND_MASK then Err(InvalidKind)
    else if kind == 0 then Err(InvalidEntityId)
    else Ok(Pack(unique, category, kind, remote(kind)))
  }

  function Resolve(id: bv64, remote: Remote): Meta {
    var v := id & VALUE_MASK;
    var kind := KindOf(id);
    var capable := kind != 0 && remote(kind);
    Meta((v >> 10) & UNIQUE_MASK, if capable then id | REMOTE_BIT else id, v & CATEGORY_MASK, kind, capable || RemoteOf(id))
  }

  lemma PackedKind(unique: bv64, category: bv64, kind: bv64, remote: bool)
    requires kind <= KIND_MASK
    ensures KindOf(Pack(unique, category, kind, remote)) == kind
  {}

  lemma PackedCategory(unique: bv64, category: bv64, kind: bv64, remote: bool)
    requires category <= CATEGORY_MASK
    ensures Pack(unique, category, kind, remote) & VALUE_MASK & CATEGORY_MASK == category
  {}

  lemma PackedUnique(unique: bv64, category: bv64, kind: bv64, remote: bool)
    requires unique <= UNIQUE_MASK
    ensures ((Pack(unique, category, kind, remote) & VALUE_MASK) >> 10) & UNIQUE_MASK == unique
  {}

  lemma PackedRemote(unique: bv64, category: bv64, kind: bv64, remote: bool)
    ensures RemoteOf(Pack(unique, category, kind, remote)) == remote
    ensures remote ==> Pack(unique, category, kind, remote) | REMOTE_BIT == Pack(unique, category, kind, remote)
    ensures Pack(unique, category, kind, remote) & SIGN_BIT == 0
  {}

  lemma PackedNonZero(unique: bv64, category: bv64, kind: bv64, remote: bool)
    requires category != 0 && category <= CATEGORY_MASK
    ensures Pack(unique, category, kind, remote) != 0
  {}

  /** The parts of an id decide how it resolves. */
  ghost predicate HasParts(id: bv64, unique: bv64, category: bv64, kind: bv64, capable: bool) {
    && ((id & VALUE_MASK) >> 10) & UNIQUE_MASK == unique && id & VALUE_MASK & CATEGORY_MASK == category && KindOf(id) == kind
    && RemoteOf(id) == capable && (capable ==> id | REMOTE_BIT == id) && id & SIGN_BIT == 0 && id != 0
  }

  lemma {:induction false} PackHasParts(unique: bv64, category: bv64, kind: bv64, capable: bool)
    requires unique <= UNIQUE_MASK && category != 0 && category <= CATEGORY_MASK && kind <= KIND_MASK
    ensures HasParts(Pack(unique, category, kind, capable), unique, category, kind, capable)
  {
    PackedKind(unique, category, kind, capable);
    PackedCategory(unique, category, kind, capable);
    PackedUnique(unique, category, kind, capable);
    PackedRemote(unique, category, kind, capable);
    PackedNonZero(unique, category, kind, capable);
  }

  lemma {:induction false} PartsResolve(id: bv64, unique: bv64, category: bv64, kind: bv64, capable: bool, remote: Remote)
    requires HasParts(id, unique, category, kind, capable) && kind != 0 && capable == remote(kind)
    ensures Resolve(id, remote) == Meta(unique, id, category, kind, capable)
  {}

  /** An id can be built from every part in range; resolving it gives back all it was built from, and it is positive. */
  lemma {:induction false} BuildResolves(unique: bv64, category: bv64, kind: bv64, remote: Remote)
    ensures Build(unique, category, kind, remote).Ok? <==>
              0 < unique <= UNIQUE_MASK && 0 < category <= CATEGORY_MASK && 0 < kind <= KIND_MASK
    ensures Build(unique, category, kind, remote).Ok? ==>
              var id := Build(unique, category, kind, remote).value;
              && Resolve(id, remote) == Meta(unique, id, category, kind, remote(kind))
              && id != 0 && id & SIGN_BIT == 0
  {
    if Build(unique, category, kind, remote).Ok? {
      var id := Build(unique, category, kind, remote).value;
      PackHasParts(unique, category, kind, remote(kind));
      PartsResolve(id, unique, category, kind, remote(kind), remote);
    }
  }

  /** Different identities get different ids. */
  lemma {:induction false} BuildIsInjective(u1: bv64, c1: bv64, k1: bv64, u2: bv64, c2: bv64, k2: bv64, remote: Remote)
    requires Build(u1, c1, k1, remote).Ok? && Build(u1, c1, k1, remote) == Build(u2, c2, k2, remote)
    ensures u1 == u2 && c1 == c2 && k1 == k2
  {
    BuildResolves(u1, c1, k1, remote);
    BuildResolves(u2, c2, k2, remote);
  }
}
