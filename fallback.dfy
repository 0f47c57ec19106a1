/** The bounded, insertion-ordered, duplicate-free list of family identifiers
    that the index stores per script, per CJK variant and per generic
    category. Its implementation file (fallback.rs) is not part of this
    model: the capacity and the behaviour of `Push` below are the assumed
    contract the index relies on. */
module Fallback {
  import opened FontTypes

  /** Assumed maximum number of families in one fallback list. */
  const Capacity: nat := 16

  predicate NoDuplicates(s: seq<FamilyId>)
  {
    forall i, j :: 0 <= i < j < |s| ==> s[i] != s[j]
  }

  datatype Fallbacks = Fallbacks(ids: seq<FamilyId>) {

    predicate Valid()
    {
      |ids| <= Capacity && NoDuplicates(ids)
    }

    /** The identifiers, in insertion order (`Fallbacks::get`). */
    function Get(): (r: seq<FamilyId>)
      ensures Valid() ==> |r| <= Capacity && NoDuplicates(r)
    {
      ids
    }

    /** Appends `id` unless the list is full or already holds `id`; the
        flag says whether it was appended. A refused push leaves the list
        as it was. */
    function Push(id: FamilyId): (r: (bool, Fallbacks))
      ensures r.0 <==> |ids| < Capacity && id !in ids
      ensures r.0 ==> r.1.ids == ids + [id]
      ensures !r.0 ==> r.1 == this
      ensures Valid() ==> r.1.Valid()
    {
      if |ids| < Capacity && id !in ids then (true, Fallbacks(ids + [id])) else (false, this)
    }
  }

  /** `Fallbacks::new()`. */
  const Empty: Fallbacks := Fallbacks([])
}
