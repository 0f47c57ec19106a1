/** The font index: the entity store shared by both variants, the static
    index with its fallback tables and lookups, the dynamic index's state,
    and the read-only entry views lookups return. */
module FontIndex {
  import opened FontTypes
  import Fallback
  import opened Lookup
  import opened Lowercase
  import opened SystemTables

  /** Storage shared by both index variants: the lowercase-name map and the
      dense face and source vectors. */
  datatype BaseIndex = BaseIndex(familyMap: NameMap, fonts: seq<FontData>, sources: seq<SourceData>)

  const EmptyBase: BaseIndex := BaseIndex(map[], [], [])

  // -----------------------------------------------------------------------
  // Entry views. Each carries the store it was read from.

  /** A family as seen through the index. */
  datatype FamilyEntry = FamilyEntry(index: BaseIndex, data: FamilyData) {

    function Id(): FamilyId
    {
      data.id
    }

    function Name(): string
    {
      data.name
    }

    /** The family's faces that the store holds, in the family's order. */
    function Fonts(): (r: seq<FontEntry>)
      ensures |r| <= |data.fonts|
      ensures forall k :: 0 <= k < |r| ==> r[k].index == index && r[k].family == data && r[k].data in index.fonts
      ensures (forall k :: 0 <= k < |data.fonts| ==> data.fonts[k] < |index.fonts|) ==>
        |r| == |data.fonts| && forall k :: 0 <= k < |r| ==> r[k].data == index.fonts[data.fonts[k]]
    {
      FontEntries(index, data, data.fonts)
    }
  }

  /** The filter-map behind `FamilyEntry::fonts`: identifiers outside the
      store are skipped. */
  function FontEntries(index: BaseIndex, family: FamilyData, ids: seq<FontId>): (r: seq<FontEntry>)
    ensures |r| <= |ids|
    ensures forall k :: 0 <= k < |r| ==> r[k].index == index && r[k].family == family && r[k].data in index.fonts
    ensures (forall k :: 0 <= k < |ids| ==> ids[k] < |index.fonts|) ==>
      |r| == |ids| && forall k :: 0 <= k < |r| ==> r[k].data == index.fonts[ids[k]]
  {
    if ids == [] then []
    else
      (if ids[0] < |index.fonts| then [FontEntry(index, family, index.fonts[ids[0]])] else [])
      + FontEntries(index, family, ids[1..])
  }

  /** The filter-map works identifier by identifier: mapping a concatenation
      concatenates the results, so the faces keep the family's order. */
  lemma {:induction false} FontEntriesAppend(index: BaseIndex, family: FamilyData, a: seq<FontId>, b: seq<FontId>)
    ensures FontEntries(index, family, a + b) == FontEntries(index, family, a) + FontEntries(index, family, b)
  {
    if a == [] {
      assert a + b == b;
    } else {
      assert (a + b)[1..] == a[1..] + b;
      FontEntriesAppend(index, family, a[1..], b);
    }
  }

  /** Every yielded face is the face of some listed identifier in range. */
  lemma {:induction false} FontEntriesFromIds(index: BaseIndex, family: FamilyData, ids: seq<FontId>, j: nat)
    requires j < |FontEntries(index, family, ids)|
    ensures exists k :: 0 <= k < |ids| && ids[k] < |index.fonts| && FontEntries(index, family, ids)[j].data == index.fonts[ids[k]]
  {
    var head := if ids[0] < |index.fonts| then [FontEntry(index, family, index.fonts[ids[0]])] else [];
    if j >= |head| {
      FontEntriesFromIds(index, family, ids[1..], j - |head|);
      var k :| 0 <= k < |ids[1..]| && ids[1..][k] < |index.fonts|
        && FontEntries(index, family, ids[1..])[j - |head|].data == index.fonts[ids[1..][k]];
      assert ids[k + 1] == ids[1..][k];
    }
  }

  /** Every listed identifier in range has its face yielded: only
      identifiers outside the store are skipped. */
  lemma {:induction false} FontEntriesKeepInRange(index: BaseIndex, family: FamilyData, ids: seq<FontId>, k: nat)
    requires k < |ids| && ids[k] < |index.fonts|
    ensures exists j :: 0 <= j < |FontEntries(index, family, ids)| && FontEntries(index, family, ids)[j].data == index.fonts[ids[k]]
  {
    var head := if ids[0] < |index.fonts| then [FontEntry(index, family, index.fonts[ids[0]])] else [];
    if k == 0 {
      assert FontEntries(index, family, ids)[0].data == index.fonts[ids[0]];
    } else {
      FontEntriesKeepInRange(index, family, ids[1..], k - 1);
      var j :| 0 <= j < |FontEntries(index, family, ids[1..])|
        && FontEntries(index, family, ids[1..])[j].data == index.fonts[ids[1..][k - 1]];
      assert FontEntries(index, family, ids)[|head| + j] == FontEntries(index, family, ids[1..])[j];
    }
  }

  /** A face as seen through the index, with the family it was reached through. */
  datatype FontEntry = FontEntry(index: BaseIndex, family: FamilyData, data: FontData) {

    function Id(): FontId
    {
      data.id
    }

    /** The face's source; the source indexes the store without a check. */
    function Source(): (r: SourceEntry)
      requires data.source < |index.sources|
      ensures r.data in index.sources && r.index == index
      ensures (forall i :: 0 <= i < |index.sources| ==> index.sources[i].id == i) ==> r.Id() == data.source
    {
      SourceEntry(index, index.sources[data.source])
    }

    /** Position of the face inside a multi-face source. */
    function Index(): u32
    {
      data.index
    }

    /** Offset of the face's table directory in the source. */
    function Offset(): u32
    {
      data.offset
    }

    function Family(): FamilyEntry
    {
      FamilyEntry(index, family)
    }

    function FamilyName(): string
    {
      family.name
    }

    function GetAttributes(): Attributes
    {
      data.attributes
    }

    function CacheKey(): CacheKey
    {
      data.key
    }

    /** The triple attribute matching compares: face, inherent and requested attributes. */
    function Selector(requested: Attributes): (FontId, Attributes, Attributes)
    {
      (data.id, data.attributes, requested)
    }
  }

  /** A source as seen through the index. */
  datatype SourceEntry = SourceEntry(index: BaseIndex, data: SourceData) {

    function Id(): SourceId
    {
      data.id
    }

    /** The file path of a file-backed source; nothing for an in-memory one. */
    function Path(): (r: Option<string>)
      ensures r.Some? <==> data.kind.File?
      ensures r.Some? ==> r.value == data.kind.path
    {
      match data.kind
      case Memory => None
      case File(path) => Some(path)
    }
  }

  // -----------------------------------------------------------------------
  // Static index

  /** The index built once from the system's fonts: families, the sparse
      per-script fallback map, and the dense CJK and generic tables. */
  class StaticIndex {
    var base: BaseIndex
    var families: seq<FamilyData>
    var scriptMap: ScriptMap
    const cjk: array<Fallback.Fallbacks>
    const generic: array<Option<FamilyId>>

    /** Table sizes, valid fallback lists, and a sparse script map. */
    ghost predicate Valid()
      reads this, cjk
    {
      && cjk.Length == CjkSlots
      && generic.Length == GenericSlots
      && (forall i :: 0 <= i < cjk.Length ==> cjk[i].Valid())
      && Sparse(scriptMap)
    }

    /** The store's own invariants: identifiers are positions, faces point
        at families and sources that exist, families list their own faces,
        and the name map holds lowercased names of existing families. */
    ghost predicate WellFormed()
      reads this
    {
      && (forall i :: 0 <= i < |families| ==> families[i].id == i)
      && (forall f :: 0 <= f < |base.fonts| ==>
            base.fonts[f].id == f && base.fonts[f].family < |families| && base.fonts[f].source < |base.sources|)
      && (forall s :: 0 <= s < |base.sources| ==> base.sources[s].id == s)
      && (forall i, k :: 0 <= i < |families| && 0 <= k < |families[i].fonts| ==>
            families[i].fonts[k] < |base.fonts| && base.fonts[families[i].fonts[k]].family == i)
      && (forall n :: n in base.familyMap ==>
            base.familyMap[n] < |families| && Lower(families[base.familyMap[n]].name) == n)
    }

    /** `StaticIndex::default()`: everything empty, every CJK slot an empty
        list, every generic slot unset. */
    constructor ()
      ensures Valid()
      ensures base == EmptyBase && families == [] && scriptMap == map[]
      ensures fresh(cjk) && fresh(generic)
      ensures forall i :: 0 <= i < cjk.Length ==> cjk[i] == Fallback.Empty
      ensures forall i :: 0 <= i < generic.Length ==> generic[i] == None
    {
      base := EmptyBase;
      families := [];
      scriptMap := map[];
      cjk := new Fallback.Fallbacks[CjkSlots](_ => Fallback.Empty);
      generic := new Option<FamilyId>[GenericSlots](_ => None);
    }

    /** Fills the CJK table and the script map from the platform's candidate
        lists. The unspecified CJK variant copies the Traditional Chinese list. */
    method SetupDefaultFallbacks(os: Os)
      requires Valid()
      modifies this`scriptMap, cjk
      ensures Valid()
      ensures forall v: Cjk :: v != Unspecified ==>
        cjk[v.Index()] == FallbacksFrom(base.familyMap, CjkCandidates(os, v))
      ensures cjk[Unspecified.Index()] == cjk[Traditional.Index()]
      ensures scriptMap == ApplyScripts(base.familyMap, old(scriptMap), ScriptPriorities(os))
    {
      SetupCjk(v => CjkCandidates(os, v));
      MapScripts(ScriptPriorities(os));
    }

    /** The CJK half of the setup, in source order: Simplified, Traditional,
        the copy into the unspecified slot, Japanese, Korean. */
    method SetupCjk(candidates: Cjk -> seq<string>)
      requires Valid()
      modifies cjk
      ensures Valid()
      ensures forall v: Cjk :: v != Unspecified ==> cjk[v.Index()] == FallbacksFrom(base.familyMap, candidates(v))
      ensures cjk[Unspecified.Index()] == cjk[Traditional.Index()]
    {
      SetCjk(Simplified, candidates(Simplified));
      SetCjk(Traditional, candidates(Traditional));
      cjk[Unspecified.Index()] := cjk[Traditional.Index()];
      SetCjk(Japanese, candidates(Japanese));
      SetCjk(Korean, candidates(Korean));
    }

    /** One `find_fallbacks` probe stored in the slot of `v`; no other slot changes. */
    method SetCjk(v: Cjk, names: seq<string>)
      requires Valid()
      modifies cjk
      ensures Valid()
      ensures cjk[v.Index()] == FallbacksFrom(base.familyMap, names)
      ensures forall i :: 0 <= i < cjk.Length && i != v.Index() ==> cjk[i] == old(cjk[i])
    {
      var fallbacks := FindFallbacks(names);
      cjk[v.Index()] := fallbacks;
    }

    /** The platform's `map_script` calls, made in table order. */
    method MapScripts(table: seq<ScriptPriority>)
      requires Valid()
      modifies this`scriptMap
      ensures Valid()
      ensures scriptMap == ApplyScripts(base.familyMap, old(scriptMap), table)
    {
      for i := 0 to |table|
        invariant Valid()
        invariant scriptMap == ApplyScripts(base.familyMap, old(scriptMap), table[..i])
      {
        MapScript(table[i].script, table[i].names);
        assert table[..i + 1][..i] == table[..i];
      }
      assert table[..|table|] == table;
    }

    /** Sets the seven generic slots every platform names to the first
        installed candidate; the other slots are left as they were. */
    method SetupDefaultGeneric(os: Os)
      requires Valid()
      modifies generic
      ensures Valid()
      ensures forall g: GenericFamily :: IsDefaultGenericSlot(g) ==>
        generic[g.Index()] == FirstHit(base.familyMap, GenericCandidates(os, g))
      ensures forall g: GenericFamily :: !IsDefaultGenericSlot(g) ==> generic[g.Index()] == old(generic[g.Index()])
    {
      SetupGeneric(g => GenericCandidates(os, g));
    }

    /** One `find_family` probe per default generic slot, in the order of
        `DefaultGenericSlots`, each stored in its slot. */
    method SetupGeneric(candidates: GenericFamily -> seq<string>)
      requires generic.Length == GenericSlots
      modifies generic
      ensures forall g: GenericFamily :: IsDefaultGenericSlot(g) ==>
        generic[g.Index()] == FirstHit(base.familyMap, candidates(g))
      ensures forall g: GenericFamily :: !IsDefaultGenericSlot(g) ==> generic[g.Index()] == old(generic[g.Index()])
    {
      for i := 0 to |DefaultGenericSlots|
        invariant forall k :: 0 <= k < i ==>
          generic[DefaultGenericSlots[k].Index()] == FirstHit(base.familyMap, candidates(DefaultGenericSlots[k]))
        invariant forall g: GenericFamily :: g !in DefaultGenericSlots[..i] ==> generic[g.Index()] == old(generic[g.Index()])
      {
        var g := DefaultGenericSlots[i];
        var id := FindFamily(candidates(g));
        generic[g.Index()] := id;
        assert DefaultGenericSlots[..i + 1] == DefaultGenericSlots[..i] + [g];
      }
      assert DefaultGenericSlots[..|DefaultGenericSlots|] == DefaultGenericSlots;
    }

    /** The family of the emoji slot of the generic table. */
    function EmojiFamily(): (r: Option<FamilyId>)
      requires Valid()
      reads this, cjk, generic
      ensures r == generic[Emoji.Index()]
    {
      generic[Emoji.Index()]
    }

    /** The ordered fallback families for a script. Han is served from the
        CJK table by variant; any other script from the script map, or not
        at all when it is unmapped. */
    function Fallbacks(script: Script, c: Cjk): (r: seq<FamilyId>)
      requires Valid()
      reads this, cjk
      ensures |r| <= Fallback.Capacity && Fallback.NoDuplicates(r)
      ensures script != Han ==> (r != [] <==> script in scriptMap)
    {
      if script == Han then cjk[c.Index()].Get()
      else if script in scriptMap then scriptMap[script].Get()
      else []
    }

    /** Records the candidates' fallback list for `script` when it is non-empty. */
    method MapScript(script: Script, names: seq<string>)
      requires Valid()
      modifies this`scriptMap
      ensures Valid()
      ensures scriptMap == MapScriptOn(base.familyMap, old(scriptMap), ScriptPriority(script, names))
    {
      var fallbacks := FindFallbacks(names);
      if |fallbacks.ids| != 0 {
        scriptMap := scriptMap[script := fallbacks];
      }
    }

    /** The family of the first candidate present in the name map. */
    method FindFamily(names: seq<string>) returns (r: Option<FamilyId>)
      ensures r == FirstHit(base.familyMap, names)
    {
      for i := 0 to |names|
        invariant FirstHit(base.familyMap, names[i..]) == FirstHit(base.familyMap, names)
      {
        assert names[i..][0] == names[i] && names[i..][1..] == names[i + 1..];
        if names[i] in base.familyMap {
          return Some(base.familyMap[names[i]]);
        }
      }
      assert names[|names|..] == [];
      return None;
    }

    /** Pushes the family of each present candidate in order and stops at
        the first refused push. */
    method FindFallbacks(names: seq<string>) returns (fallbacks: Fallback.Fallbacks)
      ensures fallbacks == FallbacksFrom(base.familyMap, names)
      ensures fallbacks.Valid()
      ensures |fallbacks.ids| <= |Resolved(base.familyMap, names)|
      ensures fallbacks.ids == Resolved(base.familyMap, names)[..|fallbacks.ids|]
    {
      fallbacks := Fallback.Empty;
      for i := 0 to |names|
        invariant Collect(base.familyMap, names[i..], fallbacks) == FallbacksFrom(base.familyMap, names)
      {
        assert names[i..][0] == names[i] && names[i..][1..] == names[i + 1..];
        if names[i] in base.familyMap {
          var pushed := fallbacks.Push(base.familyMap[names[i]]);
          fallbacks := pushed.1;
          if !pushed.0 {
            break;
          }
        }
      }
      FallbacksFromSpec(base.familyMap, names);
    }

    /** The face attribute matching picks in the family the key names.
        `pick` stands for the family's matcher, which is not modelled. */
    function Query(key: FamilyKey, attrs: Attributes, pick: (FamilyData, Attributes) -> Option<FontId>): (r: Option<FontEntry>)
      reads this, generic
      ensures r.Some? <==>
        && FamilyByKey(key).Some?
        && pick(FamilyByKey(key).value.data, attrs).Some?
        && pick(FamilyByKey(key).value.data, attrs).value < |base.fonts|
      ensures r.Some? ==>
        && r.value.data == base.fonts[pick(FamilyByKey(key).value.data, attrs).value]
        && r.value.family == FamilyByKey(key).value.data
        && r.value.index == base
    {
      match FamilyByKey(key)
      case None => None
      case Some(family) =>
        match pick(family.data, attrs)
        case None => None
        case Some(fontId) =>
          if fontId < |base.fonts| then Some(FontEntry(base, family.data, base.fonts[fontId]))
          else None
    }

    /** The family a key names: by identifier, by name, or through the
        generic table. */
    function FamilyByKey(key: FamilyKey): (r: Option<FamilyEntry>)
      reads this, generic
      ensures r.Some? ==> r.value.index == base && r.value.data in families
    {
      match key
      case Id(id) => FamilyById(id)
      case Name(name) => FamilyByName(name)
      case Generic(g) =>
        var slot := if g.Index() < generic.Length then Some(generic[g.Index()]) else None;
        if slot.Some? && slot.value.Some? then FamilyById(slot.value.value) else None
    }

    /** The family whose lowercased name the name map holds. */
    function FamilyByName(name: string): (r: Option<FamilyEntry>)
      reads this
      ensures r.Some? <==> Lower(name) in base.familyMap && base.familyMap[Lower(name)] < |families|
      ensures r.Some? ==> r.value.data == families[base.familyMap[Lower(name)]]
    {
      var lowercaseName := Lower(name);
      if lowercaseName in base.familyMap then FamilyById(base.familyMap[lowercaseName]) else None
    }

    /** The family at `id`; nothing for an identifier outside the vector. */
    function FamilyById(id: FamilyId): (r: Option<FamilyEntry>)
      reads this
      ensures r.Some? <==> id < |families|
      ensures r.Some? ==> r.value.data == families[id] && r.value.index == base
    {
      if id < |families| then Some(FamilyEntry(base, families[id])) else None
    }

    /** The face at `id` with its own family; nothing when either identifier
        is outside its vector. */
    function FontById(id: FontId): (r: Option<FontEntry>)
      reads this
      ensures r.Some? <==> id < |base.fonts| && base.fonts[id].family < |families|
      ensures r.Some? ==> r.value.data == base.fonts[id] && r.value.family == families[base.fonts[id].family]
    {
      if id < |base.fonts| then
        var data := base.fonts[id];
        if data.family < |families| then Some(FontEntry(base, families[data.family], data)) else None
      else None
    }
  }

  // -----------------------------------------------------------------------
  // Dynamic index

  /** The index that accepts families at run time. Its registration code is
      not part of this model; only its state is. */
  class DynamicIndex {
    var base: BaseIndex
    var families: seq<FamilyData>

    /** `DynamicIndex::default()`. */
    constructor ()
      ensures base == EmptyBase && families == []
    {
      base := EmptyBase;
      families := [];
    }
  }
}
