/** Properties of the static index's lookups: Han routing and the CJK
    tie-break, case-insensitive name lookup, the generic-key indirection,
    and identifier round trips over a well-formed store. */
module IndexProperties {
  import opened FontTypes
  import Fallback
  import opened Lookup
  import opened Lowercase
  import opened SystemTables
  import opened FontIndex

  /** Han is answered from the CJK table by variant and the script map is
      never consulted for it; any other script is answered from the script
      map, or with nothing when unmapped. */
  lemma FallbacksRouting(idx: StaticIndex, script: Script, c: Cjk)
    requires idx.Valid()
    ensures script == Han ==> idx.Fallbacks(script, c) == idx.cjk[c.Index()].ids
    ensures script != Han && script in idx.scriptMap ==> idx.Fallbacks(script, c) == idx.scriptMap[script].ids
    ensures script != Han && script !in idx.scriptMap ==> idx.Fallbacks(script, c) == []
  {
  }

  /** Two indexes with the same CJK table give the same Han fallbacks,
      whatever their script maps hold (including a Han entry). */
  lemma HanIgnoresScriptMap(a: StaticIndex, b: StaticIndex, c: Cjk)
    requires a.Valid() && b.Valid()
    requires a.cjk[c.Index()] == b.cjk[c.Index()]
    ensures a.Fallbacks(Han, c) == b.Fallbacks(Han, c)
  {
  }

  /** After the Windows setup of the script map, whenever one of the
      Simplified Chinese names is installed the map holds a Han entry, yet
      the Han fallbacks still come from the CJK table. */
  lemma WindowsHanStoredButUnread(idx: StaticIndex, before: ScriptMap, c: Cjk)
    requires idx.Valid()
    requires idx.scriptMap == ApplyScripts(idx.base.familyMap, before, ScriptPriorities(Windows))
    requires FallbacksFrom(idx.base.familyMap, CjkCandidates(Windows, Simplified)).ids != []
    ensures Han in idx.scriptMap
    ensures idx.Fallbacks(Han, c) == idx.cjk[c.Index()].ids
  {
    WindowsTableStoresHan(idx.base.familyMap, before);
  }

  /** Once the unspecified slot copies the Traditional one (as every
      platform branch of the setup does), Han text without a CJK variant
      falls back like Traditional Chinese. */
  lemma UnspecifiedCjkFollowsTraditional(idx: StaticIndex)
    requires idx.Valid()
    requires idx.cjk[Unspecified.Index()] == idx.cjk[Traditional.Index()]
    ensures idx.Fallbacks(Han, Unspecified) == idx.Fallbacks(Han, Traditional)
  {
  }

  /** A generic key goes through the generic table to an identifier
      lookup, and is not found when its slot is unset. Identifier and name
      keys delegate to the matching lookups. */
  lemma FamilyByKeyResolution(idx: StaticIndex, key: FamilyKey)
    requires idx.Valid()
    ensures key.Id? ==> idx.FamilyByKey(key) == idx.FamilyById(key.id)
    ensures key.Name? ==> idx.FamilyByKey(key) == idx.FamilyByName(key.name)
    ensures key.Generic? && idx.generic[key.generic.Index()].None? ==> idx.FamilyByKey(key).None?
    ensures key.Generic? && idx.generic[key.generic.Index()].Some? ==>
      idx.FamilyByKey(key) == idx.FamilyById(idx.generic[key.generic.Index()].value)
  {
  }

  /** The emoji accessor and the emoji generic key agree. */
  lemma EmojiFamilyMatchesKey(idx: StaticIndex)
    requires idx.Valid()
    ensures idx.EmojiFamily().None? ==> idx.FamilyByKey(Generic(Emoji)).None?
    ensures idx.EmojiFamily().Some? ==> idx.FamilyByKey(Generic(Emoji)) == idx.FamilyById(idx.EmojiFamily().value)
  {
  }

  /** Names that lowercase alike find the same family, or both nothing. */
  lemma FamilyByNameCaseInsensitive(idx: StaticIndex, a: string, b: string)
    requires Lower(a) == Lower(b)
    ensures idx.FamilyByName(a) == idx.FamilyByName(b)
  {
  }

  /** Looking up the lowercase form of a name finds what the name finds. */
  lemma FamilyByNameOfLowercase(idx: StaticIndex, name: string)
    ensures idx.FamilyByName(Lower(name)) == idx.FamilyByName(name)
  {
    LowerIdempotent(name);
  }

  /** In a well-formed store, a family whose lowercased name maps to it is
      found by its display name, in any letter case, with its own identifier. */
  lemma FamilyByNameFindsRegistered(idx: StaticIndex, i: FamilyId, name: string)
    requires idx.WellFormed()
    requires i < |idx.families|
    requires Lower(name) == Lower(idx.families[i].name)
    requires Lower(idx.families[i].name) in idx.base.familyMap
    requires idx.base.familyMap[Lower(idx.families[i].name)] == i
    ensures idx.FamilyByName(name).Some?
    ensures idx.FamilyByName(name).value.Id() == i
    ensures idx.FamilyByName(name).value.Name() == idx.families[i].name
  {
  }

  /** In a well-formed store, every family the name map knows has its key
      as its lowercased display name, so the map never sends a name to a
      family of another name. */
  lemma FamilyByNameMatchesName(idx: StaticIndex, name: string)
    requires idx.WellFormed()
    requires idx.FamilyByName(name).Some?
    ensures Lower(idx.FamilyByName(name).value.Name()) == Lower(name)
  {
  }

  /** In a well-formed store, identifier lookups return the entity with that
      identifier, and a face's family is the one that lists it. */
  lemma FontByIdRoundTrip(idx: StaticIndex, id: FontId)
    requires idx.WellFormed()
    requires id < |idx.base.fonts|
    ensures idx.FontById(id).Some?
    ensures idx.FontById(id).value.Id() == id
    ensures idx.FontById(id).value.Family().Id() == idx.base.fonts[id].family
    ensures idx.FamilyById(idx.base.fonts[id].family) == Some(idx.FontById(id).value.Family())
    ensures idx.FontById(id).value.Source().data == idx.base.sources[idx.base.fonts[id].source]
    ensures idx.FontById(id).value.Source().Id() == idx.base.fonts[id].source
  {
  }

  /** In a well-formed store, the accessors of the face found by id report
      the fields of its record and of the family it names. */
  lemma FontEntryFields(idx: StaticIndex, id: FontId, requested: Attributes)
    requires idx.WellFormed()
    requires id < |idx.base.fonts|
    ensures var e := idx.FontById(id).value;
      var data := idx.base.fonts[id];
      && e.Index() == data.index
      && e.Offset() == data.offset
      && e.Family() == idx.FamilyById(data.family).value
      && e.FamilyName() == idx.families[data.family].name
      && e.GetAttributes() == data.attributes
      && e.CacheKey() == data.key
      && e.Selector(requested) == (id, data.attributes, requested)
  {
  }

  /** In a well-formed store, the family found by id reports that id and
      its own display name. */
  lemma FamilyEntryFields(idx: StaticIndex, i: FamilyId)
    requires idx.WellFormed()
    requires i < |idx.families|
    ensures idx.FamilyById(i).value.Id() == i
    ensures idx.FamilyById(i).value.Name() == idx.families[i].name
  {
  }

  /** In a well-formed store, when the matcher picks a face of the family it
      was given, the face `query` returns round-trips through `font_by_id`. */
  lemma QueryAgreesWithFontById(
    idx: StaticIndex, key: FamilyKey, attrs: Attributes, pick: (FamilyData, Attributes) -> Option<FontId>)
    requires idx.Valid() && idx.WellFormed()
    requires idx.FamilyByKey(key).Some? && pick(idx.FamilyByKey(key).value.data, attrs).Some? ==>
      pick(idx.FamilyByKey(key).value.data, attrs).value in idx.FamilyByKey(key).value.data.fonts
    ensures idx.Query(key, attrs, pick).Some? ==>
      idx.FontById(idx.Query(key, attrs, pick).value.Id()) == idx.Query(key, attrs, pick)
  {
    var r := idx.Query(key, attrs, pick);
    if r.Some? {
      var family := idx.FamilyByKey(key).value.data;
      var fontId := pick(family, attrs).value;
      var k :| 0 <= k < |family.fonts| && family.fonts[k] == fontId;
      var i := family.id;
      assert family in idx.families;
      var j :| 0 <= j < |idx.families| && idx.families[j] == family;
      assert j == i;
      assert idx.base.fonts[fontId].family == i;
    }
  }

  /** In a well-formed store, every face a family entry lists is there, in
      order, and names that family as its own. */
  lemma FamilyFontsBelongToFamily(idx: StaticIndex, i: FamilyId)
    requires idx.WellFormed()
    requires i < |idx.families|
    ensures var e := idx.FamilyById(i).value;
      && |e.Fonts()| == |idx.families[i].fonts|
      && forall k :: 0 <= k < |e.Fonts()| ==>
           e.Fonts()[k].Id() == idx.families[i].fonts[k] && e.Fonts()[k].data.family == i
  {
  }
}
