# Font index and fallback resolver — a Dafny model

This project models the font index of the swash demo (`src/layout/font/index.rs`).
The index stores:

- font sources (in-memory buffers or files);
- faces (the `FontData` records);
- families, which group faces under a display name;
- a lowercase-name → family map.

From that store, the static index derives three fallback tables once, at construction:

- a sparse per-script map;
- a dense five-slot table indexed by CJK locale variant;
- a dense thirteen-slot table indexed by generic family category (serif, sans-serif, emoji, …).

At query time it answers these lookups:

- the ordered fallback families for a script and CJK variant;
- a family by identifier, by name (case-insensitively) or by generic category;
- a face by identifier;
- a face picked by attribute matching within a family.

Every lookup returns "not found" rather than failing.

Files and modules:

- `font_types.dfy` (`FontTypes`): identifiers, the `Script`, `Cjk` and `GenericFamily` enumerations with their table slots, `FamilyKey`, and the source, face and family records.
- `fallback.dfy` (`Fallback`): the bounded, duplicate-free, insertion-ordered fallback list and its `Push`.
- `lowercase.dfy` (`Lowercase`): the lowercase form of a name that keys the name map.
- `system_tables.dfy` (`SystemTables`): the operating system as a datatype and every per-platform candidate-name list of the source, in source order.
- `lookup.dfy` (`Lookup`): pure specifications of `find_family` (`FirstHit`), `find_fallbacks` (`Resolved`, `Collect`, `FallbacksFrom`) and `map_script` (`MapScriptOn`, `ApplyScripts`), with the lemmas that characterise them.
- `index.dfy` (`FontIndex`): `BaseIndex`, the `StaticIndex` class and the `DynamicIndex` class. The construction steps are methods that update the class's fields; `find_family` and `find_fallbacks` are loops proved against the `Lookup` functions. The lookups are functions that read the class's state. The module also holds the entry views.
- `index_properties.dfy` (`IndexProperties`): lemmas relating the lookups. They cover Han routing, the CJK tie-break, case-insensitive names, the generic indirection and identifier round trips over a well-formed store.

Two points of the code are worth stating plainly, because they are easy to misread:

- The Windows branch calls `map_script` for Han (index.rs:93). `map_script` stores a list only when one of its names resolves (index.rs:288-290). So on Windows the script map holds a Han entry whenever one of the three Simplified Chinese names is installed, yet `fallbacks` never reads it, since Han is always answered from the CJK table (index.rs:280-281). `WindowsHanStoredButUnread` proves both halves.
- The construction-time probes look candidate names up verbatim, without lowercasing (index.rs:296, index.rs:306), and so does the model. Only `family_by_name` lowercases.

## Model

| member | source | states |
|---|---|---|
| FontTypes.Cjk.Index | src/layout/font/index.rs:33 | every CJK variant selects one of the five slots of the CJK table, and the variant can be read back from its slot |
| FontTypes.GenericFamily.Index | src/layout/font/index.rs:34 | every generic category selects one of the thirteen slots of the generic table, and the category can be read back from its slot |
| Fallback.Fallbacks.Get | src/layout/font/index.rs:281 | the identifiers in insertion order; for a valid list at most `Capacity` of them and no two alike |
| Fallback.Fallbacks.Push | src/layout/font/index.rs:307 | push appends exactly when the list is below capacity and does not yet hold the id; a refused push leaves the list unchanged; validity (bounded, no duplicates) is kept |
| Lowercase.Lower | src/layout/font/index.rs:348-349 | the lowercase form has the name's length and folds each character on its own |
| Lowercase.LowerIdempotent | src/layout/font/index.rs:347-352 | lowercasing a lowercase name changes nothing |
| SystemTables.CjkCandidates | src/layout/font/index.rs:51-212 | the candidate names of each CJK variant per platform branch, as literal lists; no own list for the unspecified variant (its slot is copied) |
| SystemTables.ScriptPriorities | src/layout/font/index.rs:79-209 | the `map_script` calls of each platform branch, script and names, in call order |
| SystemTables.GenericCandidates | src/layout/font/index.rs:217-271 | the candidate names of each generic category per platform branch; empty for the six categories no branch writes |
| Lookup.FirstHit | src/layout/font/index.rs:294-301 | the pure model of `find_family`; no contract of its own: `FirstHitNoneIffAllMissing`, `FirstHitAtFirstPresent` and `FirstHitIgnoresLaterCandidates` characterise it and `FindFamily` is proved equal to it |
| Lookup.FirstHitNoneIffAllMissing | src/layout/font/index.rs:294-301 | `find_family` finds nothing exactly when no candidate is in the name map, and a found id is a value of the map |
| Lookup.FirstHitAtFirstPresent | src/layout/font/index.rs:294-301 | the result is the family of the first candidate present in the map |
| Lookup.FirstHitIgnoresLaterCandidates | src/layout/font/index.rs:294-301 | candidates after the first hit never affect the result; with no hit in a prefix, the rest decides |
| Lookup.Resolved | src/layout/font/index.rs:305-306 | the families of the present candidates, in candidate order; its contract bounds the count by the candidates, and `ResolvedFromCandidates` and `ResolvedContainsEveryHit` say which families they are |
| Lookup.ResolvedAppend | src/layout/font/index.rs:305-306 | resolution keeps candidate order: resolving a concatenation concatenates the resolutions |
| Lookup.ResolvedFromCandidates | src/layout/font/index.rs:305-306 | every resolved family is the map entry of some present candidate |
| Lookup.ResolvedContainsEveryHit | src/layout/font/index.rs:305-306 | every present candidate's family is resolved |
| Lookup.ResolvedNoneWhenAllMissing | src/layout/font/index.rs:305-306 | with no candidate present nothing resolves |
| Lookup.Collect | src/layout/font/index.rs:305-311 | the pure model of the `find_fallbacks` walk from a given list; no contract of its own: the `Collect*` lemmas below characterise it |
| Lookup.FallbacksFrom | src/layout/font/index.rs:303-313 | the pure model of `find_fallbacks`; no contract of its own: `FallbacksFromSpec` and `FallbacksFromUnique` characterise it and `FindFallbacks` is proved equal to it |
| Lookup.CollectAppendsPrefix | src/layout/font/index.rs:303-313 | the walk only appends, and what it appends is a prefix of the resolved families |
| Lookup.CollectValid | src/layout/font/index.rs:303-313 | the walk keeps a fallback list bounded and duplicate-free |
| Lookup.CollectStopsOnlyWhenRefused | src/layout/font/index.rs:307-309 | the walk stops short only where a push was refused: at a full list or at a duplicate |
| Lookup.FallbacksFromSpec | src/layout/font/index.rs:303-313 | `find_fallbacks` yields a valid list that is the resolved families up to the first refused push |
| Lookup.FallbacksFromUnique | src/layout/font/index.rs:303-313 | those properties determine the list: any list with them is the one `find_fallbacks` builds |
| Lookup.CollectEmptyMap | src/layout/font/index.rs:303-313 | with an empty name map the walk adds nothing, so `find_fallbacks` yields the empty list |
| Lookup.FallbacksFromCandidates | src/layout/font/index.rs:303-313 | every family in the list is the map entry of some candidate |
| Lookup.FallbacksFromAllMissing | src/layout/font/index.rs:303-313 | with no candidate installed the list is empty |
| Lookup.MapScriptOn | src/layout/font/index.rs:287-292 | the pure model of `map_script`; no contract of its own: `MapScriptOnSparse` and `MapScriptOnAllMissing` characterise it and `MapScript` is proved equal to it |
| Lookup.ApplyScripts | src/layout/font/index.rs:79-209 | a platform branch's `map_script` calls applied in order; no contract of its own: the `ApplyScripts*` lemmas characterise it and `MapScripts` is proved equal to it |
| Lookup.MapScriptOnSparse | src/layout/font/index.rs:287-292 | `map_script` keeps the script map holding only valid non-empty lists, and inserts only for a non-empty list |
| Lookup.MapScriptOnAllMissing | src/layout/font/index.rs:287-292 | an all-missing or empty candidate list leaves the script map unchanged |
| Lookup.ApplyScriptsSparse | src/layout/font/index.rs:79-135 | a whole platform table of `map_script` calls keeps the script map sparse |
| Lookup.ApplyScriptsUntouched | src/layout/font/index.rs:149-163 | a script that the table omits, or whose entries all resolve to nothing, keeps its old entry or its absence |
| Lookup.ApplyScriptsLastEntry | src/layout/font/index.rs:180-209 | the last entry of a script in the table decides its list when that list is non-empty |
| Lookup.MacOsBengaliUnmapped | src/layout/font/index.rs:160 | the empty Bengali list on macOS leaves the Bengali entry as it was |
| Lookup.WindowsTableStoresHan | src/layout/font/index.rs:93 | the Windows branch's Han call is the last one for Han, so whenever one of its names is installed the script map ends with a Han entry holding that list |
| FontIndex.FamilyEntry.Id | src/layout/font/index.rs:390-392 | the family's identifier; no contract of its own: `FamilyEntryFields` ties it to the id it was found by |
| FontIndex.FamilyEntry.Name | src/layout/font/index.rs:395-397 | the family's display name; no contract of its own: `FamilyEntryFields` ties it to the stored family |
| FontIndex.FamilyEntry.Fonts | src/layout/font/index.rs:399-409 | at most one face per listed id, each a face of the store paired with this family; when every id is in range, the face of each id in family order. Which faces and in what order in general: `FontEntriesAppend`, `FontEntriesFromIds`, `FontEntriesKeepInRange` |
| FontIndex.FontEntries | src/layout/font/index.rs:401-408 | no more faces than ids, each a face of the store paired with the family; when every id is in range, exactly the face of each id, in order |
| FontIndex.FontEntriesAppend | src/layout/font/index.rs:401-408 | the filter-map works id by id: the faces of a concatenation are the faces of each part, in order |
| FontIndex.FontEntriesFromIds | src/layout/font/index.rs:401-408 | every yielded face is the face of some listed id in range |
| FontIndex.FontEntriesKeepInRange | src/layout/font/index.rs:401-408 | every listed id in range has its face yielded; only out-of-range ids are skipped |
| FontIndex.FontEntry.Id | src/layout/font/index.rs:422-424 | the face's identifier; no contract of its own: `FontByIdRoundTrip` ties it to the id it was found by |
| FontIndex.FontEntry.Source | src/layout/font/index.rs:427-432 | the face's source entry comes from the store's source vector, and when source ids are positions it is the source the face names |
| FontIndex.FontEntry.Index | src/layout/font/index.rs:435-437 | the face's position in its source; no contract of its own: `FontEntryFields` ties it to the record |
| FontIndex.FontEntry.Offset | src/layout/font/index.rs:440-442 | the table-directory offset; no contract of its own: `FontEntryFields` ties it to the record |
| FontIndex.FontEntry.Family | src/layout/font/index.rs:445-450 | the family entry the face was reached through; no contract of its own: `FontEntryFields` ties it to `FamilyById` |
| FontIndex.FontEntry.FamilyName | src/layout/font/index.rs:453-455 | that family's name; no contract of its own: `FontEntryFields` |
| FontIndex.FontEntry.GetAttributes | src/layout/font/index.rs:458-460 | the face's attributes; no contract of its own: `FontEntryFields` |
| FontIndex.FontEntry.CacheKey | src/layout/font/index.rs:462-464 | the face's cache key; no contract of its own: `FontEntryFields` |
| FontIndex.FontEntry.Selector | src/layout/font/index.rs:466-471 | the triple of face id, face attributes and requested attributes; no contract of its own: `FontEntryFields` |
| FontIndex.SourceEntry.Id | src/layout/font/index.rs:483-485 | the source's identifier; no contract of its own: `FontEntry.Source` and `FontByIdRoundTrip` tie it to the id the face names |
| FontIndex.SourceEntry.Path | src/layout/font/index.rs:488-493 | a path exactly for file-backed sources, and it is the file's path |
| FontIndex.StaticIndex.constructor | src/layout/font/index.rs:37-48 | everything empty: every CJK slot is an empty list and every generic slot is unset |
| FontIndex.StaticIndex.SetupDefaultFallbacks | src/layout/font/index.rs:51-212 | every CJK slot except the unspecified one holds the fallbacks of the platform's list for that variant; the unspecified slot equals the Traditional one; the script map is the platform table applied in order |
| FontIndex.StaticIndex.SetupCjk | src/layout/font/index.rs:55-77 | the four `find_fallbacks` probes and the copy into the unspecified slot, in source order, leave each variant's slot holding its list's fallbacks |
| FontIndex.StaticIndex.SetCjk | src/layout/font/index.rs:56-57 | one probe fills its variant's slot with the candidates' fallback list and no other slot changes |
| FontIndex.StaticIndex.MapScripts | src/layout/font/index.rs:79-135 | the `map_script` calls of a branch, in order, give the table applied to the script map |
| FontIndex.StaticIndex.SetupDefaultGeneric | src/layout/font/index.rs:214-273 | each of the seven slots every platform writes holds the first installed candidate of the platform's list; every other slot keeps its value |
| FontIndex.StaticIndex.SetupGeneric | src/layout/font/index.rs:219-225 | one `find_family` probe per default slot leaves each default slot holding the first hit of its candidates, and every other slot unchanged |
| FontIndex.StaticIndex.EmojiFamily | src/layout/font/index.rs:275-277 | the emoji slot of the generic table |
| FontIndex.StaticIndex.Fallbacks | src/layout/font/index.rs:279-285 | the result is bounded and duplicate-free; for a script other than Han it is non-empty exactly when the script is mapped |
| FontIndex.StaticIndex.MapScript | src/layout/font/index.rs:287-292 | the script map gains the candidates' list when it is non-empty and is otherwise unchanged; no other field changes |
| FontIndex.StaticIndex.FindFamily | src/layout/font/index.rs:294-301 | the loop with early return computes the first hit |
| FontIndex.StaticIndex.FindFallbacks | src/layout/font/index.rs:303-313 | the loop with early break computes the fallback list: valid and a prefix of the resolved families |
| FontIndex.StaticIndex.Query | src/layout/font/index.rs:319-333 | a face exactly when the key resolves, the matcher picks a face and that face is in the store; it is that face, paired with the queried family |
| FontIndex.StaticIndex.FamilyByKey | src/layout/font/index.rs:336-344 | any family found is a stored family, seen through this store |
| FontIndex.StaticIndex.FamilyByName | src/layout/font/index.rs:347-352 | found exactly when the lowercased name is mapped to an existing family, and then it is that family |
| FontIndex.StaticIndex.FamilyById | src/layout/font/index.rs:355-361 | found exactly when the id is in range, and then it is the family at that id |
| FontIndex.StaticIndex.FontById | src/layout/font/index.rs:364-372 | found exactly when the face id and its family id are in range; the face at the id with the family it names |
| FontIndex.DynamicIndex.constructor | src/layout/font/index.rs:375-379 | the default dynamic index holds an empty store and no families |
| IndexProperties.FallbacksRouting | src/layout/font/index.rs:279-285 | Han is answered from the CJK slot of the variant; any other script from the script map, or with the empty list when unmapped |
| IndexProperties.WindowsHanStoredButUnread | src/layout/font/index.rs:93 | after the Windows script setup, with a Simplified Chinese name installed, Han is in the script map, yet Han fallbacks come from the CJK slot |
| IndexProperties.HanIgnoresScriptMap | src/layout/font/index.rs:280-281 | two indexes with the same CJK slot give the same Han fallbacks whatever their script maps hold |
| IndexProperties.UnspecifiedCjkFollowsTraditional | src/layout/font/index.rs:61 | after the copy of the Traditional slot, Han without a variant falls back like Traditional Chinese |
| IndexProperties.FamilyByKeyResolution | src/layout/font/index.rs:336-344 | identifier and name keys delegate; a generic key is not found when its slot is unset and otherwise is the identifier lookup of the slot |
| IndexProperties.EmojiFamilyMatchesKey | src/layout/font/index.rs:275-277 | the emoji accessor agrees with looking up the emoji generic key |
| IndexProperties.FamilyByNameCaseInsensitive | src/layout/font/index.rs:347-352 | names with the same lowercase form find the same family, or both nothing |
| IndexProperties.FamilyByNameOfLowercase | src/layout/font/index.rs:347-352 | looking up a name's lowercase form finds what the name finds |
| IndexProperties.FamilyByNameFindsRegistered | src/layout/font/index.rs:347-352 | in a well-formed store, a family mapped under its lowercased name is found by its name in any case, with its own id and name |
| IndexProperties.FamilyByNameMatchesName | src/layout/font/index.rs:347-352 | in a well-formed store, a family found by name has that name up to case |
| IndexProperties.FontByIdRoundTrip | src/layout/font/index.rs:364-372 | in a well-formed store, a face found by id has that id, its family is the family its record names, and its source entry is the source its record names, with that source id |
| IndexProperties.FontEntryFields | src/layout/font/index.rs:434-471 | in a well-formed store, the accessors of a face found by id report its record's index, offset, attributes and cache key, its family's entry and name, and the selector triple |
| IndexProperties.FamilyEntryFields | src/layout/font/index.rs:389-397 | in a well-formed store, the family found by id reports that id and its own name |
| IndexProperties.QueryAgreesWithFontById | src/layout/font/index.rs:319-333 | in a well-formed store, the face `query` returns round-trips through `font_by_id` when the matcher picks within the family |
| IndexProperties.FamilyFontsBelongToFamily | src/layout/font/index.rs:399-409 | in a well-formed store, a family's face list yields every listed face, in order, each naming that family |

## Left out

- build.rs: generates OpenGL bindings at build time. It has no logic of the index.
- src/comp/shaders/mod.rs: embeds shader text as constants. There is nothing to verify.
- Attribute matching (`FamilyData::query`): it is delegated to swash. `Query` takes the matcher as a parameter `pick`.
- `Attributes`, `CacheKey` and the `selector` triple: these are swash values. They are modelled as opaque numbers and passed through unread.
- Source contents: only the difference between an in-memory source and a file source is kept. A file source keeps its path as a string.
- fallback.rs is not part of this model. Its code is not shown, so the capacity (16) and the rule that `push` refuses a full list or a duplicate are assumptions; they are the contract of `Fallback.Fallbacks.Push`.
- FontIndex.StaticIndex.FamilyByName: util/string.rs is not part of this model, and `LowercaseString::get` is modelled as always succeeding. Its failure path (the `?` at index.rs:349) is not modelled, and the "found exactly when" contract and the case-insensitivity lemmas hold only under that assumption.
- Lowercase.Lower: folds only ASCII letters. The Unicode lowercase mapping of non-ASCII names is not modelled.
- `FxHashMap` hashing and the small-string inline buffer are implementation details. They are modelled as a Dafny `map` and plain strings.
- The operating system is a parameter of the setup methods, not a build-time constant.
- `Script`: the named scripts are listed individually. Every other script of swash's enumeration is `Unlisted(tag)`.
- The slot numbers of `Cjk` and `GenericFamily` are not part of this model (swash and types.rs are not shown). The model fixes one numbering, and the lemmas rely only on distinct variants getting distinct slots (`Index` reads the variant back from its slot).
- FontIndex.StaticIndex.MapScripts: the straight-line `map_script` calls of each platform branch are modelled as one loop over that branch's table (`ScriptPriorities`). The calls are the same and run in the same order.
- FontIndex.StaticIndex.SetupGeneric: the seven straight-line `find_family` assignments of each platform branch are modelled as one loop over `DefaultGenericSlots`, in the same order. Each platform's names come in through `GenericCandidates`.
- FontIndex.FontEntry.Source: the unchecked index into the source vector is a `requires` that the source id is in range.
- Entry views borrow the index for a lifetime. They are modelled as values that carry a copy of the store.
- `FamilyEntry::fonts` returns a lazy iterator. It is modelled as the sequence the iterator yields.
- `DynamicIndex`: only its state is modelled. Its shared ownership (`Arc`) and registration code do not appear in the modelled file.
- Fixed-width identifiers: the model does not bound family, face and source identifiers. Every lookup checks ids against the vector length, so a width limit never changes a result. The face index and offset keep their 32-bit range.
