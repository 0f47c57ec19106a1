/** Specification of the construction-time name probing of the static index:
    `find_family` (first hit), `find_fallbacks` (bounded, order-preserving
    collection that stops at the first refused push) and the effect of
    `map_script` and of a whole platform table on the script map. */
module Lookup {
  import opened FontTypes
  import opened Fallback
  import opened SystemTables

  /** The lowercase-name → family map of the entity store. */
  type NameMap = map<string, FamilyId>

  type ScriptMap = map<Script, Fallbacks>

  // ---------------------------------------------------------------------
  // find_family

  /** The family of the first candidate present in the map; candidates are
      looked up verbatim, without lowercasing. */
  function FirstHit(m: NameMap, names: seq<string>): Option<FamilyId>
  {
    if names == [] then None
    else if names[0] in m then Some(m[names[0]])
    else FirstHit(m, names[1..])
  }

  /** No family is found exactly when no candidate is present, and a found
      family is one the map holds. */
  lemma {:induction false} FirstHitNoneIffAllMissing(m: NameMap, names: seq<string>)
    ensures FirstHit(m, names).None? <==> forall i :: 0 <= i < |names| ==> names[i] !in m
    ensures FirstHit(m, names).Some? ==> FirstHit(m, names).value in m.Values
  {
    if names != [] && names[0] !in m {
      FirstHitNoneIffAllMissing(m, names[1..]);
      assert forall i :: 1 <= i < |names| ==> names[i] == names[1..][i - 1];
    }
  }

  /** `k` is the position of the first candidate present in the map. */
  predicate FirstPresent(m: NameMap, names: seq<string>, k: nat)
  {
    k < |names| && names[k] in m && forall j :: 0 <= j < k ==> names[j] !in m
  }

  /** The first present candidate decides the result. */
  lemma {:induction false} FirstHitAtFirstPresent(m: NameMap, names: seq<string>, k: nat)
    requires FirstPresent(m, names, k)
    ensures FirstHit(m, names) == Some(m[names[k]])
  {
    if k > 0 {
      assert names[0] !in m;
      FirstHitAtFirstPresent(m, names[1..], k - 1);
    }
  }

  /** Candidates after the first hit are never consulted; when the first
      list has no hit, the result is that of the second. */
  lemma {:induction false} FirstHitIgnoresLaterCandidates(m: NameMap, a: seq<string>, b: seq<string>)
    ensures FirstHit(m, a + b) == if FirstHit(m, a).Some? then FirstHit(m, a) else FirstHit(m, b)
  {
    if a == [] {
      assert a + b == b;
    } else {
      assert (a + b)[0] == a[0];
      assert (a + b)[1..] == a[1..] + b;
      FirstHitIgnoresLaterCandidates(m, a[1..], b);
    }
  }

  // ---------------------------------------------------------------------
  // find_fallbacks

  /** The families of the candidates present in the map, in candidate order. */
  function Resolved(m: NameMap, names: seq<string>): (r: seq<FamilyId>)
    ensures |r| <= |names|
  {
    if names == [] then []
    else (if names[0] in m then [m[names[0]]] else []) + Resolved(m, names[1..])
  }

  /** Resolution distributes over concatenation of candidate lists: it keeps
      the candidates' order. */
  lemma {:induction false} ResolvedAppend(m: NameMap, a: seq<string>, b: seq<string>)
    ensures Resolved(m, a + b) == Resolved(m, a) + Resolved(m, b)
  {
    if a == [] {
      assert a + b == b;
    } else {
      assert (a + b)[0] == a[0];
      assert (a + b)[1..] == a[1..] + b;
      ResolvedAppend(m, a[1..], b);
    }
  }

  /** Every resolved family is the family of some present candidate. */
  lemma {:induction false} ResolvedFromCandidates(m: NameMap, names: seq<string>, i: nat)
    requires i < |Resolved(m, names)|
    ensures exists j :: 0 <= j < |names| && names[j] in m && Resolved(m, names)[i] == m[names[j]]
  {
    var head := if names[0] in m then [m[names[0]]] else [];
    if i < |head| {
      assert Resolved(m, names)[i] == m[names[0]];
    } else {
      ResolvedFromCandidates(m, names[1..], i - |head|);
      var j :| 0 <= j < |names[1..]| && names[1..][j] in m
             && Resolved(m, names[1..])[i - |head|] == m[names[1..][j]];
      assert names[j + 1] in m && Resolved(m, names)[i] == m[names[j + 1]];
    }
  }

  /** Every present candidate contributes its family. */
  lemma {:induction false} ResolvedContainsEveryHit(m: NameMap, names: seq<string>, j: nat)
    requires j < |names| && names[j] in m
    ensures m[names[j]] in Resolved(m, names)
  {
    if j > 0 {
      ResolvedContainsEveryHit(m, names[1..], j - 1);
    }
  }

  /** With no candidate present, nothing resolves. */
  lemma {:induction false} ResolvedNoneWhenAllMissing(m: NameMap, names: seq<string>)
    requires forall i :: 0 <= i < |names| ==> names[i] !in m
    ensures Resolved(m, names) == []
  {
    if names != [] {
      ResolvedNoneWhenAllMissing(m, names[1..]);
    }
  }

  /** The `find_fallbacks` walk continued from `acc`: the family of each
      present candidate is pushed in order, absent candidates are skipped,
      and the walk ends at the first refused push. */
  function Collect(m: NameMap, names: seq<string>, acc: Fallbacks): Fallbacks
  {
    if names == [] then acc
    else if names[0] !in m then Collect(m, names[1..], acc)
    else
      var pushed := acc.Push(m[names[0]]);
      if pushed.0 then Collect(m, names[1..], pushed.1) else pushed.1
  }

  /** The fallback list `find_fallbacks` builds for a candidate list. */
  function FallbacksFrom(m: NameMap, names: seq<string>): Fallbacks
  {
    Collect(m, names, Empty)
  }

  /** The walk only appends, and what it appends is a prefix of the resolved families. */
  lemma {:induction false} CollectAppendsPrefix(m: NameMap, names: seq<string>, acc: Fallbacks)
    ensures var r := Collect(m, names, acc);
      && |acc.ids| <= |r.ids| <= |acc.ids| + |Resolved(m, names)|
      && r.ids == acc.ids + Resolved(m, names)[..|r.ids| - |acc.ids|]
  {
    if names == [] {
    } else if names[0] !in m {
      CollectAppendsPrefix(m, names[1..], acc);
      assert Resolved(m, names) == Resolved(m, names[1..]);
    } else {
      var id := m[names[0]];
      var pushed := acc.Push(id);
      var rest := Resolved(m, names[1..]);
      assert Resolved(m, names) == [id] + rest;
      if pushed.0 {
        assert Collect(m, names, acc) == Collect(m, names[1..], pushed.1);
        CollectAppendsPrefix(m, names[1..], pushed.1);
        var r := Collect(m, names[1..], pushed.1);
        PrefixStep(acc.ids, id, rest, |r.ids| - |pushed.1.ids|);
      } else {
        assert acc.ids + ([id] + rest)[..0] == acc.ids;
      }
    }
  }

  /** Helper: extending the accumulated list by `id` and then by a prefix of
      `rest` is extending it by a prefix of `[id] + rest`. */
  lemma PrefixStep(a: seq<FamilyId>, id: FamilyId, rest: seq<FamilyId>, k: nat)
    requires k <= |rest|
    ensures (a + [id]) + rest[..k] == a + ([id] + rest)[..k + 1]
  {
    assert ([id] + rest)[..k + 1] == [id] + rest[..k];
  }

  /** The walk keeps a valid list valid. */
  lemma {:induction false} CollectValid(m: NameMap, names: seq<string>, acc: Fallbacks)
    requires acc.Valid()
    ensures Collect(m, names, acc).Valid()
  {
    if names != [] {
      if names[0] !in m {
        CollectValid(m, names[1..], acc);
      } else {
        var pushed := acc.Push(m[names[0]]);
        if pushed.0 {
          CollectValid(m, names[1..], pushed.1);
        }
      }
    }
  }

  /** The walk stops early only at a refused push: when some resolved family
      was not appended, the first such one was a duplicate or met a full list. */
  lemma {:induction false} CollectStopsOnlyWhenRefused(m: NameMap, names: seq<string>, acc: Fallbacks)
    requires |acc.ids| <= Capacity
    ensures StoppedAtRefusal(Resolved(m, names), |acc.ids|, Collect(m, names, acc).ids)
  {
    if names == [] {
    } else if names[0] !in m {
      CollectStopsOnlyWhenRefused(m, names[1..], acc);
      assert Resolved(m, names) == Resolved(m, names[1..]);
    } else {
      var id := m[names[0]];
      var pushed := acc.Push(id);
      var rest := Resolved(m, names[1..]);
      assert Resolved(m, names) == [id] + rest;
      if pushed.0 {
        var r := Collect(m, names[1..], pushed.1);
        assert Collect(m, names, acc) == r;
        assert |pushed.1.ids| <= |r.ids| by {
          CollectAppendsPrefix(m, names[1..], pushed.1);
        }
        CollectStopsOnlyWhenRefused(m, names[1..], pushed.1);
        StoppedAtRefusalStep(id, rest, |acc.ids|, r.ids);
      } else {
        assert Collect(m, names, acc) == acc;
        assert |acc.ids| == Capacity || id in acc.ids;
      }
    }
  }

  /** Starting from `accLen` families, the walk produced `r`; if it left out
      some resolved family, the first one left out met a full list or was
      already there. */
  predicate StoppedAtRefusal(res: seq<FamilyId>, accLen: nat, r: seq<FamilyId>)
  {
    var k := |r| - accLen;
    0 <= k < |res| ==> |r| == Capacity || res[k] in r
  }

  /** Helper: the property carries over from the walk after a successful
      push of `id` to the walk before it. */
  lemma StoppedAtRefusalStep(id: FamilyId, rest: seq<FamilyId>, accLen: nat, r: seq<FamilyId>)
    requires accLen + 1 <= |r|
    requires StoppedAtRefusal(rest, accLen + 1, r)
    ensures StoppedAtRefusal([id] + rest, accLen, r)
  {
    var k := |r| - accLen;
    if k < |[id] + rest| {
      assert ([id] + rest)[k] == rest[k - 1];
    }
  }

  /** `find_fallbacks` yields a valid list (at most `Capacity` families, no
      duplicates) that is a prefix of the resolved families, cut short only
      where a push was refused. */
  lemma FallbacksFromSpec(m: NameMap, names: seq<string>)
    ensures var r := FallbacksFrom(m, names);
      var res := Resolved(m, names);
      && r.Valid()
      && |r.ids| <= |res|
      && r.ids == res[..|r.ids|]
      && (|r.ids| < |res| ==> |r.ids| == Capacity || res[|r.ids|] in r.ids)
  {
    CollectAppendsPrefix(m, names, Empty);
    CollectValid(m, names, Empty);
    CollectStopsOnlyWhenRefused(m, names, Empty);
  }

  /** The three properties of `FallbacksFromSpec` determine the list: any
      list that has them is the one `find_fallbacks` builds. */
  lemma FallbacksFromUnique(m: NameMap, names: seq<string>, f: Fallbacks)
    requires f.Valid()
    requires |f.ids| <= |Resolved(m, names)| && f.ids == Resolved(m, names)[..|f.ids|]
    requires |f.ids| < |Resolved(m, names)| ==> |f.ids| == Capacity || Resolved(m, names)[|f.ids|] in f.ids
    ensures f == FallbacksFrom(m, names)
  {
    FallbacksFromSpec(m, names);
    var g := FallbacksFrom(m, names);
    var res := Resolved(m, names);
    PrefixesAgree(res, f.ids, g.ids);
    PrefixesAgree(res, g.ids, f.ids);
    assert f.ids == g.ids;
  }

  /** Helper: of two valid maximal prefixes, the first is not the shorter one. */
  lemma PrefixesAgree(res: seq<FamilyId>, a: seq<FamilyId>, b: seq<FamilyId>)
    requires |a| <= |res| && a == res[..|a|] && |b| <= |res| && b == res[..|b|]
    requires |a| <= Capacity && |b| <= Capacity && NoDuplicates(b)
    requires |a| < |res| ==> |a| == Capacity || res[|a|] in a
    ensures |b| <= |a|
  {
    if |a| < |b| {
      assert false;
    }
  }

  /** With an empty name map, `find_fallbacks` yields the empty list. */
  lemma {:induction false} CollectEmptyMap(m: NameMap, names: seq<string>, acc: Fallbacks)
    requires m == map[]
    ensures Collect(m, names, acc) == acc
  {
    if names != [] {
      CollectEmptyMap(m, names[1..], acc);
    }
  }

  /** Every family in a fallback list is the family of some candidate. */
  lemma FallbacksFromCandidates(m: NameMap, names: seq<string>, i: nat)
    requires i < |FallbacksFrom(m, names).ids|
    ensures exists j :: 0 <= j < |names| && names[j] in m && FallbacksFrom(m, names).ids[i] == m[names[j]]
  {
    FallbacksFromSpec(m, names);
    ResolvedFromCandidates(m, names, i);
  }

  /** With no candidate present the list is empty. */
  lemma FallbacksFromAllMissing(m: NameMap, names: seq<string>)
    requires forall i :: 0 <= i < |names| ==> names[i] !in m
    ensures FallbacksFrom(m, names) == Empty
  {
    ResolvedNoneWhenAllMissing(m, names);
    FallbacksFromSpec(m, names);
  }

  // ---------------------------------------------------------------------
  // map_script and a platform's whole table

  /** A script map is sparse when it holds only valid, non-empty lists. */
  ghost predicate Sparse(sm: ScriptMap)
  {
    forall s :: s in sm ==> sm[s].Valid() && sm[s].ids != []
  }

  /** `map_script`: the script gets the candidates' list when it is non-empty. */
  function MapScriptOn(m: NameMap, sm: ScriptMap, p: ScriptPriority): ScriptMap
  {
    var f := FallbacksFrom(m, p.names);
    if |f.ids| != 0 then sm[p.script := f] else sm
  }

  /** The `map_script` calls of a table, applied in order. */
  function ApplyScripts(m: NameMap, sm: ScriptMap, table: seq<ScriptPriority>): ScriptMap
    decreases |table|
  {
    if table == [] then sm
    else MapScriptOn(m, ApplyScripts(m, sm, table[..|table| - 1]), table[|table| - 1])
  }

  /** `map_script` keeps the script map sparse, and inserts only for a
      non-empty list. */
  lemma MapScriptOnSparse(m: NameMap, sm: ScriptMap, p: ScriptPriority)
    requires Sparse(sm)
    ensures Sparse(MapScriptOn(m, sm, p))
    ensures p.script in MapScriptOn(m, sm, p) ==> p.script in sm || FallbacksFrom(m, p.names).ids != []
  {
    FallbacksFromSpec(m, p.names);
  }

  /** A candidate list with no installed family (or no candidate at all)
      leaves the script map as it was. */
  lemma MapScriptOnAllMissing(m: NameMap, sm: ScriptMap, p: ScriptPriority)
    requires forall i :: 0 <= i < |p.names| ==> p.names[i] !in m
    ensures MapScriptOn(m, sm, p) == sm
  {
    FallbacksFromAllMissing(m, p.names);
  }

  /** A table keeps the script map sparse. */
  lemma {:induction false} ApplyScriptsSparse(m: NameMap, sm: ScriptMap, table: seq<ScriptPriority>)
    requires Sparse(sm)
    ensures Sparse(ApplyScripts(m, sm, table))
    decreases |table|
  {
    if table != [] {
      ApplyScriptsSparse(m, sm, table[..|table| - 1]);
      MapScriptOnSparse(m, ApplyScripts(m, sm, table[..|table| - 1]), table[|table| - 1]);
    }
  }

  /** A script whose every entry in the table resolves to nothing (in
      particular a script the table does not list) keeps its old entry, or
      its absence. */
  lemma {:induction false} ApplyScriptsUntouched(m: NameMap, sm: ScriptMap, table: seq<ScriptPriority>, s: Script)
    requires forall k :: 0 <= k < |table| && table[k].script == s ==> FallbacksFrom(m, table[k].names).ids == []
    ensures var r := ApplyScripts(m, sm, table);
      (s in r <==> s in sm) && (s in sm ==> r[s] == sm[s])
    decreases |table|
  {
    if table != [] {
      var init := table[..|table| - 1];
      assert forall k :: 0 <= k < |init| ==> init[k] == table[k];
      ApplyScriptsUntouched(m, sm, init, s);
    }
  }

  /** The last entry of a script in the table decides its list when that
      list is non-empty. */
  lemma {:induction false} ApplyScriptsLastEntry(m: NameMap, sm: ScriptMap, table: seq<ScriptPriority>, k: nat)
    requires k < |table|
    requires forall j :: k < j < |table| ==> table[j].script != table[k].script
    requires FallbacksFrom(m, table[k].names).ids != []
    ensures var r := ApplyScripts(m, sm, table);
      table[k].script in r && r[table[k].script] == FallbacksFrom(m, table[k].names)
    decreases |table|
  {
    var init := table[..|table| - 1];
    if k < |table| - 1 {
      assert forall j :: 0 <= j < |init| ==> init[j] == table[j];
      ApplyScriptsLastEntry(m, sm, init, k);
    }
  }

  /** On macOS the Bengali candidate list is empty, so setting up the
      fallbacks never changes the Bengali entry. */
  lemma MacOsBengaliUnmapped(m: NameMap, sm: ScriptMap)
    ensures var r := ApplyScripts(m, sm, ScriptPriorities(MacOs));
      (Bengali in r <==> Bengali in sm) && (Bengali in sm ==> r[Bengali] == sm[Bengali])
  {
    var table := ScriptPriorities(MacOs);
    forall k | 0 <= k < |table| && table[k].script == Bengali
      ensures FallbacksFrom(m, table[k].names).ids == []
    {
      assert k == 3;
    }
    ApplyScriptsUntouched(m, sm, table, Bengali);
  }

  /** The Windows table makes a `map_script` call for Han with the
      Simplified Chinese candidates and no later Han call, so whenever one
      of those names is installed the script map ends up with a Han entry. */
  lemma WindowsTableStoresHan(m: NameMap, sm: ScriptMap)
    requires FallbacksFrom(m, CjkCandidates(Windows, Simplified)).ids != []
    ensures var r := ApplyScripts(m, sm, ScriptPriorities(Windows));
      Han in r && r[Han] == FallbacksFrom(m, CjkCandidates(Windows, Simplified))
  {
    var table := ScriptPriorities(Windows);
    assert table[14] == ScriptPriority(Han, CjkCandidates(Windows, Simplified));
    ApplyScriptsLastEntry(m, sm, table, 14);
  }
}
