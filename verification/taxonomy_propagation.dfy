/**
 * JPry_Taxonomy_Propagation: a term created on the main site is inserted
 * on every language site, and the IDs it gets there are kept in the term's
 * own meta under language_site_<path>; once those IDs exist, the copies are
 * updated instead.
 */
module TaxonomyPropagation {
  import opened Php
  import opened Host
  import opened Utility
  import opened AbstractPropagation
  import TP = TranslationPropagation

  /** What wp_insert_term() or wp_update_term() gives back: the term's ID, or a WP_Error. */
  datatype TermResult = TermOk(termId: Value) | TermError(code: string, data: Value)

  /** Why update_each() left a site's copy alone. */
  datatype Failure = NoLanguageMeta | TermGone | UpdateFailed(code: string, data: Value)

  /** The pairs parse_term_args() hands to shortcode_atts(). */
  const TermDefaults: Args := map["description" := Str(""), "parent" := Int(0), "slug" := Str("")]

  /**
   * parse_term_args: shortcode_atts() keeps description, parent and slug and
   * nothing else, each taken from the term when it has the key (even with a
   * null value) and from the defaults otherwise.
   */
  function ParseTermArgs(term: Args): (r: Args)
    ensures forall k :: k in r <==> k == "description" || k == "parent" || k == "slug"
    ensures forall k :: k in r && k in term ==> r[k] == term[k]
    ensures "description" !in term ==> r["description"] == Str("")
    ensures "parent" !in term ==> r["parent"] == Int(0)
    ensures "slug" !in term ==> r["slug"] == Str("")
  {
    map k | k in TermDefaults :: if k in term then term[k] else TermDefaults[k]
  }

  /** Parsing parsed arguments again changes nothing. */
  lemma ParseTermArgsIdempotent(term: Args)
    ensures ParseTermArgs(ParseTermArgs(term)) == ParseTermArgs(term)
  {
    var r := ParseTermArgs(term);
    assert forall k :: k in r ==> ParseTermArgs(r)[k] == r[k];
  }

  /** update_parent: the site's parent ID replaces `parent` when the site has one; otherwise the arguments pass through. */
  function UpdateParent(path: string, parents: Args, args: Args): (r: Args)
    ensures IsSet(parents, path) ==> "parent" in r && r["parent"] == parents[path]
    ensures !IsSet(parents, path) ==> r == args
  {
    if IsSet(parents, path) then args["parent" := parents[path]] else args
  }

  /** update_parent touches nothing but `parent`. */
  lemma UpdateParentOnlyParent(path: string, parents: Args, args: Args)
    ensures var r := UpdateParent(path, parents, args);
      forall k :: k != "parent" ==> (k in r <==> k in args) && (k in args ==> r[k] == args[k])
  {
  }

  /** The part of a language meta key after language_site_. */
  function PathOfKey(k: string): string
  {
    if |TP.LanguagePrefix| <= |k| then k[|TP.LanguagePrefix|..] else ""
  }

  /** A language meta key is the key of the path it ends with. */
  lemma LanguageKeyOfPath(k: string)
    requires StartsWith(k, TP.LanguagePrefix)
    ensures TP.LanguageKey(PathOfKey(k)) == k
  {
    assert k == k[..|TP.LanguagePrefix|] + k[|TP.LanguagePrefix|..];
  }

  /** The paths named by the language meta keys of `m`. */
  function LanguagePaths(m: Meta): set<string>
  {
    set k | k in m && StartsWith(k, TP.LanguagePrefix) :: PathOfKey(k)
  }

  /**
   * map_term_parents: nothing when the term has no parent; otherwise, for
   * every language_site_ key of the term's own meta `own` that `meta` also
   * has, the path it names mapped to all of the rows stored under it.
   */
  function MapTermParents(data: Args, meta: Meta, own: Meta): (r: Args)
    ensures IntOf(Get(data, "parent")) == 0 ==> r == map[]
    ensures IntOf(Get(data, "parent")) != 0 ==>
      forall p :: p in r <==> TP.LanguageKey(p) in own && TP.LanguageKey(p) in meta
    ensures forall p :: p in r ==> TP.LanguageKey(p) in own && r[p] == List(own[TP.LanguageKey(p)])
  {
    if IntOf(Get(data, "parent")) == 0 then map[]
    else
      var r := map p | p in LanguagePaths(own) && TP.LanguageKey(p) in own && TP.LanguageKey(p) in meta :: List(own[TP.LanguageKey(p)]);
      assert forall p :: TP.LanguageKey(p) in own ==> p in LanguagePaths(own) by {
        forall p | TP.LanguageKey(p) in own ensures p in LanguagePaths(own) {
          assert PathOfKey(TP.LanguageKey(p)) == p;
        }
      }
      r
  }

  /** The path of the entry with key `key` in the sites array; a missing entry reads as the empty path. */
  function PathAt(sites: seq<Entry>, key: int): (path: string)
    ensures (exists k :: 0 <= k < |sites| && sites[k].key == key) ==>
      exists k :: 0 <= k < |sites| && sites[k].key == key && path == sites[k].site.path
    ensures (forall k :: 0 <= k < |sites| ==> sites[k].key != key) ==> path == ""
  {
    if |sites| == 0 then ""
    else if sites[0].key == key then sites[0].site.path
    else
      var path := PathAt(sites[1..], key);
      assert forall k :: 1 <= k < |sites| ==> sites[k] == sites[1..][k - 1];
      path
  }

  /** The test send_to_each() makes: the term already has an ID on the site stored with key 1. */
  predicate HasLanguageMeta(sites: seq<Entry>, meta: Meta)
  {
    |sites| > 1 && TP.LanguageKey(PathAt(sites, 1)) in meta
  }

  /** The arguments send_to_each() holds after `sites`: each site with a parent ID of its own sets it, the others keep the last one set. */
  function CarriedArgs(sites: seq<Entry>, parents: Args, args: Args): Args
  {
    if |sites| == 0 then args
    else UpdateParent(sites[|sites| - 1].site.path, parents, CarriedArgs(sites[..|sites| - 1], parents, args))
  }

  /** Only `parent` ever changes as the arguments are carried from site to site. */
  lemma {:induction false} CarriedArgsOnlyParent(sites: seq<Entry>, parents: Args, args: Args)
    ensures var c := CarriedArgs(sites, parents, args);
      forall k :: k != "parent" ==> (k in c <==> k in args) && (k in args ==> c[k] == args[k])
  {
    if |sites| > 0 {
      CarriedArgsOnlyParent(sites[..|sites| - 1], parents, args);
      UpdateParentOnlyParent(sites[|sites| - 1].site.path, parents, CarriedArgs(sites[..|sites| - 1], parents, args));
    }
  }

  /**
   * The parent a site is inserted with is that of the last site so far that
   * has one in `parents`, and the default when none has: a site without a
   * parent ID of its own inherits the previous site's.
   */
  lemma {:induction false} CarriedParent(sites: seq<Entry>, parents: Args, args: Args)
    ensures (forall j :: 0 <= j < |sites| ==> !IsSet(parents, sites[j].site.path)) ==> CarriedArgs(sites, parents, args) == args
    ensures forall j :: (0 <= j < |sites| && IsSet(parents, sites[j].site.path) &&
      (forall i :: j < i < |sites| ==> !IsSet(parents, sites[i].site.path))) ==>
      CarriedArgs(sites, parents, args) == args["parent" := parents[sites[j].site.path]]
  {
    if |sites| > 0 {
      var n := |sites| - 1;
      var init := sites[..n];
      var c := CarriedArgs(sites, parents, args);
      var ci := CarriedArgs(init, parents, args);
      CarriedParent(init, parents, args);
      CarriedArgsOnlyParent(init, parents, args);
      assert forall j :: 0 <= j < |init| ==> init[j] == sites[j];
      forall j | 0 <= j < |sites| && IsSet(parents, sites[j].site.path) &&
        (forall i :: j < i < |sites| ==> !IsSet(parents, sites[i].site.path))
        ensures c == args["parent" := parents[sites[j].site.path]]
      {
        if j == n {
          var x := parents[sites[n].site.path];
          assert c == ci["parent" := x];
          assert forall k :: k in c <==> k in args["parent" := x];
          assert forall k :: k in c ==> c[k] == args["parent" := x][k];
        } else {
          assert c == ci;
          assert forall i :: j < i < |init| ==> !IsSet(parents, init[i].site.path);
        }
      }
    }
  }

  /** Whether an insert result is stored: a new term, or the error of a term that exists. */
  predicate Stores(res: TermResult)
  {
    res.TermOk? || res.code == "term_exists"
  }

  /** The ID stored for a stored result: the new term's, or the error data of the existing one. */
  function StoredId(res: TermResult): Value
  {
    if res.TermOk? then res.termId else res.data
  }

  /** The wp_insert_term() call for `e`, with the arguments carried up to and including it. */
  function InsertWrite(sites: seq<Entry>, k: nat, data: Args, parents: Args): TermWrite
    requires k < |sites|
  {
    InsertTerm(sites[k].site.blogId, Get(data, "name"), Get(data, "taxonomy"), CarriedArgs(sites[..k + 1], parents, ParseTermArgs(data)))
  }

  /** The state the loop of send_to_each() carries: the term arguments, the inserts made, and the IDs collected by path. */
  datatype InsertState = InsertState(args: Args, writes: seq<TermWrite>, results: Args)

  /**
   * The loop of send_to_each(): each site's parent is set when it has one,
   * the term is inserted there, and the new term's ID, or the existing
   * term's, is kept under the site's path.
   */
  function Inserted(sites: seq<Entry>, data: Args, parents: Args, insert: TermWrite -> TermResult): (st: InsertState)
    ensures |st.writes| == |sites|
  {
    if |sites| == 0 then InsertState(ParseTermArgs(data), [], map[])
    else
      var st := Inserted(sites[..|sites| - 1], data, parents, insert);
      var e := sites[|sites| - 1];
      var a := UpdateParent(e.site.path, parents, st.args);
      var w := InsertTerm(e.site.blogId, Get(data, "name"), Get(data, "taxonomy"), a);
      var res := insert(w);
      InsertState(a, st.writes + [w], if Stores(res) then st.results[e.site.path := StoredId(res)] else st.results)
  }
  /** One more site: its parent set, its term inserted, its ID kept. */
  lemma InsertedStep(sites: seq<Entry>, i: int, data: Args, parents: Args, insert: TermWrite -> TermResult)
    requires 0 <= i < |sites|
    ensures var st := Inserted(sites[..i], data, parents, insert);
      var a := UpdateParent(sites[i].site.path, parents, st.args);
      var w := InsertTerm(sites[i].site.blogId, Get(data, "name"), Get(data, "taxonomy"), a);
      Inserted(sites[..i + 1], data, parents, insert) ==
        InsertState(a, st.writes + [w], if Stores(insert(w)) then st.results[sites[i].site.path := StoredId(insert(w))] else st.results)
  {
    assert sites[..i + 1][..i] == sites[..i];
  }


  /** An insert for a prefix of the sites is the insert for the same site of the whole list. */
  lemma InsertWritePrefix(sites: seq<Entry>, n: nat, k: nat, data: Args, parents: Args)
    requires k < n <= |sites|
    ensures InsertWrite(sites[..n], k, data, parents) == InsertWrite(sites, k, data, parents)
  {
    assert sites[..n][..k + 1] == sites[..k + 1];
  }

  /**
   * One insert per site, in the order of the sites, each with the name and
   * taxonomy of the term and the arguments carried up to that site.
   */
  lemma {:induction false} InsertedWrites(sites: seq<Entry>, data: Args, parents: Args, insert: TermWrite -> TermResult)
    ensures Inserted(sites, data, parents, insert).args == CarriedArgs(sites, parents, ParseTermArgs(data))
    ensures forall k :: 0 <= k < |sites| ==> Inserted(sites, data, parents, insert).writes[k] == InsertWrite(sites, k, data, parents)
  {
    if |sites| > 0 {
      var n := |sites| - 1;
      InsertedWrites(sites[..n], data, parents, insert);
      assert sites[..n + 1] == sites;
      forall k | 0 <= k < n ensures Inserted(sites, data, parents, insert).writes[k] == InsertWrite(sites, k, data, parents) {
        InsertWritePrefix(sites, n, k, data, parents);
      }
    }
  }

  /** The IDs kept path by path from what the host answers to each of `writes`, the last stored answer for a path winning. */
  function StoredResults(sites: seq<Entry>, writes: seq<TermWrite>, insert: TermWrite -> TermResult): Args
    requires |writes| == |sites|
  {
    if |sites| == 0 then map[]
    else
      var n := |sites| - 1;
      var ri := StoredResults(sites[..n], writes[..n], insert);
      var res := insert(writes[n]);
      if Stores(res) then ri[sites[n].site.path := StoredId(res)] else ri
  }

  /** The IDs send_to_each() collects are those its inserts answer. */
  lemma {:induction false} InsertedResults(sites: seq<Entry>, data: Args, parents: Args, insert: TermWrite -> TermResult)
    ensures var st := Inserted(sites, data, parents, insert);
      st.results == StoredResults(sites, st.writes, insert)
  {
    if |sites| > 0 {
      var n := |sites| - 1;
      InsertedResults(sites[..n], data, parents, insert);
      var st := Inserted(sites, data, parents, insert);
      assert st.writes[..n] == Inserted(sites[..n], data, parents, insert).writes;
    }
  }

  /**
   * A path is among the IDs kept exactly when some site with that path had
   * its insert stored, and what is kept for it is the ID of the last such site.
   */
  lemma {:induction false} StoredResultsExactly(sites: seq<Entry>, writes: seq<TermWrite>, insert: TermWrite -> TermResult)
    requires |writes| == |sites|
    ensures forall p :: p in StoredResults(sites, writes, insert) <==>
      exists k :: 0 <= k < |sites| && sites[k].site.path == p && Stores(insert(writes[k]))
    ensures forall p :: p in StoredResults(sites, writes, insert) ==>
      exists k :: (0 <= k < |sites| && sites[k].site.path == p && Stores(insert(writes[k])) &&
        StoredResults(sites, writes, insert)[p] == StoredId(insert(writes[k])) &&
        forall i :: k < i < |sites| && sites[i].site.path == p ==> !Stores(insert(writes[i])))
  {
    if |sites| > 0 {
      var n := |sites| - 1;
      var init := sites[..n];
      var wi := writes[..n];
      StoredResultsExactly(init, wi, insert);
      var r := StoredResults(sites, writes, insert);
      var ri := StoredResults(init, wi, insert);
      forall p | p in r
        ensures exists k :: (0 <= k < |sites| && sites[k].site.path == p && Stores(insert(writes[k])) &&
          r[p] == StoredId(insert(writes[k])) && forall i :: k < i < |sites| && sites[i].site.path == p ==> !Stores(insert(writes[i])))
      {
        if p == sites[n].site.path && Stores(insert(writes[n])) {
          assert r[p] == StoredId(insert(writes[n]));
        } else {
          assert p in ri && r[p] == ri[p];
          var k :| 0 <= k < n && init[k].site.path == p && Stores(insert(wi[k])) &&
            ri[p] == StoredId(insert(wi[k])) && forall i :: k < i < n && init[i].site.path == p ==> !Stores(insert(wi[i]));
          assert sites[k] == init[k] && wi[k] == writes[k];
          forall i | k < i < |sites| && sites[i].site.path == p ensures !Stores(insert(writes[i])) {
            if i < n {
              assert init[i] == sites[i] && wi[i] == writes[i];
            }
          }
        }
      }
      forall k | 0 <= k < |sites| && Stores(insert(writes[k]))
        ensures sites[k].site.path in r
      {
        if k < n {
          assert init[k] == sites[k] && wi[k] == writes[k];
          assert sites[k].site.path in ri;
        }
      }
    }
  }

  /** The rows of `key`, none when it has no row. */
  function Rows(m: Meta, key: string): seq<Value>
  {
    if key in m then m[key] else []
  }

  /** Whether `k` is the language meta key of a path among the results. */
  predicate IsResultKey(k: string, results: Args)
  {
    StartsWith(k, TP.LanguagePrefix) && PathOfKey(k) in results
  }

  /** A term's meta with one more language_site_<path> row for each path of `results`. */
  function WithLanguageRows(m: Meta, results: Args): (r: Meta)
    ensures forall p :: p in results ==> TP.LanguageKey(p) in r && r[TP.LanguageKey(p)] == Rows(m, TP.LanguageKey(p)) + [results[p]]
    ensures forall k :: !IsResultKey(k, results) ==> (k in r <==> k in m) && (k in m ==> r[k] == m[k])
  {
    var keys := set p | p in results :: TP.LanguageKey(p);
    var r := map k | k in m.Keys + keys :: if IsResultKey(k, results) then Rows(m, k) + [results[PathOfKey(k)]] else Rows(m, k);
    assert forall p :: p in results ==> IsResultKey(TP.LanguageKey(p), results) && PathOfKey(TP.LanguageKey(p)) == p;
    assert forall k :: k in keys ==> IsResultKey(k, results);
    r
  }

  /** The term meta store after send_to_each() adds the collected IDs to term `id`. */
  function AddedLanguageMeta(store: map<int, Meta>, id: int, results: Args): map<int, Meta>
  {
    if results == map[] then store else store[id := WithLanguageRows(MetaOf(store, id), results)]
  }

  /** One more result, on a path not yet added, is one more row under that path's key. */
  lemma WithLanguageRowsStep(m0: Meta, done: Args, p: string, v: Value)
    requires p !in done
    ensures var m := WithLanguageRows(m0, done);
      var key := TP.LanguageKey(p);
      m[key := Rows(m, key) + [v]] == WithLanguageRows(m0, done[p := v])
  {
    var m := WithLanguageRows(m0, done);
    var key := TP.LanguageKey(p);
    var lhs := m[key := Rows(m, key) + [v]];
    var rhs := WithLanguageRows(m0, done[p := v]);
    var d' := done[p := v];
    forall k
      ensures k in lhs <==> k in rhs
      ensures k in lhs ==> lhs[k] == rhs[k]
    {
      if k == key {
        assert PathOfKey(key) == p;
        assert !IsResultKey(key, done);
      } else if IsResultKey(k, done) {
        LanguageKeyOfPath(k);
        var q := PathOfKey(k);
        assert IsResultKey(k, d') && d'[q] == done[q];
      } else if IsResultKey(k, d') {
        LanguageKeyOfPath(k);
        assert false;
      }
    }
  }

  /** No results, no new rows. */
  lemma WithLanguageRowsNone(m0: Meta)
    ensures WithLanguageRows(m0, map[]) == m0
  {
    var r := WithLanguageRows(m0, map[]);
    assert forall k :: !IsResultKey(k, map[]);
    assert forall k :: k in r <==> k in m0;
  }

  /** One more result, on a path not yet added, is one more add_term_meta() row. */
  lemma AddedLanguageMetaStep(store: map<int, Meta>, id: int, done: Args, p: string, v: Value)
    requires p !in done
    ensures var s := AddedLanguageMeta(store, id, done);
      var m := MetaOf(s, id);
      var key := TP.LanguageKey(p);
      s[id := m[key := (if key in m then m[key] else []) + [v]]] == AddedLanguageMeta(store, id, done[p := v])
  {
    var m0 := MetaOf(store, id);
    var key := TP.LanguageKey(p);
    var w := WithLanguageRows(m0, done);
    if done == map[] {
      WithLanguageRowsNone(m0);
    }
    var s := AddedLanguageMeta(store, id, done);
    assert MetaOf(s, id) == w;
    WithLanguageRowsStep(m0, done, p, v);
    var z := w[key := Rows(w, key) + [v]];
    assert z == WithLanguageRows(m0, done[p := v]);
    assert done[p := v] != map[] by {
      assert p in done[p := v];
    }
    assert s[id := z] == store[id := z];
  }

  /** The store after add_term_meta() is called for the paths of `order`, in that order. */
  function AppendedRows(store: map<int, Meta>, id: int, order: seq<string>, results: Args): map<int, Meta>
    requires forall q :: q in order ==> q in results
  {
    if |order| == 0 then store
    else
      var s := AppendedRows(store, id, order[..|order| - 1], results);
      var m := MetaOf(s, id);
      var key := TP.LanguageKey(order[|order| - 1]);
      s[id := m[key := (if key in m then m[key] else []) + [results[order[|order| - 1]]]]]
  }

  /** The results for the paths of `order`. */
  function Restricted(results: Args, order: seq<string>): Args
  {
    map q | q in order && q in results :: results[q]
  }

  /** Whatever order the paths are visited in, each gets exactly one more row. */
  lemma {:induction false} AppendedRowsAll(store: map<int, Meta>, id: int, order: seq<string>, results: Args)
    requires forall q :: q in order ==> q in results
    requires forall i, j :: 0 <= i < j < |order| ==> order[i] != order[j]
    ensures AppendedRows(store, id, order, results) == AddedLanguageMeta(store, id, Restricted(results, order))
  {
    if |order| == 0 {
      assert Restricted(results, order) == map[];
    } else {
      var n := |order| - 1;
      var init := order[..n];
      var p := order[n];
      AppendedRowsAll(store, id, init, results);
      var done := Restricted(results, init);
      assert p !in done;
      AddedLanguageMetaStep(store, id, done, p, results[p]);
      assert done[p := results[p]] == Restricted(results, order) by {
        assert forall q :: q in order <==> q in init || q == p;
      }
    }
  }

  /** What the first loop of update_each() leaves: the IDs collected by path, and the meta with the sites' keys unset. */
  datatype Collection = Collection(ls: Args, rest: Meta)

  /**
   * The first loop of update_each(): a site whose key is still in the meta
   * has the first row under it collected, and the key is unset.
   */
  function Collected(sites: seq<Entry>, meta: Meta): Collection
  {
    if |sites| == 0 then Collection(map[], meta)
    else
      var c := Collected(sites[..|sites| - 1], meta);
      var path := sites[|sites| - 1].site.path;
      var key := TP.LanguageKey(path);
      Collection(if key in c.rest then c.ls[path := First(c.rest[key])] else c.ls, c.rest - {key})
  }

  /** Distinct paths have distinct language meta keys. */
  lemma LanguageKeyInjective(a: string, b: string)
    requires TP.LanguageKey(a) == TP.LanguageKey(b)
    ensures a == b
  {
    assert a == TP.LanguageKey(a)[|TP.LanguagePrefix|..];
  }

  /** The paths of the sites. */
  function SitePaths(sites: seq<Entry>): set<string>
  {
    if |sites| == 0 then {} else SitePaths(sites[..|sites| - 1]) + {sites[|sites| - 1].site.path}
  }

  /** The language meta keys of the sites. */
  function SiteKeys(sites: seq<Entry>): set<string>
  {
    if |sites| == 0 then {} else SiteKeys(sites[..|sites| - 1]) + {TP.LanguageKey(sites[|sites| - 1].site.path)}
  }

  /** A path is among the sites' paths exactly when some site has it. */
  lemma {:induction false} SitePathsExactly(sites: seq<Entry>)
    ensures forall p :: p in SitePaths(sites) <==> exists j :: 0 <= j < |sites| && sites[j].site.path == p
  {
    if |sites| > 0 {
      var n := |sites| - 1;
      var init := sites[..n];
      SitePathsExactly(init);
      forall p | p in SitePaths(sites) ensures exists j :: 0 <= j < |sites| && sites[j].site.path == p {
        if p == sites[n].site.path {
        } else {
          assert p in SitePaths(init);
          var j :| 0 <= j < n && init[j].site.path == p;
          assert sites[j].site.path == p;
        }
      }
      forall j | 0 <= j < |sites| ensures sites[j].site.path in SitePaths(sites) {
        if j < n {
          assert init[j] == sites[j];
        }
      }
    }
  }

  /** A path is among the sites' paths exactly when its key is among their keys. */
  lemma {:induction false} SiteKeysOfPaths(sites: seq<Entry>)
    ensures forall p :: p in SitePaths(sites) <==> TP.LanguageKey(p) in SiteKeys(sites)
  {
    if |sites| > 0 {
      var n := |sites| - 1;
      SiteKeysOfPaths(sites[..n]);
      forall p | TP.LanguageKey(p) in SiteKeys(sites) ensures p in SitePaths(sites) {
        if TP.LanguageKey(p) == TP.LanguageKey(sites[n].site.path) {
          LanguageKeyInjective(p, sites[n].site.path);
        }
      }
    }
  }

  /** update_each() goes on with the meta minus the key of every site. */
  lemma {:induction false} CollectedRest(sites: seq<Entry>, meta: Meta)
    ensures Collected(sites, meta).rest == meta - SiteKeys(sites)
  {
    if |sites| > 0 {
      CollectedRest(sites[..|sites| - 1], meta);
    }
  }

  /** update_each() collects, for exactly the site paths whose key the meta has, the first row under that key. */
  lemma {:induction false} CollectedIds(sites: seq<Entry>, meta: Meta)
    ensures var c := Collected(sites, meta);
      (forall p :: p in c.ls <==> p in SitePaths(sites) && TP.LanguageKey(p) in meta) &&
      (forall p :: p in c.ls ==> c.ls[p] == First(meta[TP.LanguageKey(p)]))
  {
    if |sites| > 0 {
      var n := |sites| - 1;
      var init := sites[..n];
      CollectedIds(init, meta);
      CollectedRest(init, meta);
      SiteKeysOfPaths(init);
    }
  }

  /**
   * The parents update_each() computes never name one of its own sites:
   * the language keys of the sites are unset before map_term_parents()
   * looks at the meta.
   */
  lemma UpdateParentsMissSites(sites: seq<Entry>, data: Args, meta: Meta, own: Meta)
    ensures forall k :: 0 <= k < |sites| ==> sites[k].site.path !in MapTermParents(data, Collected(sites, meta).rest, own)
  {
    CollectedRest(sites, meta);
    SitePathsExactly(sites);
    SiteKeysOfPaths(sites);
    forall k | 0 <= k < |sites| ensures TP.LanguageKey(sites[k].site.path) in SiteKeys(sites) {
      assert sites[k].site.path in SitePaths(sites);
    }
  }

  /** The outcome of update_each() for one site when it is given arguments `args`. */
  function UpdateWrite(e: Entry, ls: Args, taxonomy: Value, args: Args): TermWrite
    requires e.site.path in ls
  {
    UpdateTerm(e.site.blogId, ls[e.site.path], taxonomy, args)
  }

  /** The state the loop of update_each() carries: the term arguments, the updates made, and the failures logged by blog ID. */
  datatype UpdateState = UpdateState(args: Args, writes: seq<TermWrite>, failed: map<int, Failure>)

  /**
   * The loop of update_each(): a site without an ID fails with no language
   * meta; one whose term is gone fails as such; the others are updated with
   * the arguments carried so far, and a WP_Error is recorded as the failure.
   */
  function Updated(sites: seq<Entry>, ls: Args, parents: Args, args: Args, taxonomy: Value,
                   found: (int, Value) -> bool, update: TermWrite -> TermResult): UpdateState
  {
    if |sites| == 0 then UpdateState(args, [], map[])
    else
      var st := Updated(sites[..|sites| - 1], ls, parents, args, taxonomy, found, update);
      var e := sites[|sites| - 1];
      var b := e.site.blogId;
      if !IsSet(ls, e.site.path) then st.(failed := st.failed[b := NoLanguageMeta])
      else if !found(b, ls[e.site.path]) then st.(failed := st.failed[b := TermGone])
      else
        var a := UpdateParent(e.site.path, parents, st.args);
        var w := UpdateWrite(e, ls, taxonomy, a);
        var res := update(w);
        var failed := if res.TermError? then st.failed[b := UpdateFailed(res.code, res.data)] else st.failed;
        UpdateState(a, st.writes + [w], failed)
  }

  /** What update_each() makes of one site, given the arguments `args`: its update, or the reason it fails. */
  function SiteOutcome(e: Entry, ls: Args, args: Args, taxonomy: Value,
                       found: (int, Value) -> bool, update: TermWrite -> TermResult): Option<Failure>
  {
    if !IsSet(ls, e.site.path) then Some(NoLanguageMeta)
    else if !found(e.site.blogId, ls[e.site.path]) then Some(TermGone)
    else
      var res := update(UpdateWrite(e, ls, taxonomy, args));
      if res.TermError? then Some(UpdateFailed(res.code, res.data)) else None
  }

  /**
   * When no site has a parent of its own, every update carries the parsed
   * arguments unchanged, every update is of a site whose ID is known and
   * whose term still exists, and a blog ID is logged as failed exactly
   * when one of its sites fails, with the failure of such a site.
   */
  lemma {:induction false} UpdatedWithoutParents(sites: seq<Entry>, ls: Args, parents: Args, args: Args, taxonomy: Value,
                                                 found: (int, Value) -> bool, update: TermWrite -> TermResult)
    requires forall k :: 0 <= k < |sites| ==> sites[k].site.path !in parents
    ensures var st := Updated(sites, ls, parents, args, taxonomy, found, update);
      st.args == args &&
      (forall w :: w in st.writes ==> exists k :: (0 <= k < |sites| && IsSet(ls, sites[k].site.path) &&
         found(sites[k].site.blogId, ls[sites[k].site.path]) && w == UpdateWrite(sites[k], ls, taxonomy, args))) &&
      (forall b :: b in st.failed <==> exists k :: (0 <= k < |sites| && sites[k].site.blogId == b &&
         SiteOutcome(sites[k], ls, args, taxonomy, found, update).Some?)) &&
      (forall b :: b in st.failed ==> exists k :: (0 <= k < |sites| && sites[k].site.blogId == b &&
         SiteOutcome(sites[k], ls, args, taxonomy, found, update) == Some(st.failed[b])))
  {
    if |sites| > 0 {
      var n := |sites| - 1;
      var init := sites[..n];
      var e := sites[n];
      forall k | 0 <= k < |init| ensures init[k].site.path !in parents {
        assert init[k] == sites[k];
      }
      UpdatedWithoutParents(init, ls, parents, args, taxonomy, found, update);
      var st := Updated(sites, ls, parents, args, taxonomy, found, update);
      var si := Updated(init, ls, parents, args, taxonomy, found, update);
      var o := SiteOutcome(e, ls, args, taxonomy, found, update);
      assert st.args == args;
      forall w | w in st.writes
        ensures exists k :: (0 <= k < |sites| && IsSet(ls, sites[k].site.path) &&
          found(sites[k].site.blogId, ls[sites[k].site.path]) && w == UpdateWrite(sites[k], ls, taxonomy, args))
      {
        if w in si.writes {
          var k :| 0 <= k < |init| && IsSet(ls, init[k].site.path) &&
            found(init[k].site.blogId, ls[init[k].site.path]) && w == UpdateWrite(init[k], ls, taxonomy, args);
          assert sites[k] == init[k];
        } else {
          assert w == UpdateWrite(sites[n], ls, taxonomy, args);
        }
      }
      forall b | b in st.failed
        ensures exists k :: (0 <= k < |sites| && sites[k].site.blogId == b &&
          SiteOutcome(sites[k], ls, args, taxonomy, found, update) == Some(st.failed[b]))
      {
        if b == e.site.blogId && o.Some? {
          assert SiteOutcome(sites[n], ls, args, taxonomy, found, update) == Some(st.failed[b]);
        } else {
          assert b in si.failed && st.failed[b] == si.failed[b];
          var k :| 0 <= k < |init| && init[k].site.blogId == b &&
            SiteOutcome(init[k], ls, args, taxonomy, found, update) == Some(si.failed[b]);
          assert sites[k] == init[k];
        }
      }
      forall k | 0 <= k < |sites| && SiteOutcome(sites[k], ls, args, taxonomy, found, update).Some?
        ensures sites[k].site.blogId in st.failed
      {
        if k < n {
          assert init[k] == sites[k];
          assert sites[k].site.blogId in si.failed;
        }
      }
    }
  }

  /**
   * update_each() never re-parents: every update it makes carries the
   * parsed term arguments exactly as parse_term_args() gave them.
   */
  lemma UpdateEachKeepsArgs(sites: seq<Entry>, data: Args, meta: Meta, own: Meta,
                            found: (int, Value) -> bool, update: TermWrite -> TermResult)
    ensures var st := Updated(sites, Collected(sites, meta).ls, MapTermParents(data, Collected(sites, meta).rest, own),
        ParseTermArgs(data), Get(data, "taxonomy"), found, update);
      forall w :: w in st.writes ==> w.UpdateTerm? && w.args == ParseTermArgs(data)
  {
    var ls := Collected(sites, meta).ls;
    var parents := MapTermParents(data, Collected(sites, meta).rest, own);
    UpdateParentsMissSites(sites, data, meta, own);
    UpdatedWithoutParents(sites, ls, parents, ParseTermArgs(data), Get(data, "taxonomy"), found, update);
  }

  /** A JPry_Taxonomy_Propagation object. */
  class Taxonomy {
    /** function_exists( 'add_term_meta' ), fixed when the object is built. */
    const usingTermmeta: bool
    const siteList: SiteList

    constructor (usingTermmeta: bool, siteList: SiteList)
      ensures this.usingTermmeta == usingTermmeta && this.siteList == siteList
    {
      this.usingTermmeta := usingTermmeta;
      this.siteList := siteList;
    }

    /** The first loop of update_each(): collect each site's ID and unset its key. */
    method CollectLanguageSites(sites: seq<Entry>, meta: Meta) returns (ls: Args, rest: Meta)
      ensures Collection(ls, rest) == Collected(sites, meta)
    {
      ls, rest := map[], meta;
      var i := 0;
      while i < |sites|
        invariant 0 <= i <= |sites|
        invariant Collection(ls, rest) == Collected(sites[..i], meta)
      {
        assert sites[..i + 1][..i] == sites[..i];
        var path := sites[i].site.path;
        var key := TP.LanguageKey(path);
        if key in rest {
          ls := ls[path := First(rest[key])];
        }
        rest := rest - {key};
        i := i + 1;
      }
      assert sites[..i] == sites;
    }

    /** The second loop of update_each(). */
    method UpdateSites(host: Host, sites: seq<Entry>, ls: Args, parents: Args, args0: Args, taxonomy: Value,
                       found: (int, Value) -> bool, update: TermWrite -> TermResult) returns (failed: map<int, Failure>)
      modifies host`termWrites
      ensures var st := Updated(sites, ls, parents, args0, taxonomy, found, update);
        host.termWrites == old(host.termWrites) + st.writes && failed == st.failed
    {
      var args := args0;
      failed := map[];
      var i := 0;
      while i < |sites|
        invariant 0 <= i <= |sites|
        invariant var st := Updated(sites[..i], ls, parents, args0, taxonomy, found, update);
          args == st.args && failed == st.failed && host.termWrites == old(host.termWrites) + st.writes
      {
        assert sites[..i + 1][..i] == sites[..i];
        var e := sites[i];
        var b := e.site.blogId;
        if !IsSet(ls, e.site.path) {
          failed := failed[b := NoLanguageMeta];
        } else if !found(b, ls[e.site.path]) {
          failed := failed[b := TermGone];
        } else {
          args := UpdateParent(e.site.path, parents, args);
          var w := UpdateTerm(b, ls[e.site.path], taxonomy, args);
          host.WriteTerm(w);
          var res := update(w);
          if res.TermError? {
            failed := failed[b := UpdateFailed(res.code, res.data)];
          }
        }
        i := i + 1;
      }
      assert sites[..i] == sites;
    }

    /**
     * update_each: every site's copy of the term is updated under the ID its
     * language meta holds; the sites that could not be are returned by blog
     * ID, as the source logs them.
     */
    method UpdateEach(host: Host, data: Args, meta: Meta, found: (int, Value) -> bool, update: TermWrite -> TermResult)
      returns (failed: map<int, Failure>)
      modifies siteList, host`sitesCache, host`termWrites
      ensures old(siteList.sites) != [] ==> siteList.sites == old(siteList.sites) && host.sitesCache == old(host.sitesCache)
      ensures var sites := siteList.sites;
        var st := Updated(sites, Collected(sites, meta).ls,
          MapTermParents(data, Collected(sites, meta).rest, MetaOf(old(host.termMeta), IntOf(Get(data, "term_id")))),
          ParseTermArgs(data), Get(data, "taxonomy"), found, update);
        host.termWrites == old(host.termWrites) + st.writes && failed == st.failed
    {
      var own := MetaOf(host.termMeta, IntOf(Get(data, "term_id")));
      var sites := siteList.Sites(host);
      var ls, rest := CollectLanguageSites(sites, meta);
      var parents := MapTermParents(data, rest, own);
      var args := ParseTermArgs(data);
      failed := UpdateSites(host, sites, ls, parents, args, Get(data, "taxonomy"), found, update);
    }

    /** What send_to_each() keeps of an insert: the new term's ID, or the existing term's, under the site's path. */
    method CollectResult(results: Args, path: string, res: TermResult) returns (r: Args)
      ensures Stores(res) ==> r == results[path := StoredId(res)]
      ensures !Stores(res) ==> r == results
    {
      r := results;
      if res.TermError? {
        if res.code == "term_exists" {
          r := results[path := res.data];
        }
        return;
      }
      r := results[path := res.termId];
    }

    /** The loop of send_to_each() over the sites: one insert each, collecting the IDs. */
    method InsertSites(host: Host, sites: seq<Entry>, data: Args, parents: Args, insert: TermWrite -> TermResult)
      returns (results: Args)
      modifies host`termWrites
      ensures var st := Inserted(sites, data, parents, insert);
        host.termWrites == old(host.termWrites) + st.writes && results == st.results
    {
      var args := ParseTermArgs(data);
      results := map[];
      var i := 0;
      while i < |sites|
        invariant 0 <= i <= |sites|
        invariant var st := Inserted(sites[..i], data, parents, insert);
          args == st.args && results == st.results && host.termWrites == old(host.termWrites) + st.writes
      {
        InsertedStep(sites, i, data, parents, insert);
        args := UpdateParent(sites[i].site.path, parents, args);
        var w := InsertTerm(sites[i].site.blogId, Get(data, "name"), Get(data, "taxonomy"), args);
        host.WriteTerm(w);
        var res := insert(w);
        results := CollectResult(results, sites[i].site.path, res);
        i := i + 1;
      }
      assert sites[..i] == sites;
    }

    /** The closing loop of send_to_each(): one add_term_meta() row per collected path. */
    method AddLanguageMeta(host: Host, objectId: int, results: Args)
      modifies host`termMeta
      ensures host.termMeta == AddedLanguageMeta(old(host.termMeta), objectId, results)
    {
      ghost var store := host.termMeta;
      var todo := results.Keys;
      ghost var order: seq<string> := [];
      while todo != {}
        invariant todo <= results.Keys
        invariant forall q :: q in order <==> q in results && q !in todo
        invariant forall i, j :: 0 <= i < j < |order| ==> order[i] != order[j]
        invariant host.termMeta == AppendedRows(store, objectId, order, results)
        decreases |todo|
      {
        var p :| p in todo;
        host.AddTermMeta(objectId, TP.LanguageKey(p), results[p]);
        order := order + [p];
        assert order[..|order| - 1] + [p] == order;
        todo := todo - {p};
      }
      AppendedRowsAll(store, objectId, order, results);
      assert Restricted(results, order) == results;
    }

    /** The insert branch of send_to_each(): insert on every site, then record the IDs when term meta is available. */
    method InsertEach(host: Host, objectId: int, data: Args, meta: Meta, sites: seq<Entry>, insert: TermWrite -> TermResult)
      modifies host`termWrites, host`termMeta
      ensures var parents := MapTermParents(data, meta, MetaOf(old(host.termMeta), IntOf(Get(data, "term_id"))));
        var st := Inserted(sites, data, parents, insert);
        host.termWrites == old(host.termWrites) + st.writes &&
        host.termMeta == if usingTermmeta then AddedLanguageMeta(old(host.termMeta), objectId, st.results)
          else old(host.termMeta)
    {
      var parents := MapTermParents(data, meta, MetaOf(host.termMeta, IntOf(Get(data, "term_id"))));
      var results := InsertSites(host, sites, data, parents, insert);
      if usingTermmeta {
        AddLanguageMeta(host, objectId, results);
      }
    }

    /**
     * send_to_each: when the term already has an ID on the site stored with
     * key 1, the copies are updated; otherwise the term is inserted on every
     * site and the IDs are recorded.
     */
    method SendToEach(host: Host, objectId: int, data: Args, meta: Meta,
                      insert: TermWrite -> TermResult, found: (int, Value) -> bool, update: TermWrite -> TermResult)
      returns (failed: map<int, Failure>)
      modifies siteList, host`sitesCache, host`termWrites, host`termMeta
      ensures old(siteList.sites) != [] ==> siteList.sites == old(siteList.sites)
      ensures old(siteList.sites) == [] ==>
        siteList.sites == SitesLookup(old(host.sitesCache), host.networks, PropagationSitesArgs(host.mainSite))
      ensures HasLanguageMeta(siteList.sites, meta) ==> host.termMeta == old(host.termMeta)
      ensures !HasLanguageMeta(siteList.sites, meta) ==> failed == map[]
      ensures !HasLanguageMeta(siteList.sites, meta) ==>
        var parents := MapTermParents(data, meta, MetaOf(old(host.termMeta), IntOf(Get(data, "term_id"))));
        var st := Inserted(siteList.sites, data, parents, insert);
        host.termWrites == old(host.termWrites) + st.writes &&
        host.termMeta == if usingTermmeta then AddedLanguageMeta(old(host.termMeta), objectId, st.results)
          else old(host.termMeta)
      ensures HasLanguageMeta(siteList.sites, meta) ==>
        var sites := siteList.sites;
        var st := Updated(sites, Collected(sites, meta).ls,
          MapTermParents(data, Collected(sites, meta).rest, MetaOf(old(host.termMeta), IntOf(Get(data, "term_id")))),
          ParseTermArgs(data), Get(data, "taxonomy"), found, update);
        host.termWrites == old(host.termWrites) + st.writes && failed == st.failed
    {
      var sites := siteList.Sites(host);
      if |sites| > 1 && TP.LanguageKey(PathAt(sites, 1)) in meta {
        failed := UpdateEach(host, data, meta, found, update);
        return;
      }
      failed := map[];
      InsertEach(host, objectId, data, meta, sites, insert);
    }

    /**
     * handle_data: the term's own meta, when term meta is available, goes
     * with the term to send_to_each(); the term's ID is the object the
     * language meta is added to.
     */
    method HandleData(host: Host, term: Args,
                      insert: TermWrite -> TermResult, found: (int, Value) -> bool, update: TermWrite -> TermResult)
      returns (failed: map<int, Failure>)
      modifies siteList, host`sitesCache, host`termWrites, host`termMeta
      ensures var id := IntOf(Get(term, "term_id"));
        var meta := if usingTermmeta then MetaOf(old(host.termMeta), id) else map[];
        !HasLanguageMeta(siteList.sites, meta) ==>
        var parents := MapTermParents(term, meta, MetaOf(old(host.termMeta), id));
        var st := Inserted(siteList.sites, term, parents, insert);
        host.termWrites == old(host.termWrites) + st.writes &&
        host.termMeta == if usingTermmeta then AddedLanguageMeta(old(host.termMeta), id, st.results)
          else old(host.termMeta)
    {
      var id := IntOf(Get(term, "term_id"));
      var meta := if usingTermmeta then MetaOf(host.termMeta, id) else map[];
      failed := SendToEach(host, id, term, meta, insert, found, update);
    }
  }
}
