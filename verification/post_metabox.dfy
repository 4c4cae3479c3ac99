/**
 * JPry_Post_Metabox: featured-post queries behind a transient cache, and
 * the acf/update_value filter that clears that cache when a post's
 * featured flags change. A cached query stores the matching post IDs
 * under its key; the query handed back asks for those IDs only (never for
 * all posts). The host's WP_Query is an oracle: `queryIds` gives the IDs an
 * ID-only query finds, `runPosts` the posts of the final query.
 */
module PostMetabox {
  import opened Php
  import opened Host

  const HomeKey := "jpry_featured_on_home"
  const CategoryKey := "jpry_featured_on_category"
  const ArchivePrefix := "jpry_featured_on_category_"
  const HomeCategoryKey := "jpry_featured_category_on_home"
  const SingleCategoryPrefix := "jpry_featured_category_on_home_"

  /** The key get_category_ids() reads, spelled as in the plugin. */
  const CategoryIdsReadKey := "jpry_cateogory_ids"
  /** The key get_category_ids() writes. */
  const CategoryIdsWriteKey := "jpry_category_ids"

  const CategorySlugs: seq<string> := ["fantasy-sports", "gaming", "poker"]

  /** `false === get_transient( $key )`. */
  predicate Missing(t: map<string, Value>, key: string)
  {
    GetTransient(t, key) == Bool(false)
  }

  /** "jpry_featured_on_category_{$category}". */
  function ArchiveKey(category: Value): string
  {
    ArchivePrefix + StrOf(category)
  }

  /** "jpry_featured_category_on_home_{$category}". */
  function SingleCategoryKey(category: Value): string
  {
    SingleCategoryPrefix + StrOf(category)
  }

  /** The query of get_home_featured_posts(). */
  const HomeArgs: Args := map[
    "meta_key" := Str("featured_on_home"), "meta_value" := Int(1), "nopaging" := Bool(true), "post_type" := Str("post")]

  /** The query of get_archive_featured_posts( $category ). */
  function ArchiveArgs(category: Value): Args
  {
    map["cat" := category, "meta_key" := Str("featured_on_category"), "meta_value" := Int(1),
        "nopaging" := Bool(true), "post_type" := Str("post")]
  }

  /** The query of get_single_category_post_id( $category, $post__not_in ). */
  function SingleCategoryArgs(category: Value, notIn: seq<Value>): Args
  {
    ArchiveArgs(category)["posts_per_page" := Int(1)]["post__not_in" := List(notIn)]
  }

  /** The ID-only query get_cached_query() runs on a miss (with the plugin's own spelling of one key). */
  function IdQueryArgs(args: Args): Args
  {
    args["fields" := Str("ids")]["ignore_stikcy_posts" := Bool(true)]
  }

  /** The IDs get_cached_query() goes on with: the cached ones, or those the ID query finds. */
  function CachedIds(t: map<string, Value>, key: string, args: Args, queryIds: Args -> Value): Value
  {
    if Missing(t, key) then queryIds(IdQueryArgs(args)) else t[key]
  }

  /** The transients after get_cached_query(): a miss stores what the ID query found. */
  function CachedStore(t: map<string, Value>, key: string, args: Args, queryIds: Args -> Value): (r: map<string, Value>)
    ensures !Missing(t, key) ==> r == t
    ensures forall k :: k != key ==> (k in r <==> k in t) && (k in t ==> r[k] == t[k])
  {
    if Missing(t, key) then t[key := queryIds(IdQueryArgs(args))] else t
  }

  /** The WP_Query get_cached_query() builds from the IDs. */
  function FinalQuery(ids: Value, args: Args): (q: Args)
    ensures q.Keys == {"ignore_sticky_posts", "post__in", "orderby"}
    ensures Truthy(q["post__in"])
    ensures Truthy(ids) ==> q["post__in"] == ids
    ensures !Truthy(ids) ==> q["post__in"] == List([Int(0)])
    ensures q["orderby"] == if IsSet(args, "orderby") then args["orderby"] else Str("date")
  {
    map["ignore_sticky_posts" := Bool(true),
        "post__in" := if Truthy(ids) then ids else List([Int(0)]),
        "orderby" := if IsSet(args, "orderby") then args["orderby"] else Str("date")]
  }

  /**
   * get_cached_query: the IDs come from the transient on a hit, and from the
   * ID query (whose answer is then stored) on a miss.
   */
  method GetCachedQuery(host: Host, key: string, args: Args, queryIds: Args -> Value) returns (q: Args)
    modifies host`transients
    ensures q == FinalQuery(CachedIds(old(host.transients), key, args, queryIds), args)
    ensures host.transients == CachedStore(old(host.transients), key, args, queryIds)
  {
    var ids := GetTransient(host.transients, key);
    var queryArgs := args;
    if ids == Bool(false) {
      queryArgs := queryArgs["fields" := Str("ids")];
      queryArgs := queryArgs["ignore_stikcy_posts" := Bool(true)];
      ids := queryIds(queryArgs);
      host.SetTransient(key, ids);
    }
    var orderby := if IsSet(queryArgs, "orderby") then queryArgs["orderby"] else Str("date");
    if !Truthy(ids) {
      ids := List([Int(0)]);
    }
    q := map["ignore_sticky_posts" := Bool(true), "post__in" := ids, "orderby" := orderby];
  }

  /**
   * Once a query has stored its IDs, the next lookup of that key hits: it
   * gives the stored IDs whatever the ID query would now answer, and stores
   * nothing more.
   */
  lemma CachedQueryHitsAfterMiss(t: map<string, Value>, key: string, args: Args, queryIds: Args -> Value,
                                 later: Args, laterIds: Args -> Value)
    requires Missing(t, key) && queryIds(IdQueryArgs(args)) != Bool(false)
    ensures var t' := CachedStore(t, key, args, queryIds);
      CachedIds(t', key, later, laterIds) == queryIds(IdQueryArgs(args)) &&
      CachedStore(t', key, later, laterIds) == t'
  {
  }

  /** get_home_featured_posts: the home query, cached under `jpry_featured_on_home`. */
  method GetHomeFeaturedPosts(host: Host, queryIds: Args -> Value) returns (q: Args)
    modifies host`transients
    ensures q == FinalQuery(CachedIds(old(host.transients), HomeKey, HomeArgs, queryIds), HomeArgs)
    ensures host.transients == CachedStore(old(host.transients), HomeKey, HomeArgs, queryIds)
  {
    q := GetCachedQuery(host, HomeKey, HomeArgs, queryIds);
  }

  /** get_archive_featured_posts: the category query, cached under the category's own key. */
  method GetArchiveFeaturedPosts(host: Host, category: Value, queryIds: Args -> Value) returns (q: Args)
    modifies host`transients
    ensures q == FinalQuery(CachedIds(old(host.transients), ArchiveKey(category), ArchiveArgs(category), queryIds), ArchiveArgs(category))
    ensures host.transients == CachedStore(old(host.transients), ArchiveKey(category), ArchiveArgs(category), queryIds)
  {
    q := GetCachedQuery(host, ArchiveKey(category), ArchiveArgs(category), queryIds);
  }

  /** The array get_category_ids() builds on a miss: slug to `$cat->cat_ID`, `catId` standing for get_category_by_slug(). */
  function CategoryMap(slugs: seq<string>, catId: string -> Value): map<string, Value>
  {
    if |slugs| == 0 then map[]
    else
      var n := |slugs| - 1;
      CategoryMap(slugs[..n], catId)[slugs[n] := catId(slugs[n])]
  }

  /** The array has exactly the slugs as keys, each mapped to its category's ID. */
  lemma {:induction false} CategoryMapExactly(slugs: seq<string>, catId: string -> Value)
    ensures forall s :: s in CategoryMap(slugs, catId) <==> s in slugs
    ensures forall s :: s in CategoryMap(slugs, catId) ==> CategoryMap(slugs, catId)[s] == catId(s)
  {
    if |slugs| > 0 {
      var n := |slugs| - 1;
      CategoryMapExactly(slugs[..n], catId);
      assert forall s :: s in slugs <==> s in slugs[..n] || s == slugs[n];
    }
  }

  /** The IDs of the categories in the order of their slugs. */
  function SlugIds(slugs: seq<string>, catId: string -> Value): seq<Value>
  {
    if |slugs| == 0 then [] else SlugIds(slugs[..|slugs| - 1], catId) + [catId(slugs[|slugs| - 1])]
  }

  /** The k-th ID is the ID of the k-th slug. */
  lemma {:induction false} SlugIdsInOrder(slugs: seq<string>, catId: string -> Value)
    ensures |SlugIds(slugs, catId)| == |slugs|
    ensures forall k :: 0 <= k < |slugs| ==> SlugIds(slugs, catId)[k] == catId(slugs[k])
  {
    if |slugs| > 0 {
      SlugIdsInOrder(slugs[..|slugs| - 1], catId);
    }
  }

  /** What get_category_ids() gives, with the order foreach walks it in, and the transients after it. */
  datatype CategoryIds = CategoryIds(ids: Value, order: seq<Value>, transients: map<string, Value>)

  function CategoryIdsOf(t: map<string, Value>, catId: string -> Value, cachedOrder: Value -> seq<Value>): CategoryIds
  {
    if !Missing(t, CategoryIdsReadKey) then CategoryIds(t[CategoryIdsReadKey], cachedOrder(t[CategoryIdsReadKey]), t)
    else
      var ids := Arr(CategoryMap(CategorySlugs, catId));
      CategoryIds(ids, SlugIds(CategorySlugs, catId), t[CategoryIdsWriteKey := ids])
  }

  /**
   * A cached array is handed back as it is; otherwise the array maps each
   * of the three slugs to its category's ID, is walked in the slugs'
   * order, and is stored.
   */
  lemma CategoryIdsCases(t: map<string, Value>, catId: string -> Value, cachedOrder: Value -> seq<Value>)
    ensures var c := CategoryIdsOf(t, catId, cachedOrder);
      !Missing(t, CategoryIdsReadKey) ==> c.ids == t[CategoryIdsReadKey] && c.order == cachedOrder(c.ids) && c.transients == t
    ensures var c := CategoryIdsOf(t, catId, cachedOrder);
      Missing(t, CategoryIdsReadKey) ==>
        c.ids.Arr? && (forall s :: s in c.ids.fields <==> s in CategorySlugs) &&
        (forall s :: s in c.ids.fields ==> c.ids.fields[s] == catId(s)) &&
        c.order == [catId("fantasy-sports"), catId("gaming"), catId("poker")] && c.transients == t[CategoryIdsWriteKey := c.ids]
  {
    CategoryMapExactly(CategorySlugs, catId);
    SlugIdsInOrder(CategorySlugs, catId);
  }

  /**
   * get_category_ids reads a key it never writes: on a host where nothing
   * else writes that key, every call builds the array again.
   */
  lemma CategoryIdsNeverHit(t: map<string, Value>, catId: string -> Value, cachedOrder: Value -> seq<Value>)
    requires Missing(t, CategoryIdsReadKey)
    ensures Missing(CategoryIdsOf(t, catId, cachedOrder).transients, CategoryIdsReadKey)
  {
    CategoryIdsKeysDiffer();
  }

  /**
   * get_category_ids: the category IDs, and the order foreach walks them in:
   * the slugs' order for a freshly built array, and `cachedOrder` for a
   * cached one.
   */
  method GetCategoryIds(host: Host, catId: string -> Value, cachedOrder: Value -> seq<Value>) returns (ids: Value, order: seq<Value>)
    modifies host`transients
    ensures CategoryIds(ids, order, host.transients) == CategoryIdsOf(old(host.transients), catId, cachedOrder)
  {
    ids := GetTransient(host.transients, CategoryIdsReadKey);
    if ids != Bool(false) {
      order := cachedOrder(ids);
      return;
    }
    var built;
    built, order := BuildCategoryIds(CategorySlugs, catId);
    ids := Arr(built);
    host.SetTransient(CategoryIdsWriteKey, ids);
  }

  /** The foreach over the slugs in get_category_ids(). */
  method BuildCategoryIds(slugs: seq<string>, catId: string -> Value) returns (built: map<string, Value>, order: seq<Value>)
    ensures built == CategoryMap(slugs, catId) && order == SlugIds(slugs, catId)
  {
    built, order := map[], [];
    var i := 0;
    while i < |slugs|
      invariant 0 <= i <= |slugs|
      invariant built == CategoryMap(slugs[..i], catId)
      invariant order == SlugIds(slugs[..i], catId)
    {
      assert slugs[..i + 1][..i] == slugs[..i];
      assert CategoryMap(slugs[..i + 1], catId) == CategoryMap(slugs[..i], catId)[slugs[i] := catId(slugs[i])];
      assert SlugIds(slugs[..i + 1], catId) == SlugIds(slugs[..i], catId) + [catId(slugs[i])];
      var slug := slugs[i];
      built := built[slug := catId(slug)];
      order := order + [catId(slug)];
      i := i + 1;
    }
    assert slugs[..i] == slugs;
  }

  /** The ID of the first post a query finds, or 0 when it finds none. */
  function FirstPostId(posts: seq<int>): Value
  {
    if |posts| > 0 then Int(posts[0]) else Int(0)
  }

  /** get_single_category_post_id: the first featured post of a category, leaving out `notIn`. */
  method GetSingleCategoryPostId(host: Host, category: Value, notIn: seq<Value>, queryIds: Args -> Value,
                                 runPosts: Args -> seq<int>) returns (id: Value)
    modifies host`transients
    ensures id == FirstPostId(runPosts(FinalQuery(
      CachedIds(old(host.transients), SingleCategoryKey(category), SingleCategoryArgs(category, notIn), queryIds),
      SingleCategoryArgs(category, notIn))))
    ensures host.transients == CachedStore(old(host.transients), SingleCategoryKey(category), SingleCategoryArgs(category, notIn), queryIds)
  {
    var q := GetCachedQuery(host, SingleCategoryKey(category), SingleCategoryArgs(category, notIn), queryIds);
    var posts := runPosts(q);
    if |posts| > 0 {
      return Int(posts[0]);
    }
    return Int(0);
  }

  /** The transients and the picked post IDs after the loop of get_home_category_featured_posts() over `cats`. */
  datatype Picks = Picks(transients: map<string, Value>, postIds: seq<Value>)

  function CategoryPicks(t: map<string, Value>, cats: seq<Value>, queryIds: Args -> Value, runPosts: Args -> seq<int>): (p: Picks)
    ensures |p.postIds| == |cats|
  {
    if |cats| == 0 then Picks(t, [])
    else
      var n := |cats| - 1;
      var st := CategoryPicks(t, cats[..n], queryIds, runPosts);
      var key := SingleCategoryKey(cats[n]);
      var args := SingleCategoryArgs(cats[n], st.postIds);
      Picks(CachedStore(st.transients, key, args, queryIds),
            st.postIds + [FirstPostId(runPosts(FinalQuery(CachedIds(st.transients, key, args, queryIds), args)))])
  }

  /** The picking loop writes no transient but the per-category keys of the categories it walks. */
  lemma {:induction false} CategoryPicksWrites(t: map<string, Value>, cats: seq<Value>, queryIds: Args -> Value,
                                               runPosts: Args -> seq<int>, key: string)
    requires forall i :: 0 <= i < |cats| ==> key != SingleCategoryKey(cats[i])
    ensures var r := CategoryPicks(t, cats, queryIds, runPosts).transients;
      (key in r <==> key in t) && (key in t ==> r[key] == t[key])
  {
    if |cats| > 0 {
      var n := |cats| - 1;
      forall i | 0 <= i < n ensures key != SingleCategoryKey(cats[..n][i]) {
        assert cats[..n][i] == cats[i];
      }
      CategoryPicksWrites(t, cats[..n], queryIds, runPosts, key);
    }
  }

  /** The query of get_home_category_featured_posts() over the picked IDs. */
  function HomeCategoryArgs(postIds: seq<Value>): Args
  {
    map["ignore_sticky_posts" := Bool(true), "post__in" := List(postIds)]
  }

  /**
   * get_home_category_featured_posts: one featured post per category, each
   * pick leaving out the posts picked before it, then the query over the
   * picks, cached under `jpry_featured_category_on_home`.
   */
  method GetHomeCategoryFeaturedPosts(host: Host, catId: string -> Value, cachedOrder: Value -> seq<Value>,
                                      queryIds: Args -> Value, runPosts: Args -> seq<int>) returns (q: Args)
    modifies host`transients
    ensures var c := CategoryIdsOf(old(host.transients), catId, cachedOrder);
      var p := CategoryPicks(c.transients, c.order, queryIds, runPosts);
      q == FinalQuery(CachedIds(p.transients, HomeCategoryKey, HomeCategoryArgs(p.postIds), queryIds), HomeCategoryArgs(p.postIds)) &&
      host.transients == CachedStore(p.transients, HomeCategoryKey, HomeCategoryArgs(p.postIds), queryIds)
  {
    var ids, cats := GetCategoryIds(host, catId, cachedOrder);
    var postIds := PickCategoryPosts(host, cats, queryIds, runPosts);
    q := GetCachedQuery(host, HomeCategoryKey, HomeCategoryArgs(postIds), queryIds);
  }

  /** The loop of get_home_category_featured_posts(): each pick leaves out the posts picked before it. */
  method PickCategoryPosts(host: Host, cats: seq<Value>, queryIds: Args -> Value, runPosts: Args -> seq<int>) returns (postIds: seq<Value>)
    modifies host`transients
    ensures Picks(host.transients, postIds) == CategoryPicks(old(host.transients), cats, queryIds, runPosts)
  {
    postIds := [];
    var i := 0;
    while i < |cats|
      invariant 0 <= i <= |cats|
      invariant Picks(host.transients, postIds) == CategoryPicks(old(host.transients), cats[..i], queryIds, runPosts)
    {
      assert cats[..i + 1][..i] == cats[..i];
      var id := GetSingleCategoryPostId(host, cats[i], postIds, queryIds, runPosts);
      postIds := postIds + [id];
      i := i + 1;
    }
    assert cats[..i] == cats;
  }

  /** The archive keys of a post's categories. */
  function ArchiveKeys(cats: seq<Value>): set<string>
  {
    if |cats| == 0 then {}
    else
      var n := |cats| - 1;
      ArchiveKeys(cats[..n]) + {ArchiveKey(cats[n])}
  }

  /** A key is among the archive keys exactly when it is the archive key of one of the categories. */
  lemma {:induction false} ArchiveKeysExactly(cats: seq<Value>)
    ensures forall c :: c in cats ==> ArchiveKey(c) in ArchiveKeys(cats)
    ensures forall k :: k in ArchiveKeys(cats) ==> exists c :: c in cats && k == ArchiveKey(c)
  {
    if |cats| > 0 {
      var n := |cats| - 1;
      ArchiveKeysExactly(cats[..n]);
      assert cats == cats[..n] + [cats[n]];
    }
  }

  /** "jpry_{$field['name']}" for the two fields of the plugin. */
  lemma FieldKeys()
    ensures "jpry_" + "featured_on_category" == CategoryKey
    ensures "jpry_" + "featured_on_home" == HomeKey
  {
  }

  /** Deleting one more key is deleting the larger set. */
  lemma DeleteOneMore(m: map<string, Value>, gone: set<string>, k: string)
    ensures (m - gone) - {k} == m - (gone + {k})
  {
  }

  /** The transients clear_transients() deletes when the field `name` of a post in `cats` is saved. */
  function ClearedKeys(name: string, cats: seq<Value>): set<string>
  {
    if name == "featured_on_category" then {CategoryKey} + ArchiveKeys(cats)
    else if name == "featured_on_home" then {HomeKey, HomeCategoryKey}
    else {}
  }

  /**
   * clear_transients: `cats` stands for wp_get_post_categories( $post_id ).
   * The field's value goes back to ACF untouched.
   */
  method ClearTransients(host: Host, value: Value, postId: int, field: Args, cats: seq<Value>) returns (r: Value)
    modifies host`transients
    ensures r == value
    ensures host.transients == old(host.transients) - ClearedKeys(StrOf(Get(field, "name")), cats)
  {
    var name := StrOf(Get(field, "name"));
    FieldKeys();
    if name == "featured_on_category" {
      host.DeleteTransient("jpry_" + name);
      var i := 0;
      while i < |cats|
        invariant 0 <= i <= |cats|
        invariant host.transients == old(host.transients) - ({CategoryKey} + ArchiveKeys(cats[..i]))
      {
        assert cats[..i + 1][..i] == cats[..i];
        DeleteOneMore(old(host.transients), {CategoryKey} + ArchiveKeys(cats[..i]), ArchiveKey(cats[i]));
        host.DeleteTransient(ArchiveKey(cats[i]));
        i := i + 1;
      }
      assert cats[..i] == cats;
    } else if name == "featured_on_home" {
      host.DeleteTransient("jpry_" + name);
      DeleteOneMore(old(host.transients), {HomeKey}, HomeCategoryKey);
      host.DeleteTransient(HomeCategoryKey);
    } else {
      assert host.transients == old(host.transients) - {};
    }
    return value;
  }

  /** Saving any other field deletes nothing. */
  lemma ClearOtherFieldsKeeps(name: string, cats: seq<Value>)
    requires name != "featured_on_category" && name != "featured_on_home"
    ensures ClearedKeys(name, cats) == {}
  {
  }

  /**
   * The key an archive query is cached under is the key cleared when a post
   * of that category changes its category flag, so the next archive query
   * of that category runs afresh.
   */
  lemma ArchiveRefreshedAfterClear(t: map<string, Value>, cats: seq<Value>, c: Value, queryIds: Args -> Value)
    requires c in cats
    ensures ArchiveKey(c) in ClearedKeys("featured_on_category", cats)
    ensures CachedIds(t - ClearedKeys("featured_on_category", cats), ArchiveKey(c), ArchiveArgs(c), queryIds) ==
      queryIds(IdQueryArgs(ArchiveArgs(c)))
  {
    ArchiveKeysExactly(cats);
  }

  /**
   * No saved field ever clears a per-category home key: a pick cached by
   * get_single_category_post_id() stays until the transient expires.
   */
  lemma {:induction false} SingleCategoryKeysNeverCleared(name: string, cats: seq<Value>, c: Value)
    ensures SingleCategoryKey(c) !in ClearedKeys(name, cats)
  {
    var k := SingleCategoryKey(c);
    assert k[14] == 'c';
    assert |k| > |HomeCategoryKey|;
    assert HomeKey[14] == 'o' && CategoryKey[14] == 'o';
    ArchiveKeysExactly(cats);
    forall a | a in cats ensures k != ArchiveKey(a) {
      assert ArchiveKey(a)[14] == 'o';
    }
  }

  /** get_category_ids() reads one key and writes another, so its cache is never hit by its own writes. */
  lemma CategoryIdsKeysDiffer()
    ensures CategoryIdsReadKey != CategoryIdsWriteKey
  {
    assert CategoryIdsReadKey[9] == 'o' && CategoryIdsWriteKey[9] == 'g';
  }
}
