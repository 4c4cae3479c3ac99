/**
 * JPry_Wiki_Propagation: sends a saved wiki post to every language site
 * over the REST API, asks them to delete their copies when it is deleted,
 * and keeps the propagation counter and the log ID on the main site.
 */
module WikiPropagation {
  import opened Php
  import opened Host
  import opened Utility
  import opened AbstractPropagation
  import TP = TranslationPropagation

  const LogIdKey := "_jpry_propagation_logging_id"

  /** get_api_path: `/wp/v2/` followed by the post type's REST base, or by its name when it has none. */
  function ApiPath(restBases: map<string, Value>, postType: string): (r: string)
    ensures StartsWith(r, "/wp/v2/")
    ensures !(postType in restBases && restBases[postType] != Null) ==> r == "/wp/v2/" + postType
    ensures postType in restBases && restBases[postType] != Null ==> r == "/wp/v2/" + StrOf(restBases[postType])
  {
    var endpoint := if postType in restBases && restBases[postType] != Null then StrOf(restBases[postType]) else postType;
    "/wp/v2/" + endpoint
  }

  /**
   * `isset()` holds for a REST base of false, the value WordPress gives a
   * post type that is not in the REST API, and false interpolates as the
   * empty string: such a type is requested at the bare `/wp/v2/`.
   */
  lemma ApiPathFalseRestBase(restBases: map<string, Value>, postType: string)
    requires postType in restBases && restBases[postType] == Bool(false)
    ensures ApiPath(restBases, postType) == "/wp/v2/"
  {
  }

  /**
   * The deletion schedule the counter of handle_data() sets up for a post
   * propagated to `languageSites` sites: it is stored as one less than
   * that number, so deletion waits for all acknowledgements but the last;
   * with one site it is not blocked at all, and with none the counter is
   * -1 and deletion is blocked for good.
   */
  lemma CounterDeletionSchedule(store: map<int, Meta>, id: int, languageSites: nat, n: nat, delete: Value)
    requires GetSingle(MetaOf(store, id), TP.CountKey) == Int(languageSites - 1)
    ensures languageSites == 0 ==> TP.PreDeletePost(delete, id, TP.DecrementedTimes(store, id, n)) == Bool(false)
    ensures languageSites == 1 ==> TP.PreDeletePost(delete, id, TP.DecrementedTimes(store, id, n)) == delete
    ensures 2 <= languageSites && n < languageSites - 1 ==>
      TP.PreDeletePost(delete, id, TP.DecrementedTimes(store, id, n)) == Bool(false)
    ensures 2 <= languageSites && n == languageSites - 1 ==>
      TP.PreDeletePost(delete, id, TP.DecrementedTimes(store, id, n)) == delete
  {
    if languageSites == 0 {
      TP.NegativeCountBlocksDeletion(store, id, n, delete);
    } else if languageSites == 1 {
      TP.NonPositiveCountStays(store, id, n);
    } else if n <= languageSites - 1 {
      TP.DeletionWaitsForAcknowledgements(store, id, n, delete);
    }
  }

  /**
   * A post's meta after the bookkeeping of handle_data(): the propagation
   * flag `true` added unless a row is there, then the counter and the log
   * ID updated.
   */
  function Marked(m: Meta, count: int, logId: Value): Meta
  {
    var flagged := if TP.FlagKey in m && |m[TP.FlagKey]| > 0 then m else m[TP.FlagKey := [Bool(true)]];
    UpdatedMeta(UpdatedMeta(flagged, TP.CountKey, Int(count)), LogIdKey, logId)
  }

  /**
   * The bookkeeping sets the counter and the log ID, leaves a flag row that
   * was there alone or adds a truthy one, and no other key changes.
   */
  lemma MarkedFields(m: Meta, count: int, logId: Value)
    ensures GetSingle(Marked(m, count, logId), TP.CountKey) == Int(count)
    ensures GetSingle(Marked(m, count, logId), LogIdKey) == logId
    ensures TP.FlagKey in m && |m[TP.FlagKey]| > 0 ==> Marked(m, count, logId)[TP.FlagKey] == m[TP.FlagKey]
    ensures !(TP.FlagKey in m && |m[TP.FlagKey]| > 0) ==> Marked(m, count, logId)[TP.FlagKey] == [Bool(true)]
    ensures Truthy(GetSingle(Marked(m, count, logId), TP.FlagKey)) <==>
      (!(TP.FlagKey in m && |m[TP.FlagKey]| > 0) || Truthy(m[TP.FlagKey][0]))
    ensures forall k :: k != TP.FlagKey && k != TP.CountKey && k != LogIdKey ==>
      (k in Marked(m, count, logId) <==> k in m) && (k in m ==> Marked(m, count, logId)[k] == m[k])
  {
  }

  /** What a request of this object depends on besides the site and the arguments. */
  datatype Context = Context(restBases: map<string, Value>, postType: string, meta: Meta, isIIS: bool)

  /** The path post_to_site() requests: the endpoint, plus the remote ID when the meta knows it. */
  function PostPath(ctx: Context, path: string): string
  {
    var base := ApiPath(ctx.restBases, ctx.postType);
    if TP.LanguageKey(path) in ctx.meta then base + "/" + StrOf(First(ctx.meta[TP.LanguageKey(path)])) else base
  }

  /** The path is the endpoint, extended exactly when the meta holds the site's remote ID. */
  lemma PostPathShape(ctx: Context, path: string)
    ensures StartsWith(PostPath(ctx, path), ApiPath(ctx.restBases, ctx.postType))
    ensures PostPath(ctx, path) == ApiPath(ctx.restBases, ctx.postType) <==> TP.LanguageKey(path) !in ctx.meta
  {
    var base := ApiPath(ctx.restBases, ctx.postType);
    var r := PostPath(ctx, path);
    if TP.LanguageKey(path) in ctx.meta {
      assert r[..|base|] == base && |r| > |base|;
    }
  }

  /** The request post_to_site() makes for one site. */
  function WikiRequest(e: Entry, ctx: Context, args: Args): Request
  {
    Request(e.site.blogId, PostPath(ctx, e.site.path), MaybeFixIis(args, ctx.isIIS))
  }

  /** The requests of send_by_api(): one per site, in the order of the sites. */
  function Requests(sites: seq<Entry>, ctx: Context, args: Args): (r: seq<Request>)
    ensures |r| == |sites|
  {
    if |sites| == 0 then [] else Requests(sites[..|sites| - 1], ctx, args) + [WikiRequest(sites[|sites| - 1], ctx, args)]
  }

  /** One more site, one more request at the end. */
  lemma RequestsStep(sites: seq<Entry>, i: int, ctx: Context, args: Args)
    requires 0 <= i < |sites|
    ensures Requests(sites[..i + 1], ctx, args) == Requests(sites[..i], ctx, args) + [WikiRequest(sites[i], ctx, args)]
  {
    assert sites[..i + 1][..i] == sites[..i];
  }

  /** Every site gets its own request, in order. */
  lemma {:induction false} RequestsInOrder(sites: seq<Entry>, ctx: Context, args: Args)
    ensures forall k :: 0 <= k < |sites| ==> Requests(sites, ctx, args)[k] == WikiRequest(sites[k], ctx, args)
  {
    if |sites| > 0 {
      RequestsInOrder(sites[..|sites| - 1], ctx, args);
    }
  }

  /** `isset( $meta[ $key ][0] )`: the site has a linked post. */
  predicate Linked(meta: Meta, path: string)
  {
    TP.LanguageKey(path) in meta && |meta[TP.LanguageKey(path)]| > 0 && meta[TP.LanguageKey(path)][0] != Null
  }

  /** The requests of delete_language_posts(): only sites with a linked post. */
  function DeleteRequests(sites: seq<Entry>, ctx: Context, args: Args): seq<Request>
  {
    if |sites| == 0 then []
    else
      var last := sites[|sites| - 1];
      DeleteRequests(sites[..|sites| - 1], ctx, args) + (if Linked(ctx.meta, last.site.path) then [WikiRequest(last, ctx, args)] else [])
  }

  /** The meta key post_to_site() last remembered: that of the last linked site, or `initial` when none is. */
  function LastLinkedKey(meta: Meta, sites: seq<Entry>, initial: string): string
  {
    if |sites| == 0 then initial
    else
      var last := sites[|sites| - 1];
      if Linked(meta, last.site.path) then TP.LanguageKey(last.site.path) else LastLinkedKey(meta, sites[..|sites| - 1], initial)
  }

  /** A delete request goes to a site if and only if the meta links a post there. */
  lemma {:induction false} DeleteRequestsExactlyLinked(sites: seq<Entry>, ctx: Context, args: Args)
    ensures forall r :: r in DeleteRequests(sites, ctx, args) <==>
      exists k :: 0 <= k < |sites| && Linked(ctx.meta, sites[k].site.path) && r == WikiRequest(sites[k], ctx, args)
  {
    if |sites| > 0 {
      var init := sites[..|sites| - 1];
      DeleteRequestsExactlyLinked(init, ctx, args);
      forall r | r in DeleteRequests(sites, ctx, args)
        ensures exists k :: 0 <= k < |sites| && Linked(ctx.meta, sites[k].site.path) && r == WikiRequest(sites[k], ctx, args)
      {
        if r in DeleteRequests(init, ctx, args) {
          var k :| 0 <= k < |init| && Linked(ctx.meta, init[k].site.path) && r == WikiRequest(init[k], ctx, args);
          assert init[k] == sites[k];
        } else {
          assert Linked(ctx.meta, sites[|sites| - 1].site.path) && r == WikiRequest(sites[|sites| - 1], ctx, args);
        }
      }
      forall k | 0 <= k < |sites| && Linked(ctx.meta, sites[k].site.path)
        ensures WikiRequest(sites[k], ctx, args) in DeleteRequests(sites, ctx, args)
      {
        if k < |sites| - 1 {
          assert init[k] == sites[k];
        }
      }
    }
  }

  /** The arguments handle_data() sends with: the defaults, switched to DELETE for a trashed post. */
  function SendArgs(status: string, defaults: Args): Args
  {
    ParseArgs(if status == "trash" then map["method" := Str("DELETE")] else map[], defaults)
  }

  /** A trashed post is sent as DELETE, any other post with the default POST. */
  lemma SendArgsMethod(status: string, data: Value, cookie: string, nonce: Value)
    ensures Get(SendArgs(status, DefaultApiArgs(data, cookie, nonce)), "method") ==
      Str(if status == "trash" then "DELETE" else "POST")
    ensures forall k :: k != "method" && k in DefaultApiArgs(data, cookie, nonce) ==>
      SendArgs(status, DefaultApiArgs(data, cookie, nonce))[k] == DefaultApiArgs(data, cookie, nonce)[k]
  {
  }

  /** The arguments delete_language_posts() asks for before the defaults are merged in. */
  function DeleteArgs(logId: Value): Args
  {
    map[
      "body" := Json(Arr(map["force" := Bool(true), "wds_log_id" := logId])),
      "headers" := Arr(JsonHeaders),
      "method" := Str("DELETE")
    ]
  }

  /** The merged delete arguments keep the default cookie and nonce headers next to the content type. */
  lemma DeleteArgsHeaders(logId: Value, data: Value, cookie: string, nonce: Value)
    ensures DeepParseArgs(DeleteArgs(logId), DefaultApiArgs(data, cookie, nonce))["headers"] == Arr(JsonRequestHeaders(cookie, nonce))
  {
    var d := DefaultApiArgs(data, cookie, nonce);
    assert IsSet(d, "headers") && DeleteArgs(logId)["headers"] == Arr(JsonHeaders);
    JsonHeadersMerged(data, cookie, nonce);
  }

  /**
   * The merged delete arguments: a JSON body and the DELETE method, still
   * non-blocking with the default timeout (the headers are DeleteArgsHeaders).
   */
  lemma DeleteArgsMerged(logId: Value, data: Value, cookie: string, nonce: Value)
    ensures var a := DeepParseArgs(DeleteArgs(logId), DefaultApiArgs(data, cookie, nonce));
      a["method"] == Str("DELETE") &&
      a["body"] == Json(Arr(map["force" := Bool(true), "wds_log_id" := logId])) &&
      a["blocking"] == Bool(false) && a["timeout"] == Int(1)
  {
    var args := DeleteArgs(logId);
    var defaults := DefaultApiArgs(data, cookie, nonce);
    var a := DeepParseArgs(args, defaults);
    assert "blocking" !in args && "timeout" !in args && !args["method"].Arr? && !args["body"].Arr?;
    assert a["method"] == args["method"] && a["body"] == args["body"];
    assert a["blocking"] == defaults["blocking"] && a["timeout"] == defaults["timeout"];
  }

  /** add_log_post_labels: the Propagation label is added when it is missing. */
  function AddLogPostLabels(terms: Args): (r: Args)
    ensures IsSet(r, "Propagation")
    ensures r.Keys == terms.Keys + {"Propagation"}
    ensures forall k :: k in terms && (k != "Propagation" || IsSet(terms, k)) ==> r[k] == terms[k]
  {
    if !IsSet(terms, "Propagation") then
      terms["Propagation" := Arr(map["slug" := Str("propagation"), "description" := Str("background-color:#A38BD2")])]
    else terms
  }

  lemma AddLogPostLabelsIdempotent(terms: Args)
    ensures AddLogPostLabels(AddLogPostLabels(terms)) == AddLogPostLabels(terms)
  {
  }

  /** One taxonomy of add_taxonomies(): each term with its language meta, in the array's order. */
  type TermMapping = seq<(Value, Meta)>

  /** The terms assigned for one taxonomy: the first mapped ID of each term linked to the site. */
  function MappedTerms(mapping: TermMapping, key: string): seq<Value>
  {
    if |mapping| == 0 then []
    else
      var languages := mapping[|mapping| - 1].1;
      MappedTerms(mapping[..|mapping| - 1], key) + (if key in languages then [First(languages[key])] else [])
  }

  /** A value is assigned exactly when some term in the mapping links it to the site. */
  lemma {:induction false} MappedTermsExactly(mapping: TermMapping, key: string)
    ensures forall v :: v in MappedTerms(mapping, key) <==>
      exists j :: 0 <= j < |mapping| && key in mapping[j].1 && v == First(mapping[j].1[key])
  {
    if |mapping| > 0 {
      var init := mapping[..|mapping| - 1];
      MappedTermsExactly(init, key);
      forall v | v in MappedTerms(mapping, key)
        ensures exists j :: 0 <= j < |mapping| && key in mapping[j].1 && v == First(mapping[j].1[key])
      {
        if v in MappedTerms(init, key) {
          var j :| 0 <= j < |init| && key in init[j].1 && v == First(init[j].1[key]);
          assert init[j] == mapping[j];
        }
      }
      forall j | 0 <= j < |mapping| && key in mapping[j].1
        ensures First(mapping[j].1[key]) in MappedTerms(mapping, key)
      {
        if j < |mapping| - 1 {
          assert init[j] == mapping[j];
        }
      }
    }
  }

  /** The assignments add_taxonomies() makes: one per taxonomy, in order. */
  function TaxonomyAssignments(postId: int, key: string, taxArray: seq<(string, TermMapping)>): seq<TermAssignment>
  {
    if |taxArray| == 0 then []
    else
      var last := taxArray[|taxArray| - 1];
      TaxonomyAssignments(postId, key, taxArray[..|taxArray| - 1]) + [TermAssignment(postId, MappedTerms(last.1, key), last.0)]
  }

  /**
   * add_taxonomies: for each taxonomy, assign to the post the terms that
   * are linked to the site at `path`.
   */
  method AddTaxonomies(host: Host, postId: int, path: string, taxArray: seq<(string, TermMapping)>)
    modifies host`objectTerms
    ensures host.objectTerms == old(host.objectTerms) + TaxonomyAssignments(postId, TP.LanguageKey(path), taxArray)
  {
    var i := 0;
    while i < |taxArray|
      invariant 0 <= i <= |taxArray|
      invariant host.objectTerms == old(host.objectTerms) + TaxonomyAssignments(postId, TP.LanguageKey(path), taxArray[..i])
    {
      assert taxArray[..i + 1][..i] == taxArray[..i];
      var mapping := taxArray[i].1;
      var terms: seq<Value> := [];
      var j := 0;
      while j < |mapping|
        invariant 0 <= j <= |mapping|
        invariant terms == MappedTerms(mapping[..j], TP.LanguageKey(path))
      {
        assert mapping[..j + 1][..j] == mapping[..j];
        var key := TP.LanguageKey(path);
        if key in mapping[j].1 {
          terms := terms + [First(mapping[j].1[key])];
        }
        j := j + 1;
      }
      assert mapping[..j] == mapping;
      host.SetObjectTerms(TermAssignment(postId, terms, taxArray[i].0));
      i := i + 1;
    }
    assert taxArray[..i] == taxArray;
  }

  /** The extra meta row that carries the main-site ID of the post. */
  function EnglishIdRow(postId: int): Value
  {
    Arr(map["key" := Str("wds_english_id"), "value" := List([Int(postId)])])
  }

  /** `$data['post_meta']` as a list; a missing or non-list value counts as empty. */
  function ItemsOf(v: Value): seq<Value>
  {
    if v.List? then v.items else []
  }

  /**
   * The body handle_data() sends: the connector's data with the
   * propagation flag and log ID on top, and the English ID row appended to
   * its post meta.
   */
  function HandleDataPayload(parsed: Args, logId: Value, postId: int): Args
  {
    var data := parsed + map["wds_propagating" := Bool(true), "wds_log_id" := logId];
    data["post_meta" := List(ItemsOf(Get(data, "post_meta")) + [EnglishIdRow(postId)])]
  }

  /**
   * The payload keeps every field of the connector's data except the three
   * it sets: the flag, the log ID, and the post meta with the English row
   * appended.
   */
  lemma HandleDataPayloadFields(parsed: Args, logId: Value, postId: int)
    ensures var r := HandleDataPayload(parsed, logId, postId);
      r.Keys == parsed.Keys + {"wds_propagating", "wds_log_id", "post_meta"} &&
      r["wds_propagating"] == Bool(true) && r["wds_log_id"] == logId &&
      ItemsOf(r["post_meta"]) == ItemsOf(Get(parsed, "post_meta")) + [EnglishIdRow(postId)] &&
      forall k :: k in parsed && k != "wds_propagating" && k != "wds_log_id" && k != "post_meta" ==> r[k] == parsed[k]
  {
  }

  class Wiki {
    const siteList: SiteList
    var postMeta: Meta
    var postType: string
    var data: Value
    var logId: Value
    var site: Option<Entry>
    var metaKey: string

    constructor (siteList: SiteList)
      ensures this.siteList == siteList
      ensures postMeta == map[] && postType == "" && data == Null && logId == Null && site == None && metaKey == ""
    {
      this.siteList := siteList;
      postMeta, postType, data, logId, site, metaKey := map[], "", Null, Null, None, "";
    }

    /** The context the requests of this object depend on. */
    function Ctx(host: Host): Context
      reads this`postType, this`postMeta
    {
      Context(host.restBases, postType, postMeta, host.isIIS)
    }

    /**
     * log(): the first non-null log ID is latched. `logged` is what
     * JPry_Utility::error_log() returns for the call.
     */
    method Log(logged: Value)
      modifies this`logId
      ensures old(logId) != Null ==> logId == old(logId)
      ensures old(logId) == Null ==> logId == logged
    {
      if logId == Null {
        logId := logged;
      }
    }

    /** get_default_api_args, with the nonce of the main plugin class. */
    method DefaultArgs(host: Host) returns (args: Args)
      modifies host`siteTransients
      ensures args == DefaultApiArgs(data, host.cookieHeader, TP.StoredNonce(host.siteTransients))
      ensures host.siteTransients == TP.WithNonce(old(host.siteTransients), host.freshNonce)
      ensures forall k :: k != TP.NonceKey ==>
        (k in host.siteTransients <==> k in old(host.siteTransients)) &&
        (k in old(host.siteTransients) ==> host.siteTransients[k] == old(host.siteTransients)[k])
    {
      var nonce := TP.GetNonceForRequest(host);
      args := DefaultApiArgs(data, host.cookieHeader, nonce);
    }

    /** post_to_site: remember the meta key of the current site and record the request. */
    method PostToSite(host: Host, args: Args)
      requires site.Some?
      modifies this`metaKey, host`sent
      ensures metaKey == TP.LanguageKey(site.value.site.path)
      ensures host.sent == old(host.sent) + [WikiRequest(site.value, Ctx(host), args)]
    {
      metaKey := TP.LanguageKey(site.value.site.path);
      var path := ApiPath(host.restBases, postType);
      if metaKey in postMeta {
        path := path + "/" + StrOf(First(postMeta[metaKey]));
      }
      host.Send(Request(site.value.site.blogId, path, MaybeFixIis(args, host.isIIS)));
    }

    /** The loop of send_by_api(): every site in turn becomes the current site and gets the request. */
    method SendToSites(host: Host, sites: seq<Entry>, args: Args)
      modifies this`site, this`metaKey, host`sent
      ensures host.sent == old(host.sent) + Requests(sites, Ctx(host), args)
      ensures site == if |sites| > 0 then Some(sites[|sites| - 1]) else old(site)
    {
      var i := 0;
      while i < |sites|
        invariant 0 <= i <= |sites|
        invariant host.sent == old(host.sent) + Requests(sites[..i], Ctx(host), args)
        invariant site == if i > 0 then Some(sites[i - 1]) else old(site)
      {
        RequestsStep(sites, i, Ctx(host), args);
        site := Some(sites[i]);
        PostToSite(host, args);
        i := i + 1;
      }
      assert sites[..i] == sites;
    }

    /** send_by_api: the given arguments over the defaults, to every site. */
    method SendByApi(host: Host, apiArgs: Args) returns (args: Args)
      modifies this`site, this`metaKey, siteList, host`sitesCache, host`sent, host`siteTransients
      ensures args == ParseArgs(apiArgs, DefaultApiArgs(data, host.cookieHeader, TP.StoredNonce(host.siteTransients)))
      ensures host.siteTransients == TP.WithNonce(old(host.siteTransients), host.freshNonce)
      ensures host.sent == old(host.sent) + Requests(siteList.sites, Ctx(host), args)
      ensures siteList.sites == if old(siteList.sites) != [] then old(siteList.sites)
        else SitesLookup(old(host.sitesCache), host.networks, PropagationSitesArgs(host.mainSite))
    {
      var defaults := DefaultArgs(host);
      args := ParseArgs(apiArgs, defaults);
      var sites := siteList.Sites(host);
      SendToSites(host, sites, args);
    }

    /**
     * The bookkeeping of handle_data: the propagation flag unless the post
     * has it already, the counter and the log ID.
     */
    method MarkPropagating(host: Host, postId: int, count: int)
      modifies host`postMeta
      ensures GetSingle(MetaOf(host.postMeta, postId), TP.CountKey) == Int(count)
      ensures GetSingle(MetaOf(host.postMeta, postId), LogIdKey) == logId
      ensures TP.FlagKey in MetaOf(host.postMeta, postId) && |MetaOf(host.postMeta, postId)[TP.FlagKey]| > 0
      ensures TP.FlagKey in MetaOf(old(host.postMeta), postId) && |MetaOf(old(host.postMeta), postId)[TP.FlagKey]| > 0 ==>
        MetaOf(host.postMeta, postId)[TP.FlagKey] == MetaOf(old(host.postMeta), postId)[TP.FlagKey]
      ensures forall o :: o != postId ==> MetaOf(host.postMeta, o) == MetaOf(old(host.postMeta), o)
      ensures host.postMeta == old(host.postMeta)[postId := Marked(MetaOf(old(host.postMeta), postId), count, logId)]
    {
      var _ := host.AddUniquePostMeta(postId, TP.FlagKey, Bool(true));
      var _ := host.UpdatePostMeta(postId, TP.CountKey, Int(count));
      var _ := host.UpdatePostMeta(postId, LogIdKey, logId);
    }

    /**
     * What the first half of handle_data leaves behind, from the post meta
     * and log ID before it: the post's type and meta snapshot, the latched
     * log ID, the payload, and on the post the propagation flag (kept when
     * it was there, `true` otherwise), the counter (one less than the
     * number of language sites, which already leave out the main site) and
     * the log ID; every other post and every other key of the post as
     * before (`Marked`).
     */
    ghost predicate Prepared(host: Host, postId: int, post: Post, parsed: Args, logged: Value, oldMeta: map<int, Meta>, oldLogId: Value)
      reads this`postType, this`postMeta, this`logId, this`data, siteList`sites, host`postMeta
    {
      postType == post.postType && postMeta == MetaOf(oldMeta, postId) &&
      logId == (if oldLogId != Null then oldLogId else logged) &&
      data == Arr(HandleDataPayload(parsed, logId, post.id)) &&
      GetSingle(MetaOf(host.postMeta, postId), TP.CountKey) == Int(|siteList.sites| - 1) &&
      GetSingle(MetaOf(host.postMeta, postId), LogIdKey) == logId &&
      TP.FlagKey in MetaOf(host.postMeta, postId) && |MetaOf(host.postMeta, postId)[TP.FlagKey]| > 0 &&
      (TP.FlagKey in MetaOf(oldMeta, postId) && |MetaOf(oldMeta, postId)[TP.FlagKey]| > 0 ==>
        MetaOf(host.postMeta, postId)[TP.FlagKey] == MetaOf(oldMeta, postId)[TP.FlagKey]) &&
      host.postMeta == oldMeta[postId := Marked(MetaOf(oldMeta, postId), |siteList.sites| - 1, logId)]
    }

    /**
     * The first half of handle_data: snapshot the post's type and meta,
     * latch the log ID, fetch the sites, write the bookkeeping meta and
     * build the payload.
     */
    method PrepareData(host: Host, postId: int, post: Post, parsed: Args, logged: Value)
      modifies this`postType, this`postMeta, this`logId, this`data, siteList, host`sitesCache, host`postMeta
      ensures Prepared(host, postId, post, parsed, logged, old(host.postMeta), old(logId))
      ensures siteList.sites == [] ==>
        PropagationSitesArgs(host.mainSite) in host.sitesCache && host.sitesCache[PropagationSitesArgs(host.mainSite)] == []
    {
      postType := post.postType;
      postMeta := MetaOf(host.postMeta, postId);
      Log(logged);
      var sites := siteList.Sites(host);
      MarkPropagating(host, postId, |sites| - 1);
      data := Arr(HandleDataPayload(parsed, logId, post.id));
    }

    /**
     * handle_data: snapshot the post's meta, set the counter to one less
     * than the number of language sites, set the propagation flag once, store the
     * log ID, build the payload and send it to every site (as DELETE when
     * the post is in the trash). `parsed` is what the JSON connector makes
     * of the post, `logged` what the logger returns.
     */
    method HandleData(host: Host, postId: int, post: Post, parsed: Args, logged: Value)
      modifies this`postType, this`postMeta, this`logId, this`data, this`site, this`metaKey, siteList
      modifies host`sitesCache, host`sent, host`postMeta, host`siteTransients
      ensures Prepared(host, postId, post, parsed, logged, old(host.postMeta), old(logId))
      ensures host.sent == old(host.sent) +
        Requests(siteList.sites, Ctx(host), SendArgs(post.status, DefaultApiArgs(data, host.cookieHeader, TP.StoredNonce(host.siteTransients))))
      ensures host.siteTransients == TP.WithNonce(old(host.siteTransients), host.freshNonce)
    {
      PrepareData(host, postId, post, parsed, logged);
      ghost var prepared, stored := siteList.sites, host.postMeta;
      var apiArgs: Args := if post.status == "trash" then map["method" := Str("DELETE")] else map[];
      var _ := SendByApi(host, apiArgs);
      assert siteList.sites == prepared && host.postMeta == stored;
    }

    /**
     * delete_language_posts: ask every site that holds a linked copy of the
     * post to delete it for good; sites without one are skipped.
     */
    method DeleteLanguagePosts(host: Host, meta: Meta, postType: string, logged: Value)
      modifies this`postMeta, this`postType, this`logId, this`site, this`metaKey, siteList
      modifies host`sitesCache, host`sent, host`siteTransients
      ensures this.postMeta == meta && this.postType == postType
      ensures logId == if old(logId) != Null then old(logId) else logged
      ensures host.sent == old(host.sent) +
        DeleteRequests(siteList.sites, Ctx(host),
          DeepParseArgs(DeleteArgs(logId), DefaultApiArgs(data, host.cookieHeader, TP.StoredNonce(host.siteTransients))))
      ensures site == if |siteList.sites| > 0 then Some(siteList.sites[|siteList.sites| - 1]) else old(site)
      ensures metaKey == LastLinkedKey(meta, siteList.sites, old(metaKey))
      ensures host.siteTransients == TP.WithNonce(old(host.siteTransients), host.freshNonce)
    {
      this.postMeta := meta;
      this.postType := postType;
      Log(logged);

      var defaults := DefaultArgs(host);
      var args := DeepParseArgs(DeleteArgs(logId), defaults);

      var sites := siteList.Sites(host);
      DeleteFromSites(host, sites, args);
    }

    /** The loop of delete_language_posts(): only the sites with a linked post get the request. */
    method DeleteFromSites(host: Host, sites: seq<Entry>, args: Args)
      modifies this`site, this`metaKey, host`sent
      ensures host.sent == old(host.sent) + DeleteRequests(sites, Ctx(host), args)
      ensures site == if |sites| > 0 then Some(sites[|sites| - 1]) else old(site)
      ensures metaKey == LastLinkedKey(postMeta, sites, old(metaKey))
    {
      var i := 0;
      while i < |sites|
        invariant 0 <= i <= |sites|
        invariant host.sent == old(host.sent) + DeleteRequests(sites[..i], Ctx(host), args)
        invariant site == if i > 0 then Some(sites[i - 1]) else old(site)
        invariant metaKey == LastLinkedKey(postMeta, sites[..i], old(metaKey))
      {
        assert sites[..i + 1][..i] == sites[..i];
        site := Some(sites[i]);
        if Linked(postMeta, sites[i].site.path) {
          PostToSite(host, args);
        }
        i := i + 1;
      }
      assert sites[..i] == sites;
    }
  }
}
