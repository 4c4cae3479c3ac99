/**
 * JPry_Link_Propagation: sends a saved link (bookmark) to every sub-site
 * over the REST API. A site that already holds a translation of the link
 * gets an update without the name; any other site gets the whole link,
 * as an update when an earlier propagation left an ID and as a create
 * otherwise. The IDs the sites answer with are stored on the link's
 * translation post. Deleting a link broadcasts a DELETE keyed by its URL.
 */
module LinkPropagation {
  import opened Php
  import opened Host
  import opened Utility
  import opened AbstractPropagation

  /** The meta of the translation post that holds the IDs of earlier propagations. */
  const PropagationMetaKey := "wds_propagation_ids"
  /** The meta of the translation post that lists the existing translations by site path. */
  const TranslationsMetaKey := "wds_translations_existing_posts"
  /** The REST route of links on every site. */
  const LinkApiPath := "/wds/v1/links"

  /** The API fields map_link_data() always fills. */
  const LinkFieldNames: set<string> := {"url", "name", "image", "description", "visible", "author", "rating", "rel", "notes", "rss"}

  /** The link column an API field is copied from: `link_<field>`, except that the author is the owner. */
  function LinkColumn(field: string): string
  {
    if field == "author" then "link_owner" else "link_" + field
  }

  /** The term properties a link category keeps on its way to the API. */
  const TermKeys: set<string> := {"name", "slug", "description"}

  /** convert_term_object_to_array: the properties of a term, intersected with the kept keys. */
  function ConvertTermObjectToArray(term: Args): (r: Args)
    ensures r.Keys == term.Keys * TermKeys
    ensures forall k :: k in r ==> r[k] == term[k]
  {
    map k | k in term && k in TermKeys :: term[k]
  }

  /** Converting twice keeps what converting once kept. */
  lemma ConvertTermObjectToArrayIdempotent(term: Args)
    ensures ConvertTermObjectToArray(ConvertTermObjectToArray(term)) == ConvertTermObjectToArray(term)
  {
  }

  /** The categories of a link, each converted, in the order wp_get_object_terms() gives them. */
  function RawCategories(cats: seq<Args>): (r: seq<Value>)
    ensures |r| == |cats|
    ensures forall k :: 0 <= k < |r| ==> r[k] == Arr(ConvertTermObjectToArray(cats[k]))
  {
    seq(|cats|, k requires 0 <= k < |cats| => Arr(ConvertTermObjectToArray(cats[k])))
  }

  /**
   * map_link_data: the ten fixed fields, `target` only for a non-empty
   * link target, and the converted categories. `link` holds the columns
   * of the link row (a missing one reads as null), `cats` the terms the
   * host lists for the link.
   */
  function MapLinkData(link: Args, cats: seq<Args>): Args
  {
    var data := map f | f in LinkFieldNames :: Get(link, LinkColumn(f));
    var withTarget := if Truthy(Get(link, "link_target")) then data["target" := Get(link, "link_target")] else data;
    withTarget["raw_categories" := List(RawCategories(cats))]
  }

  /** Neither of the two extra fields is one of the fixed ones. */
  lemma ExtraFieldsNotFixed()
    ensures "target" !in LinkFieldNames && "raw_categories" !in LinkFieldNames
  {
  }

  /** The fields of the mapped link, and where each comes from. */
  lemma MapLinkDataFields(link: Args, cats: seq<Args>)
    ensures var r := MapLinkData(link, cats);
      (forall f :: f in LinkFieldNames ==> f in r && r[f] == Get(link, LinkColumn(f))) &&
      ("target" in r <==> Truthy(Get(link, "link_target"))) &&
      ("target" in r ==> r["target"] == Get(link, "link_target")) &&
      "raw_categories" in r && r["raw_categories"] == List(RawCategories(cats)) &&
      (forall k :: k in r ==> k in LinkFieldNames || k == "raw_categories" || k == "target")
  {
    ExtraFieldsNotFixed();
  }

  /** A remote answer: the status code and the decoded JSON body, or a WP_Error. */
  datatype Response = Response(code: int, body: Value) | WpError

  /** A 2xx answer whose body has a non-null `id`. */
  predicate Accepted(resp: Response)
  {
    resp.Response? && 200 <= resp.code < 300 && IsSet(FieldsOf(resp.body), "id")
  }

  /** get_id_from_response: the `id` of an accepted answer as an int, and 0 for anything else. */
  function IdFromResponse(resp: Response): (id: int)
    ensures Accepted(resp) ==> id == IntOf(resp.body.fields["id"])
    ensures !Accepted(resp) ==> id == 0
  {
    if Accepted(resp) then IntOf(resp.body.fields["id"]) else 0
  }

  /** translate_args: the request for a translated site sends the body without `name`. */
  function TranslateArgs(args: Args): (r: Args)
    ensures r.Keys == args.Keys
    ensures forall k :: k in args && k != "body" ==> r[k] == args[k]
    ensures !Get(args, "body").Arr? ==> r == args
    ensures Get(args, "body").Arr? ==>
      r["body"].Arr? && r["body"].fields.Keys == args["body"].fields.Keys - {"name"} &&
      forall k :: k in r["body"].fields ==> r["body"].fields[k] == args["body"].fields[k]
  {
    if Get(args, "body").Arr? then args["body" := Arr(args["body"].fields - {"name"})] else args
  }

  /** Dropping the name twice is dropping it once. */
  lemma TranslateArgsIdempotent(args: Args)
    ensures TranslateArgs(TranslateArgs(args)) == TranslateArgs(args)
  {
    if Get(args, "body").Arr? {
      var f := args["body"].fields;
      assert f - {"name"} - {"name"} == f - {"name"};
    }
  }

  /**
   * The path post_to_site() requests: the link route, plus `/<id>` exactly
   * when the ID is positive. The ID is taken to be an integer or a numeric
   * string, as every caller passes; PHP's loose `$id > 0` on an array or a
   * non-numeric string compares differently and is not modelled.
   */
  function LinkPath(id: Value): (r: string)
    ensures StartsWith(r, LinkApiPath)
    ensures r == LinkApiPath <==> IntOf(id) <= 0
    ensures IntOf(id) > 0 ==> r[|LinkApiPath|..] == "/" + StrOf(id)
  {
    if IntOf(id) > 0 then LinkApiPath + "/" + StrOf(id) else LinkApiPath
  }

  /** The two keys the link class sets over the shared defaults. */
  const LinkOwnArgs: Args := map["timeout" := Int(30), "blocking" := Bool(true)]

  /**
   * get_default_api_args of the link class: the shared defaults, but a
   * blocking request with a 30-second timeout, since the answers are read.
   * The source merges with deep_parse_args; LinkDefaultArgsDeep shows that
   * plain merging gives the same arguments.
   */
  function LinkDefaultArgs(data: Value, cookie: string, nonce: string): (r: Args)
    ensures r.Keys == DefaultApiArgs(data, cookie, Str(nonce)).Keys
    ensures r["blocking"] == Bool(true) && r["timeout"] == Int(30)
    ensures forall k :: k in r && k != "blocking" && k != "timeout" ==> r[k] == DefaultApiArgs(data, cookie, Str(nonce))[k]
  {
    ParseArgs(LinkOwnArgs, DefaultApiArgs(data, cookie, Str(nonce)))
  }

  /** deep_parse_args( array( 'timeout' => 30, 'blocking' => true ), $defaults ) is LinkDefaultArgs. */
  lemma LinkDefaultArgsDeep(data: Value, cookie: string, nonce: string)
    ensures DeepParseArgs(LinkOwnArgs, DefaultApiArgs(data, cookie, Str(nonce))) == LinkDefaultArgs(data, cookie, nonce)
  {
    DeepParseArgsFlat(LinkOwnArgs, DefaultApiArgs(data, cookie, Str(nonce)));
  }

  /** The arguments send_to_each() starts from: the link defaults, made safe for IIS. */
  function LinkSendArgs(data: Value, cookie: string, nonce: string, isIIS: bool): Args
  {
    MaybeFixIis(LinkDefaultArgs(data, cookie, nonce), isIIS)
  }

  /** The two ID maps send_to_each() consults, keyed by site path. */
  datatype Mapping = Mapping(translated: Args, propagated: Args)

  /** `(array) $meta` of a non-empty meta value, keeping its string keys. */
  function ArrayOf(v: Value): Args
  {
    FieldsOf(v)
  }

  /** get_translated_languages: the translations listed on the translation post, or none. */
  function TranslatedLanguages(meta: Meta): Args
  {
    if Truthy(GetSingle(meta, TranslationsMetaKey)) then ArrayOf(GetSingle(meta, TranslationsMetaKey)) else map[]
  }

  /** get_propagated_ids: the IDs stored by the last propagation, or none. */
  function PropagatedIds(meta: Meta): Args
  {
    if Truthy(GetSingle(meta, PropagationMetaKey)) then ArrayOf(GetSingle(meta, PropagationMetaKey)) else map[]
  }

  /** wp_list_pluck( $list, $field ): every entry replaced by its `field`, null when it has none. */
  function Pluck(list: Args, field: string): (r: Args)
    ensures r.Keys == list.Keys
    ensures forall k :: k in r ==> r[k] == Get(FieldsOf(list[k]), field)
  {
    map k | k in list :: Get(FieldsOf(list[k]), field)
  }

  /** get_language_mapping: the translations' update IDs and the propagated IDs. */
  function LanguageMapping(meta: Meta): Mapping
  {
    var languages := TranslatedLanguages(meta);
    var propagated := PropagatedIds(meta);
    if |languages| == 0 && |propagated| == 0 then Mapping(map[], map[])
    else Mapping(Pluck(languages, "update_id"), propagated)
  }

  /** The early return for two empty lists gives what the general case would. */
  lemma LanguageMappingUniform(meta: Meta)
    ensures LanguageMapping(meta) == Mapping(Pluck(TranslatedLanguages(meta), "update_id"), PropagatedIds(meta))
  {
    var languages := TranslatedLanguages(meta);
    if |languages| == 0 {
      assert Pluck(languages, "update_id") == map[];
    }
  }

  /** The request send_to_each() makes for one site. */
  function SiteRequest(e: Entry, m: Mapping, args: Args): Request
  {
    var path := e.site.path;
    if IsSet(m.translated, path) then Request(e.site.blogId, LinkPath(m.translated[path]), TranslateArgs(args))
    else Request(e.site.blogId, LinkPath(if IsSet(m.propagated, path) then m.propagated[path] else Int(0)), args)
  }

  /**
   * A translated site gets the name-stripped arguments and its
   * translation's ID; any other site the full arguments and its
   * propagated ID, or the bare route when it has none.
   */
  lemma SiteRequestShape(e: Entry, m: Mapping, args: Args)
    ensures SiteRequest(e, m, args).blogId == e.site.blogId
    ensures IsSet(m.translated, e.site.path) ==>
      SiteRequest(e, m, args).args == TranslateArgs(args) &&
      SiteRequest(e, m, args).path == LinkPath(m.translated[e.site.path])
    ensures !IsSet(m.translated, e.site.path) ==>
      SiteRequest(e, m, args).args == args &&
      (IsSet(m.propagated, e.site.path) ==> SiteRequest(e, m, args).path == LinkPath(m.propagated[e.site.path])) &&
      (!IsSet(m.propagated, e.site.path) ==> SiteRequest(e, m, args).path == LinkApiPath)
  {
  }

  /** The requests of send_to_each(): one per site, in order. */
  function LinkRequests(sites: seq<Entry>, m: Mapping, args: Args): (r: seq<Request>)
    ensures |r| == |sites|
  {
    if |sites| == 0 then [] else LinkRequests(sites[..|sites| - 1], m, args) + [SiteRequest(sites[|sites| - 1], m, args)]
  }

  lemma {:induction false} LinkRequestsInOrder(sites: seq<Entry>, m: Mapping, args: Args)
    ensures forall k :: 0 <= k < |sites| ==> LinkRequests(sites, m, args)[k] == SiteRequest(sites[k], m, args)
  {
    if |sites| > 0 {
      LinkRequestsInOrder(sites[..|sites| - 1], m, args);
    }
  }

  /** The ID the site at `e` answers with; `respond` stands for the remote sites. */
  function SiteId(e: Entry, m: Mapping, args: Args, respond: Request -> Response): int
  {
    IdFromResponse(respond(SiteRequest(e, m, args)))
  }

  /** The results of send_to_each(): each path whose answer gave a non-zero ID, with that ID. */
  function LinkResults(sites: seq<Entry>, m: Mapping, args: Args, respond: Request -> Response): Args
  {
    if |sites| == 0 then map[]
    else
      var last := sites[|sites| - 1];
      var init := LinkResults(sites[..|sites| - 1], m, args, respond);
      var id := SiteId(last, m, args, respond);
      if id == 0 then init else init[last.site.path := Int(id)]
  }

  /**
   * A path is in the results exactly when some site with that path
   * answered with a non-zero ID, and what is stored for it is such an ID.
   */
  lemma LinkResultsExactly(sites: seq<Entry>, m: Mapping, args: Args, respond: Request -> Response)
    ensures forall p :: p in LinkResults(sites, m, args, respond) <==>
      exists k :: 0 <= k < |sites| && sites[k].site.path == p && SiteId(sites[k], m, args, respond) != 0
    ensures forall p :: p in LinkResults(sites, m, args, respond) ==>
      exists k :: (0 <= k < |sites| && sites[k].site.path == p && SiteId(sites[k], m, args, respond) != 0 &&
        LinkResults(sites, m, args, respond)[p] == Int(SiteId(sites[k], m, args, respond)))
  {
    LinkResultsFromSites(sites, m, args, respond);
    LinkResultsCoverSites(sites, m, args, respond);
  }

  /** Every stored path and ID comes from a site that answered with that ID. */
  lemma {:induction false} LinkResultsFromSites(sites: seq<Entry>, m: Mapping, args: Args, respond: Request -> Response)
    ensures forall p :: p in LinkResults(sites, m, args, respond) ==>
      exists k :: (0 <= k < |sites| && sites[k].site.path == p && SiteId(sites[k], m, args, respond) != 0 &&
        LinkResults(sites, m, args, respond)[p] == Int(SiteId(sites[k], m, args, respond)))
  {
    if |sites| > 0 {
      var init := sites[..|sites| - 1];
      var last := sites[|sites| - 1];
      LinkResultsFromSites(init, m, args, respond);
      var r := LinkResults(sites, m, args, respond);
      var ri := LinkResults(init, m, args, respond);
      forall p | p in r
        ensures exists k :: (0 <= k < |sites| && sites[k].site.path == p && SiteId(sites[k], m, args, respond) != 0 &&
          r[p] == Int(SiteId(sites[k], m, args, respond)))
      {
        if p == last.site.path && SiteId(last, m, args, respond) != 0 {
          assert sites[|sites| - 1] == last;
        } else {
          assert p in ri && r[p] == ri[p];
          var k :| 0 <= k < |init| && init[k].site.path == p && SiteId(init[k], m, args, respond) != 0 &&
            ri[p] == Int(SiteId(init[k], m, args, respond));
          assert sites[k] == init[k];
        }
      }
    }
  }

  /** The path of every site that answered with a non-zero ID is stored. */
  lemma {:induction false} LinkResultsCoverSites(sites: seq<Entry>, m: Mapping, args: Args, respond: Request -> Response)
    ensures forall k :: 0 <= k < |sites| && SiteId(sites[k], m, args, respond) != 0 ==>
      sites[k].site.path in LinkResults(sites, m, args, respond)
  {
    if |sites| > 0 {
      var init := sites[..|sites| - 1];
      LinkResultsCoverSites(init, m, args, respond);
      var r := LinkResults(sites, m, args, respond);
      var ri := LinkResults(init, m, args, respond);
      forall k | 0 <= k < |sites| && SiteId(sites[k], m, args, respond) != 0
        ensures sites[k].site.path in r
      {
        if k < |sites| - 1 {
          assert init[k] == sites[k];
          assert sites[k].site.path in ri;
        }
      }
    }
  }

  /** Every result is a positive or negative ID, never 0. */
  lemma {:induction false} LinkResultsNonZero(sites: seq<Entry>, m: Mapping, args: Args, respond: Request -> Response)
    ensures forall p :: p in LinkResults(sites, m, args, respond) ==>
      LinkResults(sites, m, args, respond)[p].Int? && LinkResults(sites, m, args, respond)[p].i != 0
  {
    if |sites| > 0 {
      LinkResultsNonZero(sites[..|sites| - 1], m, args, respond);
    }
  }

  /** The arguments delete_from_each() asks for before the defaults are merged in. */
  function LinkDeleteArgs(url: Value): Args
  {
    map[
      "body" := Json(Arr(map["force" := Bool(true), "url" := url])),
      "headers" := Arr(JsonHeaders),
      "method" := Str("DELETE")
    ]
  }

  /** The arguments delete_from_each() sends with: its own over the link defaults, made safe for IIS. */
  function LinkDeleteRequestArgs(url: Value, data: Value, cookie: string, nonce: string, isIIS: bool): Args
  {
    MaybeFixIis(DeepParseArgs(LinkDeleteArgs(url), LinkDefaultArgs(data, cookie, nonce)), isIIS)
  }

  /** The merged delete arguments: a blocking DELETE with a JSON body naming the URL. */
  lemma LinkDeleteArgsMerged(url: Value, data: Value, cookie: string, nonce: string)
    ensures var a := DeepParseArgs(LinkDeleteArgs(url), LinkDefaultArgs(data, cookie, nonce));
      a["method"] == Str("DELETE") &&
      a["body"] == Json(Arr(map["force" := Bool(true), "url" := url])) &&
      a["blocking"] == Bool(true) && a["timeout"] == Int(30)
  {
    var args := LinkDeleteArgs(url);
    assert "method" in args && "body" in args && !args["method"].Arr? && !args["body"].Arr?;
    assert "blocking" !in args && "timeout" !in args;
    assert "blocking" in DefaultApiArgs(data, cookie, Str(nonce)) && "timeout" in DefaultApiArgs(data, cookie, Str(nonce));
  }

  /** The merged delete arguments keep the default cookie and nonce headers next to the content type. */
  lemma LinkDeleteArgsHeaders(url: Value, data: Value, cookie: string, nonce: string)
    ensures DeepParseArgs(LinkDeleteArgs(url), LinkDefaultArgs(data, cookie, nonce))["headers"] == Arr(JsonRequestHeaders(cookie, Str(nonce)))
  {
    var d := LinkDefaultArgs(data, cookie, nonce);
    assert "headers" in DefaultApiArgs(data, cookie, Str(nonce));
    assert d["headers"] == DefaultApiArgs(data, cookie, Str(nonce))["headers"];
    assert IsSet(d, "headers") && LinkDeleteArgs(url)["headers"] == Arr(JsonHeaders);
    JsonHeadersMerged(data, cookie, Str(nonce));
  }

  /** The requests of delete_from_each(): the bare route on every site, all with the same arguments. */
  function Broadcast(sites: seq<Entry>, args: Args): (r: seq<Request>)
    ensures |r| == |sites|
    ensures forall k :: 0 <= k < |r| ==> r[k] == Request(sites[k].site.blogId, LinkApiPath, args)
  {
    if |sites| == 0 then []
    else
      var r := Broadcast(sites[..|sites| - 1], args) + [Request(sites[|sites| - 1].site.blogId, LinkPath(Int(0)), args)];
      assert forall k :: 0 <= k < |sites| - 1 ==> sites[..|sites| - 1][k] == sites[k];
      r
  }

  /** The meta get_post_meta() sees for a post ID; ID 0 names no post and has none. */
  function StoredMeta(store: map<int, Meta>, id: int): Meta
  {
    if id == 0 then map[] else MetaOf(store, id)
  }

  /** update_post_meta( $id, 'wds_propagation_ids', $results ); post 0 does not exist, so nothing is written for it. */
  function StoreResults(store: map<int, Meta>, id: int, results: Args): map<int, Meta>
  {
    if id == 0 then store else store[id := UpdatedMeta(MetaOf(store, id), PropagationMetaKey, Arr(results))]
  }

  /** The IDs stored by one propagation are the propagated IDs the next one reads. */
  lemma StoreResultsReadBack(store: map<int, Meta>, id: int, results: Args)
    requires id != 0
    ensures PropagatedIds(StoredMeta(StoreResults(store, id, results), id)) == results
  {
  }

  class Link {
    const siteList: SiteList
    var linkId: Value
    var data: Value
    /** The memoised ID of the link's translation post; None is PHP's null. */
    var translationId: Option<int>
    var site: Option<Entry>

    constructor (siteList: SiteList)
      ensures this.siteList == siteList
      ensures linkId == Null && data == Null && translationId == None && site == None
    {
      this.siteList := siteList;
      linkId, data, translationId, site := Null, Null, None, None;
    }

    /**
     * get_translation_post_id: the first translation post of the link, or
     * 0 when there is none. `posts` is what the WP_Query for translation
     * posts of type `link` with this object's link ID finds. The answer is
     * memoised, even when it is 0.
     */
    method GetTranslationPostId(posts: seq<int>) returns (id: int)
      modifies this`translationId
      ensures translationId == Some(id)
      ensures old(translationId).Some? ==> id == old(translationId).value
      ensures old(translationId).None? && |posts| == 0 ==> id == 0
      ensures old(translationId).None? && |posts| > 0 ==> id == posts[0]
    {
      if translationId.Some? {
        return translationId.value;
      }
      if |posts| == 0 {
        translationId := Some(0);
        return 0;
      }
      translationId := Some(posts[0]);
      id := posts[0];
    }

    /** A second lookup gives the first answer, whatever the query would now find. */
    method GetTranslationPostIdTwice(posts: seq<int>, later: seq<int>) returns (first: int, second: int)
      modifies this`translationId
      ensures first == second
    {
      first := GetTranslationPostId(posts);
      second := GetTranslationPostId(later);
    }

    /** post_to_site: the request for the current site; `respond` stands for the remote sites. */
    method PostToSite(host: Host, args: Args, id: Value, respond: Request -> Response) returns (resp: Response)
      requires site.Some?
      modifies host`sent
      ensures host.sent == old(host.sent) + [Request(site.value.site.blogId, LinkPath(id), args)]
      ensures resp == respond(Request(site.value.site.blogId, LinkPath(id), args))
    {
      var path := LinkApiPath;
      if IntOf(id) > 0 {
        path := path + "/" + StrOf(id);
      }
      var request := Request(site.value.site.blogId, path, args);
      host.Send(request);
      resp := respond(request);
    }

    /** One pass of the loop of send_to_each(): the site's request, and the ID its answer gives. */
    method SendToSite(host: Host, e: Entry, m: Mapping, args: Args, respond: Request -> Response) returns (id: int)
      modifies this`site, host`sent
      ensures site == Some(e)
      ensures host.sent == old(host.sent) + [SiteRequest(e, m, args)]
      ensures id == SiteId(e, m, args, respond)
    {
      site := Some(e);
      var path := e.site.path;
      var result;
      if IsSet(m.translated, path) {
        result := PostToSite(host, TranslateArgs(args), m.translated[path], respond);
      } else {
        var remote := if IsSet(m.propagated, path) then m.propagated[path] else Int(0);
        result := PostToSite(host, args, remote, respond);
      }
      id := IdFromResponse(result);
    }

    /** The loop of send_to_each(). */
    method SendToSites(host: Host, sites: seq<Entry>, m: Mapping, args: Args, respond: Request -> Response) returns (results: Args)
      modifies this`site, host`sent
      ensures results == LinkResults(sites, m, args, respond)
      ensures host.sent == old(host.sent) + LinkRequests(sites, m, args)
    {
      results := map[];
      var i := 0;
      while i < |sites|
        invariant 0 <= i <= |sites|
        invariant results == LinkResults(sites[..i], m, args, respond)
        invariant host.sent == old(host.sent) + LinkRequests(sites[..i], m, args)
      {
        assert sites[..i + 1][..i] == sites[..i];
        var id := SendToSite(host, sites[i], m, args, respond);
        if id != 0 {
          results := results[sites[i].site.path := Int(id)];
        }
        i := i + 1;
      }
      assert sites[..i] == sites;
    }

    /**
     * send_to_each: the defaults, made safe for IIS, to every site as the
     * mapping of the translation post directs, collecting the IDs answered.
     */
    method SendToEach(host: Host, posts: seq<int>, respond: Request -> Response) returns (results: Args)
      modifies this`site, this`translationId, siteList, host`sitesCache, host`sent
      ensures translationId.Some? && (old(translationId).Some? ==> translationId == old(translationId))
      ensures var args := LinkSendArgs(data, host.cookieHeader, host.freshNonce, host.isIIS);
        var m := LanguageMapping(StoredMeta(host.postMeta, translationId.value));
        results == LinkResults(siteList.sites, m, args, respond) &&
        host.sent == old(host.sent) + LinkRequests(siteList.sites, m, args)
    {
      var args := LinkSendArgs(data, host.cookieHeader, host.freshNonce, host.isIIS);
      var tid := GetTranslationPostId(posts);
      var m := LanguageMapping(StoredMeta(host.postMeta, tid));
      var sites := siteList.Sites(host);
      assert args == LinkSendArgs(data, host.cookieHeader, host.freshNonce, host.isIIS);
      assert m == LanguageMapping(StoredMeta(host.postMeta, translationId.value));
      results := SendToSites(host, sites, m, args, respond);
    }

    /**
     * What propagate leaves behind, from the post meta and the requests sent
     * before it: one request per site of the list carrying the link's data,
     * and the IDs the sites answered stored on the translation post.
     */
    ghost predicate Propagated(host: Host, oldMeta: map<int, Meta>, oldSent: seq<Request>, respond: Request -> Response)
      reads this, siteList, host
    {
      translationId.Some? &&
      host.sent == oldSent + LinkRequests(siteList.sites,
        LanguageMapping(StoredMeta(oldMeta, translationId.value)), LinkSendArgs(data, host.cookieHeader, host.freshNonce, host.isIIS)) &&
      host.postMeta == StoreResults(oldMeta, translationId.value,
        LinkResults(siteList.sites, LanguageMapping(StoredMeta(oldMeta, translationId.value)),
          LinkSendArgs(data, host.cookieHeader, host.freshNonce, host.isIIS), respond))
    }

    /** The second half of propagate: send, then store the IDs answered on the translation post. */
    method SendAndStore(host: Host, posts: seq<int>, respond: Request -> Response)
      modifies this`site, this`translationId, siteList, host`sitesCache, host`sent, host`postMeta
      ensures Propagated(host, old(host.postMeta), old(host.sent), respond)
    {
      var results := SendToEach(host, posts, respond);
      var tid := GetTranslationPostId(posts);
      if tid != 0 {
        var _ := host.UpdatePostMeta(tid, PropagationMetaKey, Arr(results));
      }
    }

    /**
     * propagate: map the link, send it to every site and store the IDs
     * answered on the translation post.
     */
    method Propagate(host: Host, linkId: Value, link: Args, cats: seq<Args>, posts: seq<int>, respond: Request -> Response)
      modifies this`linkId, this`data, this`site, this`translationId, siteList, host`sitesCache, host`sent, host`postMeta
      ensures this.linkId == linkId && data == Arr(MapLinkData(link, cats))
      ensures Propagated(host, old(host.postMeta), old(host.sent), respond)
    {
      this.linkId := linkId;
      data := Arr(MapLinkData(link, cats));
      assert host.postMeta == old(host.postMeta);
      SendAndStore(host, posts, respond);
    }

    /** The loop of delete_from_each(): every site gets the same request; the answers are ignored. */
    method BroadcastToSites(host: Host, sites: seq<Entry>, args: Args, respond: Request -> Response)
      modifies this`site, host`sent
      ensures host.sent == old(host.sent) + Broadcast(sites, args)
    {
      var i := 0;
      while i < |sites|
        invariant 0 <= i <= |sites|
        invariant host.sent == old(host.sent) + Broadcast(sites[..i], args)
      {
        assert sites[..i + 1][..i] == sites[..i];
        site := Some(sites[i]);
        var _ := PostToSite(host, args, Int(0), respond);
        i := i + 1;
      }
      assert sites[..i] == sites;
    }

    /**
     * delete / delete_from_each: a DELETE naming the link's URL, over the
     * defaults (whose body is the object's `data`, not the deleted link)
     * and made safe for IIS, to every site.
     */
    method Delete(host: Host, linkData: Args, cats: seq<Args>, respond: Request -> Response)
      modifies this`site, siteList, host`sitesCache, host`sent
      ensures host.sent == old(host.sent) + Broadcast(siteList.sites,
        LinkDeleteRequestArgs(Get(MapLinkData(linkData, cats), "url"), data, host.cookieHeader, host.freshNonce, host.isIIS))
    {
      var mapped := MapLinkData(linkData, cats);
      var args := LinkDeleteRequestArgs(Get(mapped, "url"), data, host.cookieHeader, host.freshNonce, host.isIIS);
      var sites := siteList.Sites(host);
      BroadcastToSites(host, sites, args, respond);
    }
  }
}
