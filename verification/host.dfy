/**
 * The host the plugins run in, reduced to the state they read and write:
 * post and term meta, transients and site transients, the cache of network
 * site lists, the outgoing HTTP requests (appended, never sent), the term
 * writes and object-term assignments made on the sub-sites, and the
 * scripts enqueued for the widget admin screens. Facts the host answers
 * for the current request (is this the main site, is the server IIS, which
 * sites the network has, how each post type is exposed over REST) are
 * constants of the host object.
 */
module Host {
  import opened Php

  /** One row of wp_get_sites(). */
  datatype Site = Site(blogId: int, siteId: int, path: string)

  /** A site together with its key in the PHP array that holds it. */
  datatype Entry = Entry(key: int, site: Site)

  /** The options get_network_sites() is called with, after defaults. */
  datatype SitesArgs = SitesArgs(mainSite: int, includeMainSite: bool, stripPathSlashes: bool)

  /** A WP_Post, as far as the plugins read it. */
  datatype Post = Post(id: int, postType: string, status: string)

  /** An outgoing REST request: get_rest_url($blog_id, $path) and its args. */
  datatype Request = Request(blogId: int, path: string, args: Args)

  /** One wp_set_object_terms() call. */
  datatype TermAssignment = TermAssignment(objectId: int, terms: seq<Value>, taxonomy: string)

  /** One wp_insert_term() or wp_update_term() call on a sub-site. */
  datatype TermWrite =
    | InsertTerm(blogId: int, name: Value, taxonomy: Value, args: Args)
    | UpdateTerm(blogId: int, termId: Value, taxonomy: Value, args: Args)

  /** update_*_meta: every row of `key` gets `v`, or one row is added when there is none. */
  function UpdatedMeta(m: Meta, key: string, v: Value): (r: Meta)
    ensures GetSingle(r, key) == v
    ensures forall k :: k != key ==> (k in r <==> k in m) && (k in m ==> r[k] == m[k])
  {
    if key in m && |m[key]| > 0 then m[key := seq(|m[key]|, _ => v)] else m[key := [v]]
  }

  /** wp_get_sites( array( 'network_id' => $id ) ): a list, so keys run from 0. */
  function WpGetSites(networks: map<int, seq<Site>>, id: int): (r: seq<Entry>)
    ensures id in networks ==> |r| == |networks[id]|
    ensures forall k :: 0 <= k < |r| ==> r[k].key == k
  {
    if id in networks then seq(|networks[id]|, k requires 0 <= k < |networks[id]| => Entry(k, networks[id][k])) else []
  }

  /** get_transient() and get_site_transient(): the stored value, or false when there is none. */
  function GetTransient(t: map<string, Value>, key: string): Value
  {
    if key in t then t[key] else Bool(false)
  }

  class Host {
    const isMainSite: bool
    const isIIS: bool
    const mainSite: int
    /** What wp_get_sites() returns for each network ID. */
    const networks: map<int, seq<Site>>
    /** For each registered post type, its `rest_base` (null when unset). */
    const restBases: map<string, Value>
    /** What wp_create_nonce( 'wp_rest' ) returns during this request. */
    const freshNonce: string
    /** implode( '; ', build_cookies() ): the request's cookies, encoded. */
    const cookieHeader: string
    /** The PHP files that exist on disk. */
    const files: set<string>

    var postMeta: map<int, Meta>
    var termMeta: map<int, Meta>
    var transients: map<string, Value>
    var siteTransients: map<string, Value>
    var sitesCache: map<SitesArgs, seq<Entry>>
    var sent: seq<Request>
    var termWrites: seq<TermWrite>
    var objectTerms: seq<TermAssignment>
    var scripts: seq<string>
    /** The files loaded with require_once. */
    var required: set<string>

    constructor (isMainSite: bool, isIIS: bool, mainSite: int, networks: map<int, seq<Site>>, restBases: map<string, Value>,
                 freshNonce: string, cookieHeader: string, files: set<string>)
      ensures this.isMainSite == isMainSite && this.isIIS == isIIS && this.mainSite == mainSite
      ensures this.networks == networks && this.restBases == restBases
      ensures this.freshNonce == freshNonce && this.cookieHeader == cookieHeader && this.files == files
      ensures required == {}
      ensures postMeta == map[] && termMeta == map[] && transients == map[] && siteTransients == map[]
      ensures sitesCache == map[] && sent == [] && termWrites == [] && objectTerms == [] && scripts == []
    {
      this.isMainSite := isMainSite;
      this.isIIS := isIIS;
      this.mainSite := mainSite;
      this.networks := networks;
      this.restBases := restBases;
      this.freshNonce := freshNonce;
      this.cookieHeader := cookieHeader;
      this.files := files;
      required := {};
      postMeta, termMeta, transients, siteTransients := map[], map[], map[], map[];
      sitesCache, sent, termWrites, objectTerms, scripts := map[], [], [], [], [];
    }

    /** update_post_meta(); the result is false only when the single row already holds `v`. */
    method UpdatePostMeta(id: int, key: string, v: Value) returns (changed: bool)
      modifies this`postMeta
      ensures postMeta == old(postMeta)[id := UpdatedMeta(MetaOf(old(postMeta), id), key, v)]
      ensures changed == !(key in MetaOf(old(postMeta), id) && MetaOf(old(postMeta), id)[key] == [v])
    {
      var m := MetaOf(postMeta, id);
      changed := !(key in m && m[key] == [v]);
      postMeta := postMeta[id := UpdatedMeta(m, key, v)];
    }

    /** delete_post_meta(); false when the post has no row for `key`. */
    method DeletePostMeta(id: int, key: string) returns (deleted: bool)
      modifies this`postMeta
      ensures postMeta == old(postMeta)[id := MetaOf(old(postMeta), id) - {key}]
      ensures deleted == (key in MetaOf(old(postMeta), id) && |MetaOf(old(postMeta), id)[key]| > 0)
    {
      var m := MetaOf(postMeta, id);
      deleted := key in m && |m[key]| > 0;
      postMeta := postMeta[id := m - {key}];
    }

    /** add_post_meta($id, $key, $v, true): refused when a row for `key` exists. */
    method AddUniquePostMeta(id: int, key: string, v: Value) returns (added: bool)
      modifies this`postMeta
      ensures added == !(key in MetaOf(old(postMeta), id) && |MetaOf(old(postMeta), id)[key]| > 0)
      ensures postMeta == if added then old(postMeta)[id := MetaOf(old(postMeta), id)[key := [v]]] else old(postMeta)
    {
      var m := MetaOf(postMeta, id);
      added := !(key in m && |m[key]| > 0);
      if added {
        postMeta := postMeta[id := m[key := [v]]];
      }
    }

    /** add_term_meta($id, $key, $v): appends one more row. */
    method AddTermMeta(id: int, key: string, v: Value)
      modifies this`termMeta
      ensures termMeta == old(termMeta)[id := MetaOf(old(termMeta), id)[key := (if key in MetaOf(old(termMeta), id) then MetaOf(old(termMeta), id)[key] else []) + [v]]]
    {
      var m := MetaOf(termMeta, id);
      termMeta := termMeta[id := m[key := (if key in m then m[key] else []) + [v]]];
    }

    /** wp_remote_request() and friends: the request is recorded, not sent. */
    method Send(r: Request)
      modifies this`sent
      ensures sent == old(sent) + [r]
    {
      sent := sent + [r];
    }

    method SetTransient(key: string, v: Value)
      modifies this`transients
      ensures transients == old(transients)[key := v]
    {
      transients := transients[key := v];
    }

    method DeleteTransient(key: string)
      modifies this`transients
      ensures transients == old(transients) - {key}
    {
      transients := transients - {key};
    }

    method SetSiteTransient(key: string, v: Value)
      modifies this`siteTransients
      ensures siteTransients == old(siteTransients)[key := v]
    {
      siteTransients := siteTransients[key := v];
    }

    method CacheSites(key: SitesArgs, sites: seq<Entry>)
      modifies this`sitesCache
      ensures sitesCache == old(sitesCache)[key := sites]
    {
      sitesCache := sitesCache[key := sites];
    }

    method WriteTerm(w: TermWrite)
      modifies this`termWrites
      ensures termWrites == old(termWrites) + [w]
    {
      termWrites := termWrites + [w];
    }

    method SetObjectTerms(a: TermAssignment)
      modifies this`objectTerms
      ensures objectTerms == old(objectTerms) + [a]
    {
      objectTerms := objectTerms + [a];
    }

    /** require_once( $file ). */
    method Require(file: string)
      modifies this`required
      ensures required == old(required) + {file}
    {
      required := required + {file};
    }

    method EnqueueScript(handle: string)
      modifies this`scripts
      ensures scripts == old(scripts) + [handle]
    {
      scripts := scripts + [handle];
    }
  }
}
