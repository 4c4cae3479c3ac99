/**
 * JPry_Abstract_Translation_Propagation: what every propagation class
 * shares. That is the IIS method rewrite, the default request arguments and
 * the lazily fetched list of sub-sites.
 */
module AbstractPropagation {
  import opened Php
  import opened Host
  import opened Utility

  /** The HTTP methods that IIS refuses and that travel as an override header instead. */
  const BrokenIisMethods: set<string> := {"DELETE", "PATCH", "PUT"}

  const OverrideHeader := "X-HTTP-METHOD-OVERRIDE"

  /** `isset( $broken_iis_methods[ $args['method'] ] )`. */
  predicate NeedsOverride(args: Args)
  {
    Get(args, "method").Str? && Get(args, "method").s in BrokenIisMethods
  }

  /**
   * maybe_fix_iis: on IIS, a DELETE, PATCH or PUT request is sent as GET,
   * with the real method in the override header.
   */
  function MaybeFixIis(args: Args, isIIS: bool): (r: Args)
    ensures !isIIS || !NeedsOverride(args) ==> r == args
    ensures isIIS && NeedsOverride(args) ==>
      r.Keys == args.Keys + {"headers"} &&
      r["method"] == Str("GET") &&
      r["headers"] == Arr(FieldsOf(Get(args, "headers"))[OverrideHeader := args["method"]]) &&
      forall k :: k in args && k != "headers" && k != "method" ==> r[k] == args[k]
  {
    if isIIS && NeedsOverride(args) then
      args["headers" := Arr(FieldsOf(Get(args, "headers"))[OverrideHeader := args["method"]])]["method" := Str("GET")]
    else args
  }

  /** GET is not a broken method, so a rewritten request is left alone by a second pass. */
  lemma MaybeFixIisIdempotent(args: Args, isIIS: bool)
    ensures MaybeFixIis(MaybeFixIis(args, isIIS), isIIS) == MaybeFixIis(args, isIIS)
  {
  }

  /** On IIS every header already there survives the rewrite, and only the override header is added. */
  lemma MaybeFixIisKeepsHeaders(args: Args, isIIS: bool, h: string)
    requires h in FieldsOf(Get(args, "headers")) && h != OverrideHeader
    ensures h in FieldsOf(Get(MaybeFixIis(args, isIIS), "headers"))
    ensures FieldsOf(Get(MaybeFixIis(args, isIIS), "headers"))[h] == FieldsOf(Get(args, "headers"))[h]
  {
  }

  /** get_default_api_args: a fire-and-forget POST carrying `data`, the cookies and the nonce. */
  function DefaultApiArgs(data: Value, cookie: string, nonce: Value): Args
  {
    map[
      "blocking" := Bool(false),
      "body" := data,
      "headers" := Arr(map["cookie" := Str(cookie), "X-WP-Nonce" := nonce]),
      "method" := Str("POST"),
      "timeout" := Int(1)
    ]
  }

  /** The default arguments are a non-blocking POST, so the IIS rewrite never touches them. */
  lemma DefaultApiArgsSurviveIis(data: Value, cookie: string, nonce: Value, isIIS: bool)
    ensures MaybeFixIis(DefaultApiArgs(data, cookie, nonce), isIIS) == DefaultApiArgs(data, cookie, nonce)
    ensures DefaultApiArgs(data, cookie, nonce)["body"] == data
    ensures !Truthy(DefaultApiArgs(data, cookie, nonce)["blocking"])
    ensures IntOf(DefaultApiArgs(data, cookie, nonce)["timeout"]) == 1
  {
  }

  /** The headers of a request whose body is JSON text. */
  const JsonHeaders: Args := map["Content-Type" := Str("application/json")]

  /** The headers a JSON request ends up with after the defaults are merged in. */
  function JsonRequestHeaders(cookie: string, nonce: Value): Args
  {
    map["cookie" := Str(cookie), "X-WP-Nonce" := nonce, "Content-Type" := Str("application/json")]
  }

  /** The JSON content type joins the default cookie and nonce headers. */
  lemma JsonHeadersMerged(data: Value, cookie: string, nonce: Value)
    ensures DeepParseArgs(JsonHeaders, FieldsOf(DefaultApiArgs(data, cookie, nonce)["headers"])) == JsonRequestHeaders(cookie, nonce)
  {
    DeepParseArgsFlat(JsonHeaders, FieldsOf(DefaultApiArgs(data, cookie, nonce)["headers"]));
  }

  /** The `$sites` field of a propagation object and the initialize_sites()/sites() pair around it. */
  class SiteList {
    var sites: seq<Entry>

    constructor ()
      ensures sites == []
    {
      sites := [];
    }

    /** initialize_sites(): fetch only while the field is empty. */
    method InitializeSites(host: Host)
      modifies this, host`sitesCache
      ensures old(sites) != [] ==> sites == old(sites) && host.sitesCache == old(host.sitesCache)
      ensures old(sites) == [] ==>
        sites == SitesLookup(old(host.sitesCache), host.networks, PropagationSitesArgs(host.mainSite)) &&
        host.sitesCache == old(host.sitesCache)[PropagationSitesArgs(host.mainSite) := sites]
    {
      if sites == [] {
        sites := GetNetworkSites(host, PropagationSitesArgs(host.mainSite));
      }
    }

    /** sites(): the field, initialized on first use. */
    method Sites(host: Host) returns (r: seq<Entry>)
      modifies this, host`sitesCache
      ensures r == sites
      ensures old(sites) != [] ==> sites == old(sites) && host.sitesCache == old(host.sitesCache)
      ensures old(sites) == [] ==>
        sites == SitesLookup(old(host.sitesCache), host.networks, PropagationSitesArgs(host.mainSite)) &&
        host.sitesCache == old(host.sitesCache)[PropagationSitesArgs(host.mainSite) := sites]
    {
      InitializeSites(host);
      r := sites;
    }
  }

  /** Two calls of sites() in a row give the same list. */
  method SitesTwice(list: SiteList, host: Host) returns (first: seq<Entry>, second: seq<Entry>)
    modifies list, host`sitesCache
    ensures first == second
  {
    first := list.Sites(host);
    second := list.Sites(host);
  }
}
