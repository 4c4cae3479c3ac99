/**
 * JPry_Utility: merging nested argument arrays, and fetching the list of
 * network sites with its two rewrites (drop the main site, trim the slashes
 * of each path) behind a cache keyed by the options.
 */
module Utility {
  import opened Php
  import opened Host

  /** The string-keyed entries of an array value; a non-array has none. */
  function FieldsOf(v: Value): Args
  {
    if v.Arr? then v.fields else map[]
  }

  /**
   * deep_parse_args($args, $defaults): an array argument whose key has a
   * non-null default is merged with that default first; then the caller's
   * keys win over the defaults.
   */
  function DeepParseArgs(args: Args, defaults: Args): (r: Args)
    decreases Arr(args)
    ensures forall k :: k in r <==> k in args || k in defaults
    ensures forall k :: k in defaults && k !in args ==> r[k] == defaults[k]
    ensures forall k :: k in args && !IsSet(defaults, k) ==> r[k] == args[k]
    ensures forall k :: k in args && !args[k].Arr? ==> r[k] == args[k]
    ensures forall k :: k in args && IsSet(defaults, k) && args[k].Arr? ==>
      r[k] == Arr(DeepParseArgs(args[k].fields, FieldsOf(defaults[k])))
  {
    var merged := map k | k in args ::
      if IsSet(defaults, k) && args[k].Arr? then Arr(DeepParseArgs(args[k].fields, FieldsOf(defaults[k]))) else args[k];
    ParseArgs(merged, defaults)
  }

  /** Without nested arrays among the arguments, deep merging is plain wp_parse_args. */
  lemma DeepParseArgsFlat(args: Args, defaults: Args)
    requires forall k :: k in args ==> !args[k].Arr?
    ensures DeepParseArgs(args, defaults) == ParseArgs(args, defaults)
  {
    var r := DeepParseArgs(args, defaults);
    assert forall k :: k in r ==> r[k] == ParseArgs(args, defaults)[k];
  }

  /** Merging a set of arguments with itself as defaults gives it back. */
  lemma {:induction false} DeepParseArgsSelf(a: Args)
    decreases Arr(a)
    ensures DeepParseArgs(a, a) == a
  {
    forall k | k in a && IsSet(a, k) && a[k].Arr?
      ensures DeepParseArgs(a[k].fields, FieldsOf(a[k])) == a[k].fields
    {
      DeepParseArgsSelf(a[k].fields);
    }
    assert forall k :: k in a ==> DeepParseArgs(a, a)[k] == a[k];
  }

  /** Merging with the same defaults a second time changes nothing. */
  lemma {:induction false} DeepParseArgsIdempotent(a: Args, d: Args)
    decreases Arr(a)
    ensures DeepParseArgs(DeepParseArgs(a, d), d) == DeepParseArgs(a, d)
  {
    var r := DeepParseArgs(a, d);
    forall k | k in r
      ensures DeepParseArgs(r, d)[k] == r[k]
    {
      if k in a && IsSet(d, k) && a[k].Arr? {
        DeepParseArgsIdempotent(a[k].fields, FieldsOf(d[k]));
      } else if k !in a && IsSet(d, k) && d[k].Arr? {
        DeepParseArgsSelf(d[k].fields);
      }
    }
  }

  /**
   * The entry remove_main_site looks for: a site whose blog ID equals its
   * network (site) ID. This is the main blog only on network 1, where the
   * main blog has ID 1; on any other network it may pick another blog or none.
   */
  predicate IsMainEntry(e: Entry)
  {
    e.site.blogId == e.site.siteId
  }

  /** The sites without the first main-site entry. */
  function WithoutMainSite(sites: seq<Entry>): seq<Entry>
  {
    if |sites| == 0 then []
    else if IsMainEntry(sites[0]) then sites[1..]
    else [sites[0]] + WithoutMainSite(sites[1..])
  }

  /** When the first main-site entry sits at `i`, exactly that entry goes and the rest keep their order. */
  lemma {:induction false} WithoutMainSiteAt(sites: seq<Entry>, i: nat)
    requires i < |sites| && IsMainEntry(sites[i])
    requires forall j :: 0 <= j < i ==> !IsMainEntry(sites[j])
    ensures WithoutMainSite(sites) == sites[..i] + sites[i + 1..]
  {
    if i > 0 {
      var tail := sites[1..];
      assert tail[i - 1] == sites[i];
      forall j | 0 <= j < i - 1 ensures !IsMainEntry(tail[j]) {
        assert tail[j] == sites[j + 1];
      }
      WithoutMainSiteAt(tail, i - 1);
      assert tail[..i - 1] + tail[i..] == sites[1..i] + sites[i + 1..];
      assert sites[..i] == [sites[0]] + sites[1..i];
    }
  }

  /** Without a main-site entry the list comes back as it was. */
  lemma {:induction false} WithoutMainSiteNone(sites: seq<Entry>)
    requires forall j :: 0 <= j < |sites| ==> !IsMainEntry(sites[j])
    ensures WithoutMainSite(sites) == sites
  {
    if |sites| > 0 {
      var tail := sites[1..];
      forall j | 0 <= j < |tail| ensures !IsMainEntry(tail[j]) {
        assert tail[j] == sites[j + 1];
      }
      WithoutMainSiteNone(tail);
      assert sites == [sites[0]] + tail;
    }
  }

  /** remove_main_site: the loop stops at the first main-site entry and unsets it. */
  method RemoveMainSite(sites: seq<Entry>) returns (r: seq<Entry>)
    ensures r == WithoutMainSite(sites)
  {
    var i := 0;
    while i < |sites|
      invariant 0 <= i <= |sites|
      invariant WithoutMainSite(sites) == sites[..i] + WithoutMainSite(sites[i..])
    {
      if IsMainEntry(sites[i]) {
        return sites[..i] + sites[i + 1..];
      }
      assert sites[i..] == [sites[i]] + sites[i + 1..];
      assert sites[..i + 1] == sites[..i] + [sites[i]];
      i := i + 1;
    }
    assert sites[..i] == sites;
    return sites;
  }

  /** The entry with trim( $path, '/' ) as its path and nothing else changed. */
  function StripEntry(e: Entry): Entry
  {
    e.(site := e.site.(path := Trim(e.site.path, '/')))
  }

  /**
   * What trim( $s, '/' ) keeps: a contiguous run of `s` that starts and ends
   * with something other than '/', with nothing but slashes cut from either end.
   */
  lemma TrimSlashes(s: string)
    ensures exists i, j :: (0 <= i <= j <= |s| && Trim(s, '/') == s[i..j] &&
      (forall k :: 0 <= k < i ==> s[k] == '/') && (forall k :: j <= k < |s| ==> s[k] == '/'))
    ensures |Trim(s, '/')| > 0 ==> Trim(s, '/')[0] != '/' && Trim(s, '/')[|Trim(s, '/')| - 1] != '/'
  {
    var i := TrimLeftCount(s, '/');
    var t := s[i..];
    var j := TrimRightCount(t, '/');
    assert Trim(s, '/') == s[i..i + j];
    forall k | i + j <= k < |s| ensures s[k] == '/' {
      assert s[k] == t[k - i];
    }
  }

  function TrimLeftCount(s: string, c: char): (i: nat)
    ensures i <= |s| && TrimLeft(s, c) == s[i..]
    ensures forall k :: 0 <= k < i ==> s[k] == c
    ensures |TrimLeft(s, c)| > 0 ==> TrimLeft(s, c)[0] != c
    decreases |s|
  {
    if |s| > 0 && s[0] == c then
      var i' := TrimLeftCount(s[1..], c);
      assert s[1..][i'..] == s[i' + 1..];
      assert forall k :: 0 < k < i' + 1 ==> s[k] == s[1..][k - 1];
      i' + 1
    else 0
  }

  function TrimRightCount(s: string, c: char): (j: nat)
    ensures j <= |s| && TrimRight(s, c) == s[..j]
    ensures forall k :: j <= k < |s| ==> s[k] == c
    ensures |TrimRight(s, c)| > 0 ==> TrimRight(s, c)[j - 1] != c
    decreases |s|
  {
    if |s| > 0 && s[|s| - 1] == c then
      var j := TrimRightCount(s[..|s| - 1], c);
      assert s[..|s| - 1][..j] == s[..j];
      assert forall k :: j <= k < |s| - 1 ==> s[k] == s[..|s| - 1][k];
      j
    else |s|
  }

  /** strip_path_slashes: each path trimmed of '/', in place. */
  method StripPathSlashes(sites: seq<Entry>) returns (r: seq<Entry>)
    ensures |r| == |sites|
    ensures forall k :: 0 <= k < |r| ==> r[k] == StripEntry(sites[k])
  {
    r := sites;
    var i := 0;
    while i < |r|
      invariant 0 <= i <= |r| == |sites|
      invariant forall k :: 0 <= k < i ==> r[k] == StripEntry(sites[k])
      invariant forall k :: i <= k < |r| ==> r[k] == sites[k]
    {
      r := r[i := StripEntry(r[i])];
      i := i + 1;
    }
  }

  /** What a cache miss computes: the network's sites, maybe without the main site, maybe stripped. */
  function ShapeSites(raw: seq<Entry>, args: SitesArgs): seq<Entry>
  {
    var kept := if args.includeMainSite then raw else WithoutMainSite(raw);
    if args.stripPathSlashes then seq(|kept|, k requires 0 <= k < |kept| => StripEntry(kept[k])) else kept
  }

  /** The options initialize_sites() asks for: only 'strip_path_slashes' => true, over the defaults. */
  function PropagationSitesArgs(mainSite: int): (a: SitesArgs)
    ensures a.stripPathSlashes && !a.includeMainSite && a.mainSite == mainSite
  {
    SitesArgs(mainSite, false, true)
  }

  /** What get_network_sites() yields for `args`: the cached list, or a freshly shaped one. */
  function SitesLookup(cache: map<SitesArgs, seq<Entry>>, networks: map<int, seq<Site>>, args: SitesArgs): seq<Entry>
  {
    if args in cache then cache[args] else ShapeSites(WpGetSites(networks, args.mainSite), args)
  }

  /**
   * get_network_sites: a cached list is returned as it is; otherwise the
   * list is fetched, shaped (main site first, slashes second) and cached.
   */
  method GetNetworkSites(host: Host, args: SitesArgs) returns (sites: seq<Entry>)
    modifies host`sitesCache
    ensures sites == SitesLookup(old(host.sitesCache), host.networks, args)
    ensures host.sitesCache == old(host.sitesCache)[args := sites]
  {
    if args in host.sitesCache {
      sites := host.sitesCache[args];
      assert host.sitesCache == host.sitesCache[args := sites];
      return;
    }
    sites := WpGetSites(host.networks, args.mainSite);
    if !args.includeMainSite {
      sites := RemoveMainSite(sites);
    }
    if args.stripPathSlashes {
      sites := StripPathSlashes(sites);
    }
    host.CacheSites(args, sites);
  }

  /** Once a list is cached for some options, every later lookup with them gives that list. */
  lemma SitesLookupStable(cache: map<SitesArgs, seq<Entry>>, networks: map<int, seq<Site>>, args: SitesArgs, other: SitesArgs)
    ensures var c := cache[args := SitesLookup(cache, networks, args)];
      SitesLookup(c, networks, args) == SitesLookup(cache, networks, args) &&
      SitesLookup(c, networks, other) == SitesLookup(cache, networks, other)
  {
  }

  /** is_post_translated: every post counts as translated. */
  function IsPostTranslated(postId: int): (translated: bool)
    ensures translated
  {
    true
  }
}
