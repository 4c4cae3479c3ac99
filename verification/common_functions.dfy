/**
 * JPry_Common_Functions, the network-wide must-use plugin: it rebuilds a
 * plugin's row of meta links so the plugin site opens in a new tab, lets
 * the main site choose from every theme (the theme list cached in a site
 * transient), and replaces the excerpt's "more" string with a link to the
 * post. Strings pass through translation unchanged, as in an English
 * locale.
 */
module CommonFunctions {
  import opened Php
  import opened Host

  /** '<a href="' . $href . '" title="' . $title . '"' . $attributes . '>' . $text . '</a>'. */
  function Anchor(href: string, title: string, attributes: string, text: string): (a: string)
    ensures StartsWith(a, "<a href=\"")
    ensures |a| == 9 + |href| + 9 + |title| + 1 + |attributes| + 1 + |text| + 4
    ensures a[9..9 + |href|] == href
    ensures a[|a| - 4..] == "</a>"
    ensures a[|a| - 4 - |text| - 1 - |attributes|..|a| - 4 - |text| - 1] == attributes
  {
    var a := "<a href=\"" + href + "\" title=\"" + title + "\"" + attributes + ">" + text + "</a>";
    assert a[..9] == "<a href=\"";
    assert a[9..9 + |href|] == href;
    assert a[|a| - 4 - |text| - 1 - |attributes|..|a| - 4 - |text| - 1] == attributes;
    a
  }

  /** The attribute that makes the plugin-site link open in a new tab. */
  const NewTab := " target=\"_blank\""

  /** The author entry's text: the author, linked to the author's homepage when there is one. */
  function AuthorText(pluginData: Args): (t: string)
    ensures !Truthy(Get(pluginData, "AuthorURI")) ==> t == StrOf(Get(pluginData, "Author"))
    ensures Truthy(Get(pluginData, "AuthorURI")) ==> (
      StartsWith(t, "<a href=\"" + StrOf(Get(pluginData, "AuthorURI"))) &&
      |t| >= 4 + |StrOf(Get(pluginData, "Author"))| &&
      t[|t| - 4 - |StrOf(Get(pluginData, "Author"))|..] == StrOf(Get(pluginData, "Author")) + "</a>")
  {
    var author := StrOf(Get(pluginData, "Author"));
    if Truthy(Get(pluginData, "AuthorURI")) then
      var uri := StrOf(Get(pluginData, "AuthorURI"));
      var a := Anchor(uri, "Visit author homepage", "", author);
      assert a[..9 + |uri|] == "<a href=\"" + uri;
      assert a[|a| - 4 - |author|..] == author + "</a>";
      a
    else author
  }

  /** The entry that links to the plugin's site. */
  function SiteLink(pluginData: Args): (l: string)
    ensures StartsWith(l, "<a href=\"" + StrOf(Get(pluginData, "PluginURI")))
  {
    var uri := StrOf(Get(pluginData, "PluginURI"));
    var l := Anchor(uri, "Visit plugin site", NewTab, "Visit plugin site");
    assert l[..9 + |uri|] == "<a href=\"" + uri;
    l
  }

  /** The plugin-site link always opens in a new tab: it carries target="_blank". */
  lemma SiteLinkNewTab(pluginData: Args)
    ensures var l := SiteLink(pluginData);
      l[|l| - 4 - |"Visit plugin site"| - 1 - |NewTab|..|l| - 4 - |"Visit plugin site"| - 1] == NewTab
  {
  }

  /**
   * force_plugin_link_new_tab( $plugin_meta, ... ): with no PluginURI the
   * row is left as it is; otherwise it is rebuilt from scratch as the
   * version (when there is one), the author (when there is one) and the
   * plugin-site link, in that order.
   */
  method ForcePluginLinkNewTab(pluginMeta: seq<Value>, pluginFile: string, pluginData: Args, status: string)
    returns (r: seq<Value>)
    ensures !Truthy(Get(pluginData, "PluginURI")) ==> r == pluginMeta
    ensures Truthy(Get(pluginData, "PluginURI")) ==>
      |r| == 1 + (if Truthy(Get(pluginData, "Version")) then 1 else 0) + (if Truthy(Get(pluginData, "Author")) then 1 else 0)
    ensures Truthy(Get(pluginData, "PluginURI")) ==> r[|r| - 1] == Str(SiteLink(pluginData))
    ensures Truthy(Get(pluginData, "PluginURI")) && Truthy(Get(pluginData, "Version")) ==>
      r[0] == Str("Version " + StrOf(Get(pluginData, "Version")))
    ensures Truthy(Get(pluginData, "PluginURI")) && Truthy(Get(pluginData, "Author")) ==>
      r[|r| - 2] == Str("By " + AuthorText(pluginData))
  {
    r := pluginMeta;
    if Truthy(Get(pluginData, "PluginURI")) {
      r := [];
      if Truthy(Get(pluginData, "Version")) {
        r := r + [Str("Version " + StrOf(Get(pluginData, "Version")))];
      }
      if Truthy(Get(pluginData, "Author")) {
        var author := StrOf(Get(pluginData, "Author"));
        if Truthy(Get(pluginData, "AuthorURI")) {
          author := Anchor(StrOf(Get(pluginData, "AuthorURI")), "Visit author homepage", "", StrOf(Get(pluginData, "Author")));
        }
        r := r + [Str("By " + author)];
      }
      r := r + [Str(Anchor(StrOf(Get(pluginData, "PluginURI")), "Visit plugin site", NewTab, "Visit plugin site"))];
    }
  }

  /** The site transient that holds the main site's theme list. */
  const ThemesKey := "main_site_themes"

  /**
   * What filter_allowedthemes( $default ) gives, and the site transients
   * after it; `themes` is what wp_get_themes() would return.
   */
  datatype Allowed = Allowed(themes: Value, siteTransients: map<string, Value>)

  function AllowedThemesOf(isMainSite: bool, t: map<string, Value>, default: Value, themes: Value): Allowed
  {
    if !isMainSite then Allowed(default, t)
    else if Truthy(GetTransient(t, ThemesKey)) then Allowed(t[ThemesKey], t)
    else Allowed(themes, t[ThemesKey := themes])
  }

  /**
   * filter_allowedthemes( $default ): off the main site the default; on it
   * the cached theme list, read from wp_get_themes() and stored when the
   * cache holds nothing truthy.
   */
  method FilterAllowedThemes(host: Host, default: Value, themes: Value) returns (r: Value)
    modifies host`siteTransients
    ensures Allowed(r, host.siteTransients) == AllowedThemesOf(host.isMainSite, old(host.siteTransients), default, themes)
  {
    r := default;
    if host.isMainSite {
      var cached := GetTransient(host.siteTransients, ThemesKey);
      if !Truthy(cached) {
        cached := themes;
        host.SetSiteTransient(ThemesKey, cached);
      }
      r := cached;
    }
  }

  /**
   * Once a non-empty theme list has been read, the main site keeps being
   * offered that list, whatever wp_get_themes() later returns.
   */
  lemma ThemesCachedAfterMiss(t: map<string, Value>, default: Value, themes: Value, default2: Value, later: Value)
    requires Truthy(themes)
    ensures var first := AllowedThemesOf(true, t, default, themes);
      AllowedThemesOf(true, first.siteTransients, default2, later) == Allowed(first.themes, first.siteTransients)
  {
  }

  /**
   * filter_excerpt_more( $more ): a link to the current post, whose
   * permalink is `permalink`; the string it replaces plays no part.
   */
  function FilterExcerptMore(more: string, permalink: string): (r: string)
    ensures |r| == |permalink| + 25
    ensures StartsWith(r, " <a href=\"") && r[|r| - 15..] == "\">[more...]</a>"
    ensures r[10..|r| - 15] == permalink
  {
    var r := " <a href=\"" + permalink + "\">[more...]</a>";
    assert r[..10] == " <a href=\"";
    assert r[10..|r| - 15] == permalink;
    r
  }
}
