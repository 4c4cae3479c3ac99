/**
 * JPry_Translation_Propagation, the main plugin class: the propagation
 * counter kept in post meta, the REST nonce fallback, and the filters that
 * guard posts and their meta on the receiving sites.
 */
module TranslationPropagation {
  import opened Php
  import opened Host
  import opened Utility

  /** The post meta holding how many sites have still to acknowledge a propagation. */
  const CountKey := "_jpry_propagation_count"
  /** The post meta that marks a post as propagating; a truthy value lets its saves through the guards. */
  const FlagKey := "_jpry_propagation"
  /** The site transient holding the network-wide REST nonce. */
  const NonceKey := "jpry_rest_propagation_nonce"
  /** The meta key whose value is reset for posts that are new or not translated. */
  const HelpPaneKey := "incsub_wiki_show_in_help_pane"
  /** The prefix of the meta that maps a site path to the object's ID on that site. */
  const LanguagePrefix := "language_site_"

  /** The meta key holding the object's ID on the site at `path`. */
  function LanguageKey(path: string): (k: string)
    ensures StartsWith(k, LanguagePrefix) && k[|LanguagePrefix|..] == path
  {
    LanguagePrefix + path
  }

  /** `(int) get_post_meta( $id, '_jpry_propagation_count', true )`. */
  function StoredCount(store: map<int, Meta>, id: int): int
  {
    IntOf(GetSingle(MetaOf(store, id), CountKey))
  }

  /** The post meta after one acknowledgement for post `id`. */
  function Decremented(store: map<int, Meta>, id: int): map<int, Meta>
  {
    var c := StoredCount(store, id);
    if c <= 0 then store
    else if c - 1 <= 0 then store[id := MetaOf(store, id) - {CountKey}]
    else store[id := UpdatedMeta(MetaOf(store, id), CountKey, Int(c - 1))]
  }

  /**
   * One acknowledgement lowers a positive count by one and leaves a
   * non-positive one alone; no other post and no other key changes.
   */
  lemma DecrementedCount(store: map<int, Meta>, id: int)
    ensures StoredCount(Decremented(store, id), id) ==
      if StoredCount(store, id) > 0 then StoredCount(store, id) - 1 else StoredCount(store, id)
    ensures forall o :: o != id ==> MetaOf(Decremented(store, id), o) == MetaOf(store, o)
    ensures forall k :: k != CountKey ==>
      (k in MetaOf(Decremented(store, id), id) <==> k in MetaOf(store, id)) &&
      (k in MetaOf(store, id) ==> MetaOf(Decremented(store, id), id)[k] == MetaOf(store, id)[k])
  {
    assert StrToInt("") == 0;
  }

  /** The post meta after `n` acknowledgements for post `id`. */
  function DecrementedTimes(store: map<int, Meta>, id: int, n: nat): map<int, Meta>
  {
    if n == 0 then store else Decremented(DecrementedTimes(store, id, n - 1), id)
  }

  /**
   * A count of c falls by one per acknowledgement, and after exactly c of
   * them the counter row is gone.
   */
  lemma {:induction false} CountAfterAcknowledgements(store: map<int, Meta>, id: int, n: nat)
    requires n <= StoredCount(store, id)
    ensures StoredCount(DecrementedTimes(store, id, n), id) == StoredCount(store, id) - n
    ensures n > 0 && n == StoredCount(store, id) ==> CountKey !in MetaOf(DecrementedTimes(store, id, n), id)
  {
    if n > 0 {
      CountAfterAcknowledgements(store, id, n - 1);
      DecrementedCount(DecrementedTimes(store, id, n - 1), id);
    }
  }

  /**
   * decrement_post_meta: the counter drops by one and is deleted when it
   * reaches zero; a missing or non-positive counter is left alone. The
   * reported update result is true on every path, because a positive count
   * always has a row to delete and always differs from its successor.
   */
  method DecrementPostMeta(host: Host, postId: int) returns (count: int, updateResult: bool)
    modifies host`postMeta
    ensures host.postMeta == Decremented(old(host.postMeta), postId)
    ensures count == if StoredCount(old(host.postMeta), postId) > 0 then StoredCount(old(host.postMeta), postId) - 1
                     else StoredCount(old(host.postMeta), postId)
    ensures updateResult
  {
    count := IntOf(GetSingle(MetaOf(host.postMeta, postId), CountKey));
    if count > 0 {
      count := count - 1;
      if count <= 0 {
        updateResult := host.DeletePostMeta(postId, CountKey);
      } else {
        updateResult := host.UpdatePostMeta(postId, CountKey, Int(count));
      }
    } else {
      updateResult := true;
    }
  }

  /** language_meta_watcher: on the main site, a new language_site_ meta row counts as an acknowledgement. */
  method LanguageMetaWatcher(host: Host, objectId: int, metaKey: string)
    modifies host`postMeta
    ensures host.postMeta ==
      if host.isMainSite && Contains(metaKey, LanguagePrefix) then Decremented(old(host.postMeta), objectId)
      else old(host.postMeta)
  {
    if !host.isMainSite {
      return;
    }
    if !Contains(metaKey, LanguagePrefix) {
      return;
    }
    var _, _ := DecrementPostMeta(host, objectId);
  }

  /** post_translation_check: may the receiving site overwrite this post? */
  function PostTranslationCheck(canPost: bool, postId: Option<int>, store: map<int, Meta>, request: Args): (r: bool)
    ensures postId.None? ==> !r
    ensures r ==> canPost && !Truthy(Get(request, "wds_propagating"))
    ensures postId.Some? ==>
      (r <==> canPost && !("wds_link_check_ts" in MetaOf(store, postId.value) && |MetaOf(store, postId.value)["wds_link_check_ts"]| > 0)
                      && !(IsSet(request, "wds_propagating") && Truthy(request["wds_propagating"])))
  {
    if postId.None? then false
    else
      var existing := if "wds_link_check_ts" in MetaOf(store, postId.value) then MetaOf(store, postId.value)["wds_link_check_ts"] else [];
      var propagating := IsSet(request, "wds_propagating") && Truthy(request["wds_propagating"]);
      canPost && |existing| == 0 && !propagating
  }

  /** The network nonce held in the site transients, null when there is none. */
  function StoredNonce(siteTransients: map<string, Value>): Value
  {
    Get(siteTransients, NonceKey)
  }

  /** get_nonce_for_request: the stored network nonce, created and stored when there is none. */
  method GetNonceForRequest(host: Host) returns (nonce: Value)
    modifies host`siteTransients
    ensures NonceKey in old(host.siteTransients) && old(host.siteTransients)[NonceKey] != Bool(false) ==>
      nonce == old(host.siteTransients)[NonceKey] && host.siteTransients == old(host.siteTransients)
    ensures !(NonceKey in old(host.siteTransients) && old(host.siteTransients)[NonceKey] != Bool(false)) ==>
      nonce == Str(host.freshNonce) && host.siteTransients == old(host.siteTransients)[NonceKey := nonce]
    ensures StoredNonce(host.siteTransients) == nonce
  {
    nonce := if NonceKey in host.siteTransients then host.siteTransients[NonceKey] else Bool(false);
    if nonce == Bool(false) {
      nonce := Str(host.freshNonce);
      host.SetSiteTransient(NonceKey, nonce);
    }
  }

  /** The authentication result a REST request carries: null, a flag, or an error with its HTTP status. */
  datatype Auth = NotChecked | Flag(ok: bool) | AuthError(code: string, status: int)

  /** `empty( $result )`. */
  predicate AuthEmpty(a: Auth)
  {
    a.NotChecked? || a == Flag(false)
  }

  /** The verdict of rest_check_nonce, and whether it switches to the fallback user. */
  datatype NonceCheck = NonceCheck(result: Auth, useFallbackUser: bool)

  /** The nonce the request supplies: the `_wpnonce` parameter first, then the X-WP-Nonce header. */
  function RequestNonce(wpnonce: Value, header: Value): Value
  {
    if wpnonce != Null then wpnonce else header
  }

  /**
   * rest_check_nonce. `verified` is wp_verify_nonce() for the supplied nonce,
   * `stored` what get_nonce_for_request() returns, `currentUser` the current
   * user ID.
   */
  function RestCheckNonce(incoming: Auth, wpnonce: Value, header: Value, verified: bool, stored: Value, currentUser: int): (r: NonceCheck)
    ensures !AuthEmpty(incoming) ==> r == NonceCheck(incoming, false)
    ensures AuthEmpty(incoming) && wpnonce == Null && header == Null ==> r == NonceCheck(NotChecked, false)
    ensures AuthEmpty(incoming) && RequestNonce(wpnonce, header) != Null ==>
      (r.result == Flag(true) <==> verified || stored == RequestNonce(wpnonce, header)) &&
      (r.result != Flag(true) ==> r.result == AuthError("rest_propagation_invalid_nonce", 403))
    ensures r.useFallbackUser <==> AuthEmpty(incoming) && RequestNonce(wpnonce, header) != Null && r.result == Flag(true) && currentUser == 0
  {
    if !AuthEmpty(incoming) then NonceCheck(incoming, false)
    else
      var nonce := RequestNonce(wpnonce, header);
      if nonce == Null then NonceCheck(NotChecked, false)
      else
        var result := if verified then Flag(true)
                      else if stored == nonce then Flag(true)
                      else AuthError("rest_propagation_invalid_nonce", 403);
        NonceCheck(result, currentUser == 0 && result == Flag(true))
  }

  /** The site transients after get_nonce_for_request(): a fresh nonce stored when there was none. */
  function WithNonce(siteTransients: map<string, Value>, created: string): map<string, Value>
  {
    if NonceKey in siteTransients && siteTransients[NonceKey] != Bool(false) then siteTransients
    else siteTransients[NonceKey := Str(created)]
  }

  /**
   * rest_check_nonce on the host: get_nonce_for_request() is consulted
   * only when the supplied nonce fails wp_verify_nonce(), and the nonce it
   * returns, created and stored on a miss, is the one compared.
   */
  method CheckRequestNonce(host: Host, incoming: Auth, wpnonce: Value, header: Value, verified: bool, currentUser: int)
    returns (r: NonceCheck)
    modifies host`siteTransients
    ensures r == RestCheckNonce(incoming, wpnonce, header, verified, StoredNonce(host.siteTransients), currentUser)
    ensures host.siteTransients ==
      if AuthEmpty(incoming) && RequestNonce(wpnonce, header) != Null && !verified
      then WithNonce(old(host.siteTransients), host.freshNonce)
      else old(host.siteTransients)
  {
    if !AuthEmpty(incoming) {
      return NonceCheck(incoming, false);
    }
    var nonce := RequestNonce(wpnonce, header);
    if nonce == Null {
      return NonceCheck(NotChecked, false);
    }
    var result := if verified then Flag(true) else NotChecked;
    if !verified {
      var stored := GetNonceForRequest(host);
      if stored == nonce {
        result := Flag(true);
      } else {
        result := AuthError("rest_propagation_invalid_nonce", 403);
      }
    }
    r := NonceCheck(result, currentUser == 0 && result == Flag(true));
  }

  /**
   * A request whose nonce fails verification on a site without a stored
   * network nonce is refused unless it carries the nonce just created.
   */
  lemma FreshNonceOnMiss(incoming: Auth, wpnonce: Value, header: Value, t: map<string, Value>, created: string, currentUser: int)
    requires AuthEmpty(incoming) && RequestNonce(wpnonce, header) != Null
    requires NonceKey !in t
    ensures RestCheckNonce(incoming, wpnonce, header, false, StoredNonce(WithNonce(t, created)), currentUser).result == Flag(true)
      <==> RequestNonce(wpnonce, header) == Str(created)
  {
  }

  /** When both are supplied, the `_wpnonce` parameter decides and the header is ignored. */
  lemma RestCheckNoncePrefersParameter(incoming: Auth, wpnonce: Value, header: Value, verified: bool, stored: Value, currentUser: int)
    requires wpnonce != Null
    ensures RestCheckNonce(incoming, wpnonce, header, verified, stored, currentUser) ==
            RestCheckNonce(incoming, wpnonce, Null, verified, stored, currentUser)
  {
  }

  /** pre_delete_post: a post whose counter is still set may not be deleted. */
  function PreDeletePost(delete: Value, postId: int, store: map<int, Meta>): (r: Value)
    ensures Truthy(GetSingle(MetaOf(store, postId), CountKey)) ==> r == Bool(false)
    ensures !Truthy(GetSingle(MetaOf(store, postId), CountKey)) ==> r == delete
  {
    if Truthy(GetSingle(MetaOf(store, postId), CountKey)) then Bool(false) else delete
  }

  /**
   * A post whose counter was set to c > 0 cannot be deleted until all c
   * acknowledgements have arrived, and then its deletion goes ahead.
   */
  lemma {:induction false} DeletionWaitsForAcknowledgements(store: map<int, Meta>, id: int, n: nat, delete: Value)
    requires GetSingle(MetaOf(store, id), CountKey) == Int(StoredCount(store, id))
    requires n <= StoredCount(store, id)
    ensures n < StoredCount(store, id) ==> PreDeletePost(delete, id, DecrementedTimes(store, id, n)) == Bool(false)
    ensures n == StoredCount(store, id) > 0 ==> PreDeletePost(delete, id, DecrementedTimes(store, id, n)) == delete
  {
    CountAfterAcknowledgements(store, id, n);
    if 0 < n < StoredCount(store, id) {
      DecrementedRow(DecrementedTimes(store, id, n - 1), id);
    }
  }

  /**
   * A negative counter is truthy and no acknowledgement lowers it, so the
   * post can never be deleted: the case of a post propagated to no
   * language site, whose counter is stored as -1.
   */
  lemma NegativeCountBlocksDeletion(store: map<int, Meta>, id: int, n: nat, delete: Value)
    requires GetSingle(MetaOf(store, id), CountKey) == Int(-1)
    ensures DecrementedTimes(store, id, n) == store
    ensures PreDeletePost(delete, id, DecrementedTimes(store, id, n)) == Bool(false)
  {
    NonPositiveCountStays(store, id, n);
  }

  /** Acknowledgements leave a counter that is not positive, and the rest of the meta, as they are. */
  lemma {:induction false} NonPositiveCountStays(store: map<int, Meta>, id: int, n: nat)
    requires StoredCount(store, id) <= 0
    ensures DecrementedTimes(store, id, n) == store
  {
    if n > 0 {
      NonPositiveCountStays(store, id, n - 1);
    }
  }

  /** A count stored by an earlier acknowledgement is a plain integer row. */
  lemma DecrementedRow(store: map<int, Meta>, id: int)
    requires StoredCount(store, id) > 1
    ensures GetSingle(MetaOf(Decremented(store, id), id), CountKey) == Int(StoredCount(store, id) - 1)
  {
  }

  /** The fields maybe_filter_content removes from a translated post. */
  const ContentFields: set<string> := {"post_content", "post_title", "post_excerpt"}

  /**
   * maybe_filter_content: every existing post counts as translated, so its
   * content, title and excerpt are dropped; a new post passes unchanged.
   */
  function MaybeFilterContent(prepared: Args): (r: Args)
    ensures !IsSet(prepared, "ID") ==> r == prepared
    ensures IsSet(prepared, "ID") ==> r.Keys == prepared.Keys - ContentFields
    ensures forall k :: k in r ==> r[k] == prepared[k]
  {
    if !IsSet(prepared, "ID") then prepared
    else if IsPostTranslated(IntOf(prepared["ID"])) then prepared - ContentFields
    else prepared
  }

  /** One row of the post meta a REST request saves. */
  datatype MetaItem = MetaItem(key: string, value: Value)

  /** The loop of filter_meta: blacklisted rows are dropped, the others get their update value if any. */
  function FilterItems(items: seq<MetaItem>, blacklist: Args, update: Args): seq<MetaItem>
  {
    if |items| == 0 then []
    else
      var rest := FilterItems(items[..|items| - 1], blacklist, update);
      var last := items[|items| - 1];
      if IsSet(blacklist, last.key) then rest
      else if IsSet(update, last.key) then rest + [last.(value := update[last.key])]
      else rest + [last]
  }

  /** The update filter_meta applies to new and untranslated posts. */
  function HidePane(): Args
  {
    map[HelpPaneKey := Bool(false)]
  }

  /**
   * What filter_meta returns. `translated` is the language utility's verdict
   * and `whitelist` the translation handler's meta whitelist (None when the
   * handler cannot be built).
   */
  function FilterMetaResult(items: seq<MetaItem>, isMainSite: bool, creating: bool, translated: bool, whitelist: Option<Args>): seq<MetaItem>
  {
    if isMainSite then items
    else if creating || !translated then FilterItems(items, map[], HidePane())
    else if whitelist.None? then items
    else if whitelist.value == map[] then items
    else FilterItems(items, whitelist.value, map[])
  }

  /** filter_meta: the loop over the meta rows, unsetting or rewriting each in place. */
  method FilterMeta(items: seq<MetaItem>, isMainSite: bool, creating: bool, translated: bool, whitelist: Option<Args>)
    returns (r: seq<MetaItem>)
    ensures r == FilterMetaResult(items, isMainSite, creating, translated, whitelist)
  {
    if isMainSite {
      return items;
    }
    var blacklist: Args := map[];
    var update: Args := map[];
    if creating || !translated {
      update := HidePane();
      assert HelpPaneKey in update;
    } else {
      if whitelist.None? {
        return items;
      }
      blacklist := whitelist.value;
    }
    if blacklist == map[] && update == map[] {
      return items;
    }
    r := [];
    var i := 0;
    while i < |items|
      invariant 0 <= i <= |items|
      invariant r == FilterItems(items[..i], blacklist, update)
    {
      assert items[..i + 1][..i] == items[..i];
      var item := items[i];
      if !IsSet(blacklist, item.key) {
        if IsSet(update, item.key) {
          item := item.(value := update[item.key]);
        }
        r := r + [item];
      }
      i := i + 1;
    }
    assert items[..i] == items;
  }

  /** With nothing blacklisted, every row stays in place and only the update keys change value. */
  lemma {:induction false} FilterItemsUpdateOnly(items: seq<MetaItem>, update: Args)
    ensures |FilterItems(items, map[], update)| == |items|
    ensures forall k :: 0 <= k < |items| ==>
      FilterItems(items, map[], update)[k] ==
        if IsSet(update, items[k].key) then items[k].(value := update[items[k].key]) else items[k]
  {
    if |items| > 0 {
      FilterItemsUpdateOnly(items[..|items| - 1], update);
    }
  }

  /** With no updates, a row survives exactly when its key is not blacklisted. */
  lemma {:induction false} FilterItemsDropOnly(items: seq<MetaItem>, blacklist: Args)
    ensures forall x :: x in FilterItems(items, blacklist, map[]) <==> x in items && !IsSet(blacklist, x.key)
  {
    if |items| > 0 {
      var init := items[..|items| - 1];
      FilterItemsDropOnly(init, blacklist);
      assert items == init + [items[|items| - 1]];
    }
  }

  /**
   * filter_meta on a sub-site: a new or untranslated post only has its
   * help-pane rows set to false; a translated post only loses its
   * blacklisted rows; the main site keeps everything.
   */
  lemma FilterMetaCases(items: seq<MetaItem>, isMainSite: bool, creating: bool, translated: bool, whitelist: Option<Args>)
    ensures isMainSite ==> FilterMetaResult(items, isMainSite, creating, translated, whitelist) == items
    ensures !isMainSite && (creating || !translated) ==>
      var r := FilterMetaResult(items, isMainSite, creating, translated, whitelist);
      |r| == |items| &&
      forall k :: 0 <= k < |items| ==>
        r[k].key == items[k].key &&
        r[k].value == if items[k].key == HelpPaneKey then Bool(false) else items[k].value
    ensures !isMainSite && !creating && translated && whitelist.Some? ==>
      forall x :: x in FilterMetaResult(items, isMainSite, creating, translated, whitelist) <==>
        x in items && !IsSet(whitelist.value, x.key)
  {
    FilterItemsUpdateOnly(items, HidePane());
    if whitelist.Some? {
      FilterItemsDropOnly(items, whitelist.value);
    }
  }
}
