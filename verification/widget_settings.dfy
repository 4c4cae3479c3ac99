/**
 * What the theme's widgets share: update() keeps only the settings it
 * knows and sends each through the sanitizer its key calls for, and
 * enqueue_script() adds the media-widget script once per widget class.
 */
module WidgetSettings {
  import opened Php
  import opened Host

  /**
   * The WordPress sanitizers update() calls, whose code is not part of this
   * model: sanitize_text_field() and esc_url_raw().
   */
  datatype Sanitizers = Sanitizers(text: Value -> Value, url: Value -> Value)

  /** The branch of update()'s switch a key takes. */
  datatype Route = Text | Url | Integer

  /** One branch of the switch: intval() for Integer. */
  function Sanitize(s: Sanitizers, route: Route, v: Value): (r: Value)
    ensures route == Integer ==> r == Int(IntOf(v))
  {
    match route
    case Text => s.text(v)
    case Url => s.url(v)
    case Integer => Int(IntOf(v))
  }

  /**
   * The settings update() returns: the keys of `newInstance` that are also
   * keys of `routes` (the valid keys), each sanitized by its route.
   */
  function Whitelisted(newInstance: Args, routes: map<string, Route>, s: Sanitizers): Args
  {
    map k | k in newInstance && k in routes :: Sanitize(s, routes[k], newInstance[k])
  }

  /**
   * The foreach of update(): `continue` past a key without a route, store
   * the sanitized value of every other key.
   */
  method Whitelist(newInstance: Args, routes: map<string, Route>, s: Sanitizers) returns (r: Args)
    ensures r == Whitelisted(newInstance, routes, s)
  {
    r := map[];
    var todo := newInstance.Keys;
    while todo != {}
      invariant todo <= newInstance.Keys
      invariant forall k :: k in r <==> k in newInstance && k in routes && k !in todo
      invariant forall k :: k in r ==> r[k] == Sanitize(s, routes[k], newInstance[k])
      decreases todo
    {
      var key :| key in todo;
      todo := todo - {key};
      if key !in routes {
        continue;
      }
      r := r[key := Sanitize(s, routes[key], newInstance[key])];
    }
  }

  /** A sanitizer that leaves its own results alone. */
  ghost predicate Stable(f: Value -> Value)
  {
    forall v :: f(f(v)) == f(v)
  }

  /**
   * Saving the saved settings again changes nothing, provided the two
   * WordPress sanitizers are stable: intval() of an int is that int.
   */
  lemma WhitelistedIdempotent(newInstance: Args, routes: map<string, Route>, s: Sanitizers)
    requires Stable(s.text) && Stable(s.url)
    ensures Whitelisted(Whitelisted(newInstance, routes, s), routes, s) == Whitelisted(newInstance, routes, s)
  {
    var once := Whitelisted(newInstance, routes, s);
    var twice := Whitelisted(once, routes, s);
    forall k | k in twice
      ensures twice[k] == once[k]
    {
      var v := newInstance[k];
      assert once[k] == Sanitize(s, routes[k], v);
      match routes[k]
      case Text => assert s.text(s.text(v)) == s.text(v);
      case Url => assert s.url(s.url(v)) == s.url(v);
      case Integer =>
    }
    assert twice.Keys == once.Keys;
  }

  /** The script handle enqueue_script() adds. */
  const MediaHandle := "media-widget"

  /**
   * The `static $already_enqueued` of one widget class's enqueue_script();
   * `enqueued` counts the times this latch has added the script.
   */
  class EnqueueOnce {
    var alreadyEnqueued: bool
    ghost var enqueued: nat

    /** The script was added at most once, and exactly when the flag is up. */
    ghost predicate Valid()
      reads this
    {
      enqueued <= 1 && (enqueued == 1 <==> alreadyEnqueued)
    }

    constructor ()
      ensures Valid() && !alreadyEnqueued && enqueued == 0
    {
      alreadyEnqueued := false;
      enqueued := 0;
    }

    /** enqueue_script(): the first call adds the script and raises the flag; later calls do nothing. */
    method EnqueueScript(host: Host)
      requires Valid()
      modifies this, host`scripts
      ensures Valid() && alreadyEnqueued
      ensures host.scripts == if old(alreadyEnqueued) then old(host.scripts) else old(host.scripts) + [MediaHandle]
      ensures enqueued == 1
    {
      if alreadyEnqueued {
        return;
      }
      host.EnqueueScript(MediaHandle);
      alreadyEnqueued := true;
      enqueued := enqueued + 1;
    }
  }
}
