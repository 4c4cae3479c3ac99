/**
 * JPry_Async_Link_Main: the asynchronous task behind edit_link and
 * add_link. The constructor refuses any other action; prepare_data() lets
 * only a request on the main site with nothing queued through, and
 * run_action() fires `wds_async_<action>` for a bookmark that exists.
 */
module AsyncLinkMain {
  import opened Php

  /** The `valid_link_actions` field. */
  const ValidActions: set<string> := {"edit_link", "add_link"}

  /** Why prepare_data() throws. */
  datatype Skip = NotMainSite | PendingData

  /** What prepare_data() gives: the payload, or the exception that skips the postback. */
  datatype Prepared = Payload(fields: Args) | Skipped(reason: Skip)

  /** A do_action() call made by run_action(). */
  datatype Fired = Fired(hook: string, linkId: int, link: Value)

  /** A JPry_Async_Link_Main object; it only exists for a valid action. */
  class Task {
    /** The `action` field, set by the constructor. */
    var action: string

    ghost predicate Valid()
      reads this
    {
      action in ValidActions
    }

    constructor (linkAction: string)
      requires linkAction in ValidActions
      ensures action == linkAction && Valid()
    {
      action := linkAction;
    }

    /** The action run_action() fires: "wds_async_{$this->action}". */
    function Hook(): (h: string)
      reads this
      ensures StartsWith(h, "wds_async_") && h[|"wds_async_"|..] == action
    {
      "wds_async_" + action
    }

    /**
     * prepare_data: `data` is what the link hook passed; its first element
     * (null when there is none) is the link ID.
     */
    function PrepareData(isMainSite: bool, bodyData: Value, data: seq<Value>): (r: Prepared)
      ensures !isMainSite ==> r == Skipped(NotMainSite)
      ensures isMainSite && Truthy(bodyData) ==> r == Skipped(PendingData)
      ensures r.Payload? <==> isMainSite && !Truthy(bodyData)
      ensures r.Payload? ==> r.fields == map["link_id" := First(data)]
    {
      if !isMainSite then Skipped(NotMainSite)
      else if Truthy(bodyData) then Skipped(PendingData)
      else Payload(map["link_id" := First(data)])
    }

    /**
     * run_action: the posted link ID cast to int, and the action fired only
     * for a bookmark that get_bookmark() (`getBookmark`) finds non-empty.
     */
    function RunAction(posted: Args, getBookmark: int -> Value): (r: Option<Fired>)
      reads this
      ensures r.Some? <==> Truthy(getBookmark(IntOf(Get(posted, "link_id"))))
      ensures r.Some? ==> (r.value.linkId == IntOf(Get(posted, "link_id")) &&
        r.value.link == getBookmark(r.value.linkId) && r.value.link != Null && r.value.hook == Hook())
    {
      var linkId := IntOf(Get(posted, "link_id"));
      var link := getBookmark(linkId);
      if link != Null && Truthy(link) then Some(Fired(Hook(), linkId, link)) else None
    }

    /**
     * The link ID the hook passed reaches the action as an int, whenever
     * the bookmark still exists at postback time.
     */
    lemma PostbackRoundTrip(bodyData: Value, data: seq<Value>, getBookmark: int -> Value)
      requires !Truthy(bodyData)
      ensures var fired := RunAction(PrepareData(true, bodyData, data).fields, getBookmark);
        (fired.Some? <==> Truthy(getBookmark(IntOf(First(data))))) &&
        (fired.Some? ==> fired.value.linkId == IntOf(First(data)) && fired.value.hook == Hook())
    {
    }
  }

  /**
   * `new JPry_Async_Link_Main( $link_action )`: a task for a valid action,
   * and nothing (the constructor throws) for any other.
   */
  method NewTask(linkAction: string) returns (task: Task?)
    ensures task != null <==> linkAction in ValidActions
    ensures task != null ==> fresh(task) && task.action == linkAction && task.Valid()
  {
    if linkAction !in ValidActions {
      return null;
    }
    task := new Task(linkAction);
  }
}
