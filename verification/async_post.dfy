/**
 * JPry_Async_Post: the asynchronous task behind save_post. On the request
 * that saves a post, prepare_data() runs the guard chain of
 * maybe_skip_post() and either skips (the PHP code throws) or yields the
 * payload posted back; on the postback, run_action() reads that payload
 * and fires `wds_async_save_post` when the post still exists.
 */
module AsyncPost {
  import opened Php
  import opened Host
  import TP = TranslationPropagation

  /** The action run_action() fires: "wds_async_{$this->action}" with `save_post`. */
  const Hook := "wds_async_save_post"

  /** The arguments of save_post: the post ID, the second argument when it is a WP_Post, and the update flag. */
  datatype SaveArgs = SaveArgs(postId: Value, post: Option<Post>, update: Value)

  /** What the object and the host hold when prepare_data() runs. */
  datatype Context = Context(
    isMainSite: bool,
    /** The `_body_data` field: what is already queued to be posted back. */
    bodyData: Value,
    /** The `post_types` field: the post types to propagate, as keys. */
    postTypes: Args,
    postMeta: map<int, Meta>,
    /** current_user_can( 'publish_posts' ). */
    canPublish: bool)

  /** Why maybe_skip_post() throws. */
  datatype Skip = NotMainSite | PendingData | NotAPost | WrongPostType | WrongStatus | NotAuthor

  /** What prepare_data() gives: the payload, or the exception that skips the postback. */
  datatype Prepared = Payload(fields: Args) | Skipped(reason: Skip)

  /** A do_action() call made by run_action(). */
  datatype Fired = Fired(hook: string, postId: Value, post: Post, update: bool)

  /** get_post_meta( $post->ID, '_jpry_propagation', true ) is truthy: once propagated, always propagated. */
  predicate Propagating(ctx: Context, post: Post)
  {
    Truthy(GetSingle(MetaOf(ctx.postMeta, post.id), TP.FlagKey))
  }

  /**
   * When a post may be propagated, stated independently of the order of the
   * guards: on the main site, with nothing pending, for a WP_Post that is
   * either already propagating or of a listed type, published, and saved by
   * an author or shown in the help pane.
   */
  predicate Admitted(ctx: Context, data: SaveArgs)
  {
    ctx.isMainSite && !Truthy(ctx.bodyData) && data.post.Some? &&
    var post := data.post.value;
    (Propagating(ctx, post) ||
     (IsSet(ctx.postTypes, post.postType) && post.status == "publish" &&
      (ctx.canPublish || GetSingle(MetaOf(ctx.postMeta, post.id), TP.HelpPaneKey) == Str("on"))))
  }

  /** maybe_skip_post: the first guard that fails, or nothing when the post may go. */
  function MaybeSkipPost(ctx: Context, data: SaveArgs): (r: Option<Skip>)
    ensures r.None? <==> Admitted(ctx, data)
    ensures !ctx.isMainSite ==> r == Some(NotMainSite)
    ensures ctx.isMainSite && Truthy(ctx.bodyData) ==> r == Some(PendingData)
    ensures ctx.isMainSite && !Truthy(ctx.bodyData) && data.post.None? ==> r == Some(NotAPost)
  {
    if !ctx.isMainSite then Some(NotMainSite)
    else if Truthy(ctx.bodyData) then Some(PendingData)
    else if data.post.None? then Some(NotAPost)
    else
      var post := data.post.value;
      if Propagating(ctx, post) then None
      else if !IsSet(ctx.postTypes, post.postType) then Some(WrongPostType)
      else if post.status != "publish" then Some(WrongStatus)
      else if !ctx.canPublish && GetSingle(MetaOf(ctx.postMeta, post.id), TP.HelpPaneKey) != Str("on") then Some(NotAuthor)
      else None
  }

  /**
   * The guards after the flag are tried in order: the post type first, the
   * status second, the author or help-pane test last.
   */
  lemma MaybeSkipPostOrder(ctx: Context, data: SaveArgs)
    requires ctx.isMainSite && !Truthy(ctx.bodyData) && data.post.Some? && !Propagating(ctx, data.post.value)
    ensures !IsSet(ctx.postTypes, data.post.value.postType) ==> MaybeSkipPost(ctx, data) == Some(WrongPostType)
    ensures IsSet(ctx.postTypes, data.post.value.postType) && data.post.value.status != "publish" ==>
      MaybeSkipPost(ctx, data) == Some(WrongStatus)
    ensures IsSet(ctx.postTypes, data.post.value.postType) && data.post.value.status == "publish" ==>
      (MaybeSkipPost(ctx, data) == Some(NotAuthor) <==>
       !ctx.canPublish && GetSingle(MetaOf(ctx.postMeta, data.post.value.id), TP.HelpPaneKey) != Str("on"))
  {
  }

  /**
   * A post that carries the propagation flag goes whatever its type, its
   * status or the rights of the user who saves it.
   */
  lemma FlagOverridesGuards(ctx: Context, data: SaveArgs, postTypes: Args, canPublish: bool, postType: string, status: string)
    requires ctx.isMainSite && !Truthy(ctx.bodyData) && data.post.Some? && Propagating(ctx, data.post.value)
    ensures var other := data.(post := Some(data.post.value.(postType := postType, status := status)));
      MaybeSkipPost(ctx.(postTypes := postTypes, canPublish := canPublish), other) == None
  {
  }

  /** `$data[2] ? 'yes' : 'no'`. */
  function UpdateFlag(update: Value): (s: string)
    ensures s == "yes" || s == "no"
  {
    if Truthy(update) then "yes" else "no"
  }

  /** `'yes' === strtolower( $this->from_post( 'update' ) )`. */
  predicate ParseUpdate(posted: Value)
  {
    Lower(StrOf(posted)) == "yes"
  }

  /** The update flag survives the postback: true goes as `yes` and comes back true, false as `no` and comes back false. */
  lemma UpdateFlagRoundTrip(update: Value)
    ensures ParseUpdate(Str(UpdateFlag(update))) == Truthy(update)
  {
    if Truthy(update) {
      assert Lower("yes") == "yes";
    } else {
      assert Lower("no")[0] == 'n';
    }
  }

  /** prepare_data: the guards, then the post ID and the flag as `yes` or `no`. */
  function PrepareData(ctx: Context, data: SaveArgs): (r: Prepared)
    ensures r.Payload? <==> Admitted(ctx, data)
    ensures r.Payload? ==> (r.fields.Keys == {"post_id", "update"} && r.fields["post_id"] == data.postId &&
      r.fields["update"] == Str(if Truthy(data.update) then "yes" else "no"))
    ensures r.Skipped? ==> Some(r.reason) == MaybeSkipPost(ctx, data)
  {
    var skip := MaybeSkipPost(ctx, data);
    if skip.Some? then Skipped(skip.value)
    else Payload(map["post_id" := data.postId, "update" := Str(UpdateFlag(data.update))])
  }

  /**
   * run_action: `posted` is what arrived with the postback and `getPost`
   * stands for get_post(); the action fires only for a post that exists.
   */
  function RunAction(posted: Args, getPost: Value -> Option<Post>): (r: Option<Fired>)
    ensures r.Some? <==> getPost(Get(posted, "post_id")).Some?
    ensures r.Some? ==> (r.value.hook == Hook && r.value.postId == Get(posted, "post_id") &&
      r.value.post == getPost(Get(posted, "post_id")).value && r.value.update == ParseUpdate(Get(posted, "update")))
  {
    var postId := Get(posted, "post_id");
    var post := getPost(postId);
    if post.Some? then Some(Fired(Hook, postId, post.value, ParseUpdate(Get(posted, "update")))) else None
  }

  /**
   * What save_post hands to prepare_data() reaches the `wds_async_save_post`
   * action unchanged: the same post ID and the same update flag, whenever
   * the post still exists at postback time.
   */
  lemma PostbackRoundTrip(ctx: Context, data: SaveArgs, getPost: Value -> Option<Post>)
    requires Admitted(ctx, data)
    ensures var fired := RunAction(PrepareData(ctx, data).fields, getPost);
      (fired.Some? <==> getPost(data.postId).Some?) &&
      (fired.Some? ==> fired.value.postId == data.postId && fired.value.update == Truthy(data.update))
  {
    UpdateFlagRoundTrip(data.update);
  }
}
