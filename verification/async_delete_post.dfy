/**
 * JPry_Async_Delete_Post: the asynchronous task behind before_delete_post.
 * prepare_data() refuses posts of a type it was not built for and
 * otherwise sends the post ID, the raw meta (which is about to be deleted)
 * and the post type; run_action() fires `wds_async_before_delete_post`
 * when that meta is not empty.
 */
module AsyncDeletePost {
  import opened Php
  import opened Host

  /** The action run_action() fires: "wds_async_{$this->action}" with `before_delete_post`. */
  const Hook := "wds_async_before_delete_post"

  /** Why prepare_data() throws. */
  datatype Skip = WrongPostType

  /** What prepare_data() gives: the payload, or the exception that skips the postback. */
  datatype Prepared = Payload(fields: Args) | Skipped(reason: Skip)

  /** A do_action() call made by run_action(): meta, post type and post ID, in that order. */
  datatype Fired = Fired(hook: string, meta: Value, postType: Value, postId: Value)

  /** get_post_meta( $post_id ): every key with all its rows. */
  function MetaValue(m: Meta): (v: Value)
    ensures v.Arr? && v.fields.Keys == m.Keys
    ensures forall k :: k in m ==> v.fields[k] == List(m[k])
  {
    Arr(map k | k in m :: List(m[k]))
  }

  /** All meta is empty exactly when the post has no meta key at all. */
  lemma MetaValueTruthy(m: Meta)
    ensures Truthy(MetaValue(m)) <==> m != map[]
  {
    if m != map[] {
      var k :| k in m;
      assert k in MetaValue(m).fields;
    }
  }

  /**
   * `$post->post_type`: the type of the post get_post() (`getPost`) finds,
   * and null when there is no such post.
   */
  function PostTypeOf(post: Option<Post>): Value
  {
    if post.Some? then Str(post.value.postType) else Null
  }

  /**
   * prepare_data: `postTypes` is the `post_types` field, `data` what the
   * hook passed (its first element the post ID). A null type looks up the
   * key '' in `post_types`, as PHP does.
   */
  function PrepareData(postTypes: Args, data: seq<Value>, getPost: Value -> Option<Post>, postMeta: map<int, Meta>): (r: Prepared)
    ensures r.Skipped? <==> !IsSet(postTypes, StrOf(PostTypeOf(getPost(First(data)))))
    ensures r.Payload? ==> (r.fields.Keys == {"post_id", "raw_meta", "post_type"} &&
      r.fields["post_id"] == First(data) &&
      r.fields["raw_meta"] == MetaValue(MetaOf(postMeta, IntOf(First(data)))) &&
      r.fields["post_type"] == PostTypeOf(getPost(First(data))))
  {
    var postId := First(data);
    var postType := PostTypeOf(getPost(postId));
    if !IsSet(postTypes, StrOf(postType)) then Skipped(WrongPostType)
    else Payload(map["post_id" := postId, "raw_meta" := MetaValue(MetaOf(postMeta, IntOf(postId))), "post_type" := postType])
  }

  /** run_action: the action fires only with meta to pass on. */
  function RunAction(posted: Args): (r: Option<Fired>)
    ensures r.Some? <==> Truthy(Get(posted, "raw_meta"))
    ensures r.Some? ==> r.value == Fired(Hook, Get(posted, "raw_meta"), Get(posted, "post_type"), Get(posted, "post_id"))
  {
    var meta := Get(posted, "raw_meta");
    if Truthy(meta) then Some(Fired(Hook, meta, Get(posted, "post_type"), Get(posted, "post_id"))) else None
  }

  /**
   * A deleted post of a listed type reaches the action with its meta, its
   * type and its ID, exactly when it had some meta.
   */
  lemma PostbackRoundTrip(postTypes: Args, data: seq<Value>, getPost: Value -> Option<Post>, postMeta: map<int, Meta>)
    requires PrepareData(postTypes, data, getPost, postMeta).Payload?
    ensures var meta := MetaOf(postMeta, IntOf(First(data)));
      var fired := RunAction(PrepareData(postTypes, data, getPost, postMeta).fields);
      (fired.Some? <==> meta != map[]) &&
      (fired.Some? ==> fired.value == Fired(Hook, MetaValue(meta), PostTypeOf(getPost(First(data))), First(data)))
  {
    MetaValueTruthy(MetaOf(postMeta, IntOf(First(data))));
  }
}
