/**
 * The Why We Bake widget's settings: a title, a quote, who the quote is
 * from, and an image attachment ID.
 */
module WhyWeBake {
  import opened Php
  import opened Host
  import opened WidgetSettings

  /** The `valid_keys` of update(), each with the branch its key takes in the switch. */
  const Routes: map<string, Route> := map["title" := Text, "quote" := Text, "quote_from" := Text, "image" := Integer]

  /**
   * update( $new_instance, $old_instance ): unknown keys are dropped, every
   * valid key given is kept; the image goes through intval(), the title and
   * the quote fields through sanitize_text_field(). The old settings play
   * no part.
   */
  method Update(s: Sanitizers, newInstance: Args, oldInstance: Args) returns (r: Args)
    ensures forall k :: k in r <==> k in newInstance && k in {"title", "quote", "quote_from", "image"}
    ensures "image" in r ==> r["image"] == Int(IntOf(newInstance["image"]))
    ensures forall k :: k in r && k != "image" ==> r[k] == s.text(newInstance[k])
    ensures r == Whitelisted(newInstance, Routes, s)
  {
    r := Whitelist(newInstance, Routes, s);
  }
}
