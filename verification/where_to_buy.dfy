/**
 * The Where To Buy widget's settings: a title, a description, a button's
 * text and link, and an image attachment ID.
 */
module WhereToBuy {
  import opened Php
  import opened Host
  import opened WidgetSettings

  /** The `valid_keys` of update(), each with the branch its key takes in the switch. */
  const Routes: map<string, Route> :=
    map["title" := Text, "text" := Text, "button_text" := Text, "button_link" := Url, "image" := Integer]

  /**
   * update( $new_instance, $old_instance ): unknown keys are dropped, every
   * valid key given is kept; the link goes through esc_url_raw(), the image
   * through intval(), everything else through sanitize_text_field(). The old
   * settings play no part.
   */
  method Update(s: Sanitizers, newInstance: Args, oldInstance: Args) returns (r: Args)
    ensures forall k :: k in r <==> k in newInstance && k in {"title", "text", "button_text", "button_link", "image"}
    ensures "button_link" in r ==> r["button_link"] == s.url(newInstance["button_link"])
    ensures "image" in r ==> r["image"] == Int(IntOf(newInstance["image"]))
    ensures forall k :: k in r && k != "button_link" && k != "image" ==> r[k] == s.text(newInstance[k])
    ensures r == Whitelisted(newInstance, Routes, s)
  {
    r := Whitelist(newInstance, Routes, s);
  }
}
