/** The Year Archive widget's settings: a title only. */
module YearArchive {
  import opened Php
  import opened Host
  import opened WidgetSettings

  /** The `valid_keys` of update(); the switch's one case sends the title through sanitize_text_field(). */
  const Routes: map<string, Route> := map["title" := Text]

  /**
   * update( $new_instance, $old_instance ): the result holds a title
   * exactly when a title was given, sanitized, and nothing else. The old
   * settings play no part.
   */
  method Update(s: Sanitizers, newInstance: Args, oldInstance: Args) returns (r: Args)
    ensures r.Keys <= {"title"}
    ensures "title" in r <==> "title" in newInstance
    ensures "title" in r ==> r["title"] == s.text(newInstance["title"])
    ensures r == Whitelisted(newInstance, Routes, s)
  {
    r := Whitelist(newInstance, Routes, s);
  }
}
