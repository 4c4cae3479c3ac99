/**
 * The autoloader of the translation-propagation plugin,
 * jpry_translation_propagation( $class ): a class whose name starts with
 * `JPry_` is looked for in includes/ as `class-<name>.php`, the name
 * lower-cased and its underscores turned into dashes; the file is loaded
 * only when it exists.
 */
module TranslationAutoloader {
  import opened Php
  import opened Host

  const ClassPrefix := "JPry_"

  /** A character of the class name as it appears in the file name. */
  function FileChar(c: char): (r: char)
    ensures r != '_' && !IsUpper(r)
    ensures c != '_' ==> r == LowerChar(c)
  {
    LowerChar(if c == '_' then '-' else c)
  }

  /** 'class-' . strtolower( str_replace( '_', '-', $class ) ) . '.php'. */
  function FileName(className: string): (f: string)
    ensures |f| == |className| + 10
    ensures f[..6] == "class-" && f[|f| - 4..] == ".php"
    ensures forall k :: 0 <= k < |className| ==> f[6 + k] == FileChar(className[k])
  {
    var middle := Lower(ReplaceChar(className, '_', '-'));
    assert forall k :: 0 <= k < |className| ==> middle[k] == FileChar(className[k]);
    "class-" + middle + ".php"
  }

  /** The file name has no underscore and no upper-case letter, whatever the class name. */
  lemma FileNameClean(className: string)
    ensures forall k :: 0 <= k < |FileName(className)| ==> FileName(className)[k] != '_' && !IsUpper(FileName(className)[k])
  {
    var f := FileName(className);
    forall k | 0 <= k < |f| ensures f[k] != '_' && !IsUpper(f[k]) {
      if k < 6 {
        assert f[k] == "class-"[k];
      } else if k < 6 + |className| {
        assert f[k] == FileChar(className[k - 6]);
      } else {
        assert f[k] == f[|f| - 4..][k - (|f| - 4)];
      }
    }
  }

  /** Case and the choice between `_` and `-` do not matter: such class names share one file. */
  lemma FileNameFolds(a: string, b: string)
    requires |a| == |b|
    requires forall k :: 0 <= k < |a| ==> FileChar(a[k]) == FileChar(b[k])
    ensures FileName(a) == FileName(b)
  {
    var fa, fb := FileName(a), FileName(b);
    forall k | 0 <= k < |fa| ensures fa[k] == fb[k] {
      if k < 6 {
      } else if k < 6 + |a| {
        assert fa[k] == FileChar(a[k - 6]) && fb[k] == FileChar(b[k - 6]);
      } else {
        assert fa[k] == fa[|fa| - 4..][k - (|fa| - 4)] && fb[k] == fb[|fb| - 4..][k - (|fb| - 4)];
      }
    }
  }

  /**
   * The file the autoloader would load for `className`, `dir` being the plugin
   * directory; nothing for a class without the prefix (strpos is not 0).
   */
  function Target(dir: string, className: string): (t: Option<string>)
    ensures t.None? <==> !StartsWith(className, ClassPrefix)
    ensures t.Some? ==> t.value == dir + "/includes/" + FileName(className)
  {
    if !StartsWith(className, ClassPrefix) then None else Some(dir + "/includes/" + FileName(className))
  }

  /** jpry_translation_propagation( $class ): require_once of the target, when it exists on disk. */
  method Autoload(host: Host, dir: string, className: string)
    modifies host`required
    ensures Target(dir, className).Some? && Target(dir, className).value in host.files ==>
      host.required == old(host.required) + {Target(dir, className).value}
    ensures Target(dir, className).None? || Target(dir, className).value !in host.files ==>
      host.required == old(host.required)
  {
    if !StartsWith(className, ClassPrefix) {
      return;
    }
    var file := dir + "/includes/" + FileName(className);
    if file in host.files {
      host.Require(file);
    }
  }
}
