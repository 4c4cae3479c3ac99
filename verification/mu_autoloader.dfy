/**
 * The must-use plugins' autoloader, jpry_autoloader( $class ): a class
 * whose first five characters are `JPry_` is looked for as
 * `autoloaded_classes/<class>.php`, the name used as it is; the file is
 * loaded only when it exists.
 */
module MuAutoloader {
  import opened Php
  import opened Host

  const ClassPrefix := "JPry_"
  const ClassDir := "/autoloaded_classes/"

  /** substr( $s, 0, $n ): at most the first `n` characters. */
  function Substr(s: string, n: nat): (r: string)
    ensures |r| == if |s| < n then |s| else n
    ensures r == s[..|r|]
  {
    if |s| < n then s else s[..n]
  }

  /** `'JPry_' !== substr( $class, 0, 5 )` fails exactly for the names that start with the prefix. */
  lemma PrefixTest(className: string)
    ensures Substr(className, 5) == ClassPrefix <==> StartsWith(className, ClassPrefix)
  {
  }

  /** "{$dir}/autoloaded_classes/{$class}.php", or nothing for a class without the prefix. */
  function Target(dir: string, className: string): (t: Option<string>)
    ensures t.None? <==> !StartsWith(className, ClassPrefix)
    ensures t.Some? ==> (|t.value| == |dir| + |ClassDir| + |className| + 4 &&
      t.value[..|dir| + |ClassDir|] == dir + ClassDir &&
      t.value[|dir| + |ClassDir|..|t.value| - 4] == className &&
      t.value[|t.value| - 4..] == ".php")
  {
    PrefixTest(className);
    if Substr(className, 5) != ClassPrefix then None
    else
      var path := dir + ClassDir + className + ".php";
      assert path[..|dir| + |ClassDir|] == dir + ClassDir;
      assert path[|dir| + |ClassDir|..|path| - 4] == className;
      Some(path)
  }

  /** Distinct classes are looked for in distinct files. */
  lemma TargetInjective(dir: string, a: string, b: string)
    requires Target(dir, a).Some? && Target(dir, a) == Target(dir, b)
    ensures a == b
  {
    var p := Target(dir, a).value;
    assert |a| == |b|;
    assert a == p[|dir| + |ClassDir|..|p| - 4] == b;
  }

  /** jpry_autoloader( $class ): require_once of the target, when it exists on disk. */
  method Autoload(host: Host, dir: string, className: string)
    modifies host`required
    ensures Target(dir, className).Some? && Target(dir, className).value in host.files ==>
      host.required == old(host.required) + {Target(dir, className).value}
    ensures Target(dir, className).None? || Target(dir, className).value !in host.files ==>
      host.required == old(host.required)
  {
    if ClassPrefix != Substr(className, 5) {
      return;
    }
    var file := dir + ClassDir + className + ".php";
    if file in host.files {
      host.Require(file);
    }
  }
}
