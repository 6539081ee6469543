/**
 * `file_has_extension` and `is_java_file` (utils.py), on top of the POSIX
 * `os.path.splitext`: the extension is the text from the last dot of the
 * last path component, unless every character before that dot in the
 * component is itself a dot (so ".java" or "dir/..java" have no extension).
 */
module Paths {
  import opened Text

  /** The last index of `c` in `s`, or -1 (`str.rfind`). */
  function LastIndex(s: string, c: char): (i: int)
    ensures -1 <= i < |s|
    ensures 0 <= i ==> s[i] == c
    ensures forall j :: i < j < |s| ==> s[j] != c
  {
    if s == [] then -1
    else if s[|s| - 1] == c then |s| - 1
    else LastIndex(s[..|s| - 1], c)
  }

  /** Some character of `p[lo..hi]` is not a dot. */
  predicate HasNonDot(p: string, lo: int, hi: int)
    requires 0 <= lo && hi <= |p|
  {
    exists k | lo <= k < hi :: p[k] != '.'
  }

  /** `posixpath.splitext`: `(root, ext)`. */
  function SplitExt(p: string): (r: (string, string))
    ensures r.0 + r.1 == p
    ensures r.1 == [] || (r.1[0] == '.' && forall k :: 1 <= k < |r.1| ==> r.1[k] != '.')
    ensures forall k :: 0 <= k < |r.1| ==> r.1[k] != '/'
  {
    var sep := LastIndex(p, '/');
    var dot := LastIndex(p, '.');
    if dot > sep && HasNonDot(p, sep + 1, dot) then
      assert p[..dot] + p[dot..] == p;
      (p[..dot], p[dot..])
    else
      assert p + [] == p;
      (p, [])
  }

  /** `file_has_extension(extension, file_path)`: compared after lower-casing both. */
  predicate FileHasExtension(extension: string, path: string) {
    SplitExt(Lower(path)).1 == Lower(extension)
  }

  /** `is_java_file`. */
  predicate IsJavaFile(path: string) {
    FileHasExtension(".java", path)
  }

  /** No dot after the last slash. */
  ghost predicate NoDotInBasename(p: string) {
    forall k :: LastIndex(p, '/') < k < |p| ==> p[k] != '.'
  }

  lemma LowerKeepsLastIndex(p: string, c: char)
    requires c == '/' || c == '.'
    ensures LastIndex(Lower(p), c) == LastIndex(p, c)
  {
  }

  /** A path whose last component has no dot has no extension, and is not a Java file. */
  lemma NoDotNoExtension(p: string)
    requires NoDotInBasename(p)
    ensures SplitExt(p).1 == []
    ensures !IsJavaFile(p)
  {
    LowerKeepsLastIndex(p, '/');
    var q := Lower(p);
    forall k | LastIndex(q, '/') < k < |q| ensures q[k] != '.' {
      assert q[k] == LowerChar(p[k]);
    }
    assert Lower(".java") == ".java";
  }

  /** Ends in ".java" after a last component that has a character other than a dot. */
  predicate JavaSuffix(q: string) {
    |q| >= 5 && q[|q| - 5..] == ".java" && HasNonDot(q, LastIndex(q, '/') + 1, |q| - 5)
  }

  lemma ExtensionJavaOnlyIfSuffix(q: string)
    requires SplitExt(q).1 == ".java"
    ensures JavaSuffix(q)
  {
    var sep := LastIndex(q, '/');
    var dot := LastIndex(q, '.');
    assert dot > sep && HasNonDot(q, sep + 1, dot);
    assert SplitExt(q).1 == q[dot..];
    assert dot == |q| - 5;
  }

  lemma ExtensionJavaIfSuffix(q: string)
    requires JavaSuffix(q)
    ensures SplitExt(q).1 == ".java"
  {
    var n := |q| - 5;
    var t := q[n..];
    assert t == ".java";
    assert q[n] == t[0] == '.';
    assert q[n + 1] == t[1] && q[n + 2] == t[2] && q[n + 3] == t[3] && q[n + 4] == t[4];
    var sep := LastIndex(q, '/');
    var dot := LastIndex(q, '.');
    assert dot == n;
    assert sep < n;
    assert SplitExt(q).1 == q[dot..];
  }

  /**
   * `is_java_file(p)` holds exactly when the lower-cased path ends in ".java"
   * and its last component has a character other than a dot before that.
   */
  lemma IsJavaFileIff(p: string)
    ensures IsJavaFile(p) <==> JavaSuffix(Lower(p))
  {
    assert Lower(".java") == ".java";
    if IsJavaFile(p) {
      ExtensionJavaOnlyIfSuffix(Lower(p));
    }
    if JavaSuffix(Lower(p)) {
      ExtensionJavaIfSuffix(Lower(p));
    }
  }

  lemma UpperCaseIsJava()
    ensures IsJavaFile("A.JAVA")
  {
    var q := Lower("A.JAVA");
    assert q == "a.java";
    assert q[0] == 'a' && q[1] == '.' && q[2] == 'j' && q[3] == 'a' && q[4] == 'v' && q[5] == 'a';
    assert LastIndex(q, '/') == -1;
    assert HasNonDot(q, 0, 1);
    IsJavaFileIff("A.JAVA");
  }

  lemma HiddenFileIsNotJava()
    ensures !IsJavaFile(".java")
  {
    var q := Lower(".java");
    assert q == ".java";
    assert q[0] == '.' && q[1] == 'j' && q[2] == 'a' && q[3] == 'v' && q[4] == 'a';
    assert LastIndex(q, '/') == -1;
    IsJavaFileIff(".java");
  }

  lemma JavaDirectoryIsNotJava()
    ensures !IsJavaFile("src.java/Main")
  {
    var p := "src.java/Main";
    assert p[8] == '/' && p[9] == 'M' && p[10] == 'a' && p[11] == 'i' && p[12] == 'n';
    assert LastIndex(p, '/') == 8;
    NoDotNoExtension(p);
  }
}
