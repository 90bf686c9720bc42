/** File-name handling used when a param file is named after its input
    snapshot: os.path.splitext with POSIX separators ('/' separates
    directories, '.' starts an extension). */
module PathNames {

  /** str.rfind(c): the last index holding c, or -1 when c does not occur. */
  function RFind(s: string, c: char): (i: int)
    ensures -1 <= i < |s|
    ensures i >= 0 ==> s[i] == c
    ensures forall k :: i < k < |s| ==> s[k] != c
    decreases |s|
  {
    if |s| == 0 then -1
    else if s[|s| - 1] == c then |s| - 1
    else RFind(s[..|s| - 1], c)
  }

  /** p[i] is the dot that starts p's extension: it is the last dot of the
      last path component, and some character of that component before it
      is not a dot (so ".bashrc" and "..x" have no extension). */
  ghost predicate IsExtDot(p: string, i: int) {
    && 0 <= i < |p|
    && p[i] == '.'
    && (forall k :: i < k < |p| ==> p[k] != '.' && p[k] != '/')
    && exists j :: 0 <= j < i && p[j] != '.' && p[j] != '/' && NoSepBetween(p, j, i)
  }

  /** No directory separator strictly between positions lo and hi. */
  ghost predicate NoSepBetween(p: string, lo: int, hi: int)
    requires 0 <= lo <= hi <= |p|
  {
    forall k :: lo < k < hi ==> p[k] != '/'
  }

  /** os.path.splitext(p): (root, ext) with root + ext == p. */
  function SplitExt(p: string): (parts: (string, string))
    ensures parts.0 + parts.1 == p
    ensures parts.1 == [] || parts.1[0] == '.'
  {
    var sep := RFind(p, '/');
    var dot := RFind(p, '.');
    if dot > sep && exists j | sep + 1 <= j < dot :: p[j] != '.' then
      (p[..dot], p[dot..])
    else
      (p, [])
  }

  /** os.path.splitext(p)[0]: the file name without its extension. */
  function Stem(p: string): (stem: string)
    ensures stem <= p
  {
    SplitExt(p).0
  }

  /** splitext removes an extension exactly when p has one, and what it
      removes is that extension: from the extension dot to the end. */
  lemma SplitExtSpec(p: string)
    ensures SplitExt(p).1 != [] <==> exists i :: IsExtDot(p, i)
    ensures SplitExt(p).1 != [] ==> IsExtDot(p, |SplitExt(p).0|)
  {
    var sep := RFind(p, '/');
    var dot := RFind(p, '.');
    if dot > sep && exists j | sep + 1 <= j < dot :: p[j] != '.' {
      var j :| sep + 1 <= j < dot && p[j] != '.';
      assert NoSepBetween(p, j, dot);
      assert IsExtDot(p, dot);
    } else {
      forall i | IsExtDot(p, i)
        ensures false
      {
        var j :| 0 <= j < i && p[j] != '.' && p[j] != '/' && NoSepBetween(p, j, i);
      }
    }
  }

  /** The stem is never longer than the name, and equals it exactly when the
      name has no extension. */
  lemma StemDropsOnlyExtension(p: string)
    ensures Stem(p) == p <==> !exists i :: IsExtDot(p, i)
  {
    SplitExtSpec(p);
  }
}
