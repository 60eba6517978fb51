/** String helpers from Python's standard library that the jobs rely on:
    `str.rfind` and `os.path.splitext` (POSIX flavour). */
module Paths {

  /** `s.rfind(c)`: the index of the last occurrence of `c`, or -1. */
  function RFind(s: string, c: char): (i: int)
    ensures -1 <= i < |s|
    ensures i >= 0 ==> s[i] == c
    ensures forall j :: i < j < |s| ==> s[j] != c
    decreases |s|
  {
    if |s| == 0 then -1
    else if s[|s| - 1] == c then |s| - 1
    else RFind(s[..|s| - 1], c)
  }

  /** True when the last path component of `p` has an extension: a dot
      preceded, within that component, by at least one character that is
      not a dot (so `.bashrc` and `..` have none). */
  ghost predicate HasExtension(p: string)
  {
    exists k, i :: 0 <= k < i < |p| && p[i] == '.' && p[k] != '.' && NoSeparatorFrom(p, k)
  }

  ghost predicate NoSeparatorFrom(p: string, k: int)
    requires 0 <= k <= |p|
  {
    forall j :: k <= j < |p| ==> p[j] != '/'
  }

  /** `os.path.splitext(p)` for POSIX paths: split at the last dot of the
      last component unless everything before that dot in the component is
      dots. Returns `(root, ext)`. */
  function Splitext(p: string): (r: (string, string))
    ensures r.0 + r.1 == p
    ensures r.1 != [] ==> r.1[0] == '.'
    ensures forall j :: 0 < j < |r.1| ==> r.1[j] != '.' && r.1[j] != '/'
    ensures r.1 != [] <==> HasExtension(p)
  {
    var sep := RFind(p, '/');
    var dot := RFind(p, '.');
    if dot > sep && exists k :: sep < k < dot && p[k] != '.' then
      ghost var k :| sep < k < dot && p[k] != '.';
      assert NoSeparatorFrom(p, k);
      (p[..dot], p[dot..])
    else
      ExtensionIsFound(p);
      (p, "")
  }

  /** An extension, when there is one, sits after the last separator and
      ends at or after the last dot, with a non-dot character between. */
  lemma ExtensionIsFound(p: string)
    ensures HasExtension(p) ==>
      var sep, dot := RFind(p, '/'), RFind(p, '.');
      dot > sep && exists k :: sep < k < dot && p[k] != '.'
  {
    if HasExtension(p) {
      var k, i :| 0 <= k < i < |p| && p[i] == '.' && p[k] != '.' && NoSeparatorFrom(p, k);
      var sep, dot := RFind(p, '/'), RFind(p, '.');
      assert sep < k;
      assert i <= dot;
    }
  }
}
