/** The two POSIX path operations the downloader uses: `os.path.join` and `os.path.splitext`. */
module Paths {

  /** The index of the last `c` in `s`, or -1 when there is none (`str.rfind`). */
  function RFind(s: string, c: char): (i: int)
    ensures -1 <= i < |s|
    ensures i >= 0 ==> s[i] == c
    ensures forall j :: i < j < |s| ==> s[j] != c
  {
    if s == [] then -1
    else if s[|s| - 1] == c then |s| - 1
    else RFind(s[..|s| - 1], c)
  }

  /**
   * `os.path.join(a, b)` on POSIX: an absolute `b` replaces `a`; otherwise `b` follows `a`,
   * with a '/' between them unless `a` is empty or already ends in '/'.
   */
  function Join(a: string, b: string): (r: string)
    ensures |r| >= |b| && r[|r| - |b|..] == b
    ensures |b| > 0 && b[0] == '/' ==> r == b
    ensures (|b| == 0 || b[0] != '/') && |a| > 0 && a[|a| - 1] != '/' ==> r == a + "/" + b
  {
    if |b| > 0 && b[0] == '/' then b
    else if a == [] || a[|a| - 1] == '/' then a + b
    else a + "/" + b
  }

  /** A relative `b` follows an empty `a`, or one that already ends in '/', with nothing between them. */
  lemma JoinWithoutSeparator(a: string, b: string)
    requires |b| == 0 || b[0] != '/'
    requires a == [] || a[|a| - 1] == '/'
    ensures Join(a, b) == a + b
  {
  }

  /**
   * `os.path.splitext(p)` on POSIX: the extension runs from the last '.' of the last path
   * component, provided something other than dots comes before that '.' in the component;
   * otherwise there is no extension.
   */
  function Splitext(p: string): (r: (string, string))
    ensures r.0 + r.1 == p
    ensures r.1 == [] || (r.1[0] == '.' && '.' !in r.1[1..] && '/' !in r.1)
  {
    var sep := RFind(p, '/');
    var dot := RFind(p, '.');
    if dot > sep && exists i :: sep + 1 <= i < dot && p[i] != '.' then
      assert p[..dot] + p[dot..] == p;
      assert forall j :: 0 <= j < |p[dot..]| ==> p[dot..][j] == p[dot + j];
      (p[..dot], p[dot..])
    else (p, [])
  }

  /** `p` has an extension: its last component holds a '.' after some character that is not a '.'. */
  ghost predicate HasExtension(p: string) {
    exists i, j :: 0 <= i < j < |p| && p[i] != '.' && p[j] == '.' && '/' !in p[i..]
  }

  /** `Splitext` finds an extension exactly when the path has one, and then splits at the last '.'. */
  lemma SplitextExtension(p: string)
    ensures Splitext(p).1 != [] <==> HasExtension(p)
    ensures Splitext(p).1 != [] ==> Splitext(p).0 == p[..RFind(p, '.')]
    ensures Splitext(p).1 == [] ==> Splitext(p).0 == p
  {
    var sep := RFind(p, '/');
    var dot := RFind(p, '.');
    if Splitext(p).1 != [] {
      var i :| sep + 1 <= i < dot && p[i] != '.';
      assert '/' !in p[i..] by {
        forall k | 0 <= k < |p[i..]| ensures p[i..][k] != '/' { assert p[i..][k] == p[i + k]; }
      }
      assert HasExtension(p);
    }
    if HasExtension(p) {
      var i, j :| 0 <= i < j < |p| && p[i] != '.' && p[j] == '.' && '/' !in p[i..];
      assert sep < i;
      assert dot >= j;
      assert sep + 1 <= i < dot && p[i] != '.';
    }
  }
}
