/** `os.path.dirname` and `os.path.basename` on POSIX (Python's `posixpath`):
    the path is cut after its last '/'; the directory part then loses its
    trailing slashes unless it consists of nothing else. */
module PosixPath {

  /** Every character of `s` is the separator '/'. */
  predicate AllSep(s: string) {
    forall k :: 0 <= k < |s| ==> s[k] == '/'
  }

  /** `p.rfind('/')`: the index of the last '/', or -1 when there is none. */
  function RFindSep(p: string): (r: int)
    ensures -1 <= r < |p|
    ensures r >= 0 ==> p[r] == '/'
    ensures forall k :: r < k < |p| ==> p[k] != '/'
  {
    if p == [] then -1
    else if p[|p| - 1] == '/' then |p| - 1
    else RFindSep(p[..|p| - 1])
  }

  /** `os.path.basename(p)`: everything after the last '/'. */
  function Basename(p: string): (r: string)
    ensures '/' !in r
    ensures |r| <= |p| && r == p[|p| - |r|..]
    ensures |r| < |p| ==> p[|p| - |r| - 1] == '/'
  {
    p[RFindSep(p) + 1..]
  }

  /** `s.rstrip('/')`. */
  function RStripSep(s: string): (r: string)
    ensures |r| <= |s| && r == s[..|r|]
    ensures AllSep(s[|r|..])
    ensures r == [] || r[|r| - 1] != '/'
  {
    if s != [] && s[|s| - 1] == '/' then RStripSep(s[..|s| - 1]) else s
  }

  /** `os.path.dirname(p)`: everything up to the last '/', without the run of
      slashes that ends it, except that a head made only of slashes is kept. */
  function Dirname(p: string): (r: string)
    ensures |r| <= |p| && r == p[..|r|]
    ensures r == [] <==> '/' !in p
    ensures AllSep(r) || r[|r| - 1] != '/'
  {
    var head := p[..RFindSep(p) + 1];
    if head != [] && !AllSep(head) then RStripSep(head) else head
  }

  /** The directory and the file name split the path: between them there are
      only slashes, and at least one whenever the directory part does not
      consist of slashes only. */
  lemma {:induction false} DirnameBasenameSplit(p: string)
    ensures |Dirname(p)| + |Basename(p)| <= |p|
    ensures p == Dirname(p) + p[|Dirname(p)|..|p| - |Basename(p)|] + Basename(p)
    ensures AllSep(p[|Dirname(p)|..|p| - |Basename(p)|])
    ensures Dirname(p) != [] && !AllSep(Dirname(p)) ==>
      |Dirname(p)| + |Basename(p)| < |p|
  {
    var i := RFindSep(p) + 1;
    var head := p[..i];
    var d, b := Dirname(p), Basename(p);
    assert b == p[i..];
    assert |d| <= i;
    assert d == head[..|d|];
    if head != [] && !AllSep(head) {
      assert AllSep(head[|d|..]);
      assert p[|d|..i] == head[|d|..];
    }
    assert p == p[..|d|] + p[|d|..i] + p[i..];
  }

  /** The example path of a submitted bag. */
  lemma BagPathExample()
    ensures Dirname("/public/bag.zip") == "/public"
    ensures Basename("/public/bag.zip") == "bag.zip"
  {
    var p := "/public/bag.zip";
    assert RFindSep(p) == 7 by {
      assert p[7] == '/';
      assert forall k :: 7 < k < |p| ==> p[k] != '/';
    }
    var head := p[..8];
    assert head == "/public/";
    assert !AllSep(head) by { assert head[1] == 'p'; }
    assert RStripSep(head) == "/public" by {
      assert head[..7] == "/public";
    }
  }
}
