/**
 * `System.IO.Path` over `/`-separated paths: `Combine`, `GetDirectoryName`,
 * `GetFileName`, `GetFileNameWithoutExtension`, `GetExtension` and
 * `ChangeExtension(p, null)`, and the facts about them that the wrappers'
 * artifact paths rest on.
 */
module Paths {
  import opened Strings

  /** Position of the last `c` in `s`, or -1. */
  function LastIndexOf(s: string, c: char): (r: int)
    ensures -1 <= r < |s|
    ensures r >= 0 ==> s[r] == c
    ensures forall j :: r < j < |s| ==> s[j] != c
  {
    if |s| == 0 then -1
    else if s[|s| - 1] == c then |s| - 1
    else LastIndexOf(s[..|s| - 1], c)
  }

  /** Appending text without `c` leaves the last `c` where it was. */
  lemma {:induction false} LastIndexOfAppend(a: string, n: string, c: char)
    requires c !in n
    ensures LastIndexOf(a + n, c) == LastIndexOf(a, c)
  {
    if |n| > 0 {
      var s := a + n;
      assert s[|s| - 1] == n[|n| - 1];
      assert s[..|s| - 1] == a + n[..|n| - 1];
      LastIndexOfAppend(a, n[..|n| - 1], c);
    } else {
      assert a + n == a;
    }
  }

  /** The part after the last separator. */
  function GetFileName(p: string): (name: string)
    ensures '/' !in name && EndsWith(p, name)
  {
    p[LastIndexOf(p, '/') + 1..]
  }

  /** Everything up to and including the last separator. */
  function DirPrefix(p: string): (d: string)
    ensures p == d + GetFileName(p)
  {
    var k := LastIndexOf(p, '/') + 1;
    assert p == p[..k] + p[k..];
    p[..k]
  }

  /** `Path.GetDirectoryName`: "" without a separator, "/" for a file at the root. */
  function GetDirectoryName(p: string): string
  {
    var k := LastIndexOf(p, '/');
    if k < 0 then "" else if k == 0 then "/" else p[..k]
  }

  /** `Path.GetExtension`: from the file name's last '.', or "" when there is none or it is last. */
  function GetExtension(p: string): (ext: string)
    ensures ext == "" || (ext[0] == '.' && |ext| > 1 && '.' !in ext[1..] && '/' !in ext && EndsWith(p, ext))
  {
    var name := GetFileName(p);
    var d := LastIndexOf(name, '.');
    if d < 0 || d == |name| - 1 then "" else name[d..]
  }

  /** `Path.GetFileNameWithoutExtension`: the file name cut before its last '.'. */
  function GetFileNameWithoutExtension(p: string): (stem: string)
    ensures '/' !in stem
  {
    var name := GetFileName(p);
    var d := LastIndexOf(name, '.');
    if d < 0 then name else name[..d]
  }

  /** `Path.ChangeExtension(p, null)`: `p` without the file name's last '.' and what follows it. */
  function RemoveExtension(p: string): string
  {
    var name := GetFileName(p);
    var d := LastIndexOf(name, '.');
    if d < 0 then p else p[..|p| - |name| + d]
  }

  /** `Path.Combine(a, b)` for two parts: a rooted `b` wins, an empty part disappears. */
  function Combine(a: string, b: string): string
  {
    if b == "" then a
    else if b[0] == '/' then b
    else if a == "" then b
    else if a[|a| - 1] == '/' then a + b
    else a + "/" + b
  }

  /** The directory part of `p` does not itself end in a doubled separator. */
  predicate SimpleDir(p: string)
  {
    var k := LastIndexOf(p, '/');
    k <= 0 || p[k - 1] != '/'
  }

  /** Whether the file name of `p` is free of a trailing '.'. */
  predicate NoTrailingDot(p: string)
  {
    var name := GetFileName(p);
    name == "" || name[|name| - 1] != '.'
  }

  /** A file name without its extension, followed by its extension, is the file name. */
  lemma FileNameParts(p: string)
    requires NoTrailingDot(p)
    ensures GetFileNameWithoutExtension(p) + GetExtension(p) == GetFileName(p)
  {
    var name := GetFileName(p);
    var d := LastIndexOf(name, '.');
    if d >= 0 {
      assert name[..d] + name[d..] == name;
    }
  }

  /** Removing the extension keeps the directory prefix and the file name's stem. */
  lemma RemoveExtensionStem(p: string)
    ensures RemoveExtension(p) == DirPrefix(p) + GetFileNameWithoutExtension(p)
  {
    var name := GetFileName(p);
    var dp := DirPrefix(p);
    var d := LastIndexOf(name, '.');
    if d >= 0 {
      assert p == dp + name;
      assert p[..|p| - |name| + d] == dp + name[..d];
    }
  }

  /** `RemoveExtension(p)` followed by the extension is `p` again, in `p`'s directory. */
  lemma RemoveExtensionParts(p: string)
    requires NoTrailingDot(p)
    ensures RemoveExtension(p) + GetExtension(p) == p
    ensures GetDirectoryName(RemoveExtension(p)) == GetDirectoryName(p)
    ensures GetFileName(RemoveExtension(p)) == GetFileNameWithoutExtension(p)
  {
    RemoveExtensionStem(p);
    StemThenExtension(p);
    SiblingDirectory(p, GetFileNameWithoutExtension(p));
  }

  /** Combining the directory of `p` with a relative name puts the name in `p`'s directory. */
  lemma CombineSibling(p: string, n: string)
    requires SimpleDir(p) && n != "" && n[0] != '/'
    ensures Combine(GetDirectoryName(p), n) == DirPrefix(p) + n
  {
    var k := LastIndexOf(p, '/');
    var d := p[..k + 1];
    assert DirPrefix(p) == d;
    if k < 0 {
      assert GetDirectoryName(p) == "" && d == "";
    } else if k == 0 {
      assert GetDirectoryName(p) == "/" && d == "/";
    } else {
      var dir := p[..k];
      assert GetDirectoryName(p) == dir;
      assert dir[|dir| - 1] == p[k - 1];
      assert d == dir + "/";
    }
  }

  /** A name without separators appended to `p`'s directory prefix lies in `p`'s directory. */
  lemma SiblingDirectory(p: string, n: string)
    requires '/' !in n
    ensures GetDirectoryName(DirPrefix(p) + n) == GetDirectoryName(p)
    ensures GetFileName(DirPrefix(p) + n) == n
  {
    var k := LastIndexOf(p, '/');
    var d := p[..k + 1];
    assert DirPrefix(p) == d;
    assert k >= 0 ==> d[|d| - 1] == '/';
    assert LastIndexOf(d, '/') == k;
    LastIndexOfAppend(d, n, '/');
    var q := d + n;
    assert LastIndexOf(q, '/') == k;
    assert q[k + 1..] == n;
    if k > 0 {
      assert q[..k] == p[..k];
    }
  }

  /**
   * The path "<dir>/<name><infix><ext>" derived from `p` by inserting `infix`
   * before the extension, as the chromosome converters and the gene-model filter do.
   */
  function InsertBeforeExtension(p: string, infix: string): string
  {
    Combine(GetDirectoryName(p), GetFileNameWithoutExtension(p)) + infix + GetExtension(p)
  }

  /** The path "<dir>/<name><suffix>" derived from `p` by replacing the extension. */
  function ReplaceExtension(p: string, suffix: string): string
  {
    Combine(GetDirectoryName(p), GetFileNameWithoutExtension(p) + suffix)
  }

  /**
   * For an ordinary path, inserting an infix keeps the directory and the extension
   * and adds exactly the infix, so a nonempty infix never names `p` itself.
   */
  lemma InsertBeforeExtensionShape(p: string, infix: string)
    requires SimpleDir(p) && NoTrailingDot(p) && GetFileNameWithoutExtension(p) != ""
    ensures p == DirPrefix(p) + GetFileNameWithoutExtension(p) + GetExtension(p)
    ensures InsertBeforeExtension(p, infix)
         == DirPrefix(p) + GetFileNameWithoutExtension(p) + infix + GetExtension(p)
    ensures |InsertBeforeExtension(p, infix)| == |p| + |infix|
    ensures infix != "" ==> InsertBeforeExtension(p, infix) != p
  {
    var dp, stem, ext := DirPrefix(p), GetFileNameWithoutExtension(p), GetExtension(p);
    StemThenExtension(p);
    SiblingStem(p);
    var r := InsertBeforeExtension(p, infix);
    assert r == (dp + stem) + infix + ext;
    assert |r| == |dp| + |stem| + |infix| + |ext|;
  }

  /** An infix without separators keeps the derived path in the directory of `p`. */
  lemma InsertBeforeExtensionSibling(p: string, infix: string)
    requires SimpleDir(p) && NoTrailingDot(p) && GetFileNameWithoutExtension(p) != "" && '/' !in infix
    ensures GetDirectoryName(InsertBeforeExtension(p, infix)) == GetDirectoryName(p)
    ensures GetFileName(InsertBeforeExtension(p, infix))
         == GetFileNameWithoutExtension(p) + infix + GetExtension(p)
  {
    var dp, stem, ext := DirPrefix(p), GetFileNameWithoutExtension(p), GetExtension(p);
    var n := stem + infix + ext;
    NoSlashConcat(stem, infix, ext);
    InsertBeforeExtensionShape(p, infix);
    ConcatAssoc(dp, stem, infix, ext);
    SiblingDirectory(p, n);
  }

  lemma ConcatAssoc(a: string, b: string, c: string, d: string)
    ensures a + b + c + d == a + (b + c + d)
  {
  }

  lemma ConcatAssoc3(a: string, b: string, c: string)
    ensures a + (b + c) == a + b + c
  {
  }

  lemma NoSlashConcat(a: string, b: string, c: string)
    requires '/' !in a && '/' !in b && '/' !in c
    ensures '/' !in a + b + c
  {
  }

  /** Helper: the file name splits into stem and extension after the directory prefix. */
  lemma StemThenExtension(p: string)
    requires NoTrailingDot(p)
    ensures p == DirPrefix(p) + GetFileNameWithoutExtension(p) + GetExtension(p)
  {
    FileNameParts(p);
    ConcatAssoc3(DirPrefix(p), GetFileNameWithoutExtension(p), GetExtension(p));
  }

  /** Helper: the stem combined with the directory lands after the directory prefix. */
  lemma SiblingStem(p: string)
    requires SimpleDir(p) && GetFileNameWithoutExtension(p) != ""
    ensures Combine(GetDirectoryName(p), GetFileNameWithoutExtension(p))
         == DirPrefix(p) + GetFileNameWithoutExtension(p)
  {
    CombineSibling(p, GetFileNameWithoutExtension(p));
  }

  /**
   * Replacing the extension of an ordinary path keeps its directory; the new file
   * name is the old one without extension followed by the suffix.
   */
  lemma ReplaceExtensionShape(p: string, suffix: string)
    requires SimpleDir(p) && '/' !in suffix
    requires GetFileNameWithoutExtension(p) + suffix != ""
    ensures ReplaceExtension(p, suffix) == DirPrefix(p) + (GetFileNameWithoutExtension(p) + suffix)
    ensures GetDirectoryName(ReplaceExtension(p, suffix)) == GetDirectoryName(p)
    ensures GetFileName(ReplaceExtension(p, suffix)) == GetFileNameWithoutExtension(p) + suffix
  {
    var n := GetFileNameWithoutExtension(p) + suffix;
    CombineSibling(p, n);
    SiblingDirectory(p, n);
  }

  /** A plain file name combined onto any directory is the file name of the result. */
  lemma CombineFileName(a: string, n: string)
    requires n != "" && '/' !in n
    ensures GetFileName(Combine(a, n)) == n
  {
    var q := Combine(a, n);
    if a == "" {
      assert q == n;
      assert LastIndexOf(n, '/') == -1;
      assert n[0..] == n;
    } else if a[|a| - 1] == '/' {
      assert q == a + n;
      LastIndexOfAppend(a, n, '/');
      assert LastIndexOf(a, '/') == |a| - 1;
      assert q[|a|..] == n;
    } else {
      var d := a + "/";
      assert q == d + n;
      LastIndexOfAppend(d, n, '/');
      assert LastIndexOf(d, '/') == |a|;
      assert q[|d|..] == n;
    }
  }
}
