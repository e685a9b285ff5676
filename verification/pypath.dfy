/** The pieces of Python's string and POSIX path library that the HTTP handlers rely on:
    `str.rfind`, `os.path.splitext`, `os.path.basename`, `os.path.join` and the substring test `in`. */
module PyPath {

  /** `s.rfind(c)`: the index of the last occurrence of `c` in `s`, or -1 when there is none. */
  function RFind(s: string, c: char): (r: int)
    ensures -1 <= r < |s|
    ensures r >= 0 ==> s[r] == c
    ensures forall k :: r < k < |s| ==> s[k] != c
  {
    if |s| == 0 then -1
    else if s[|s| - 1] == c then |s| - 1
    else RFind(s[..|s| - 1], c)
  }

  /** A non-empty extension: a dot followed by characters that are neither dots nor separators. */
  predicate IsExtension(e: string) {
    |e| > 0 && e[0] == '.' && forall k :: 0 < k < |e| ==> e[k] != '.' && e[k] != '/'
  }

  /** `os.path.splitext(p)` on POSIX: the extension starts at the last dot of the last path
      component, provided that component holds something other than dots before that dot
      (so `.bashrc` and `a/..` have no extension). */
  function SplitExt(p: string): (r: (string, string))
    ensures r.0 + r.1 == p
    ensures r.1 == [] || IsExtension(r.1)
    // the extension is non-empty exactly when the last component has a dot after a non-dot
    ensures r.1 != [] <==> exists j, i :: RFind(p, '/') < j < i < |p| && p[j] != '.' && p[i] == '.'
  {
    var sep := RFind(p, '/');
    var dot := RFind(p, '.');
    if dot > sep && exists k :: sep < k < dot && p[k] != '.' then (p[..dot], p[dot..])
    else (p, [])
  }

  /** `os.path.splitext(p)[1]`. */
  function Ext(p: string): string {
    SplitExt(p).1
  }

  /** A plain file name `stem.suffix` (no separator, one dot, a non-empty stem) has extension
      `.suffix`: e.g. `beatles.jpeg` gives `.jpeg`. */
  lemma {:induction false} ExtOfPlainName(stem: string, suffix: string)
    requires |stem| > 0
    requires forall k :: 0 <= k < |stem| ==> stem[k] != '.' && stem[k] != '/'
    requires forall k :: 0 <= k < |suffix| ==> suffix[k] != '.' && suffix[k] != '/'
    ensures Ext(stem + "." + suffix) == "." + suffix
  {
    var p := stem + "." + suffix;
    assert forall k :: 0 <= k < |p| ==> p[k] != '/' by {
      forall k | 0 <= k < |p| ensures p[k] != '/' {
        if k < |stem| { assert p[k] == stem[k]; }
        else if k > |stem| { assert p[k] == suffix[k - |stem| - 1]; }
      }
    }
    var sep := RFind(p, '/');
    assert sep == -1;
    var dot := RFind(p, '.');
    assert p[|stem|] == '.';
    assert dot == |stem| by {
      forall k | |stem| < k < |p| ensures p[k] != '.' {
        assert p[k] == suffix[k - |stem| - 1];
      }
    }
    assert p[0] == stem[0] && p[0] != '.';
    assert p[dot..] == "." + suffix;
  }

  /** `os.path.basename(p)`: what follows the last separator. */
  function BaseName(p: string): (r: string)
    ensures |r| <= |p| && r == p[|p| - |r|..]
    ensures forall k :: 0 <= k < |r| ==> r[k] != '/'
    // the longest such suffix: it reaches back to a separator or to the start
    ensures r == p || p[|p| - |r| - 1] == '/'
  {
    p[RFind(p, '/') + 1..]
  }

  /** `os.path.join(a, b)` on POSIX: an absolute `b` replaces `a`; otherwise one separator is
      inserted unless `a` is empty or already ends with one. */
  function Join(a: string, b: string): (r: string)
    ensures |b| > 0 && b[0] == '/' ==> r == b
    ensures !(|b| > 0 && b[0] == '/') && (a == [] || a[|a| - 1] == '/') ==> r == a + b
    ensures !(|b| > 0 && b[0] == '/') && !(a == [] || a[|a| - 1] == '/') ==> r == a + "/" + b
  {
    if |b| > 0 && b[0] == '/' then b
    else if a == [] || a[|a| - 1] == '/' then a + b
    else a + "/" + b
  }

  /** Python's `sub in s` on strings: `sub` occurs as a contiguous piece of `s`. */
  predicate Contains(s: string, sub: string)
    decreases |s|
  {
    |sub| <= |s| && (s[..|sub|] == sub || Contains(s[1..], sub))
  }

  /** `sub` occurs in `s` starting at position `i`. */
  predicate OccursAt(s: string, sub: string, i: int) {
    0 <= i <= |s| - |sub| && s[i..i + |sub|] == sub
  }

  /** An occurrence of `sub` at some position makes `Contains` hold. */
  lemma {:induction false} ContainsAt(s: string, sub: string, i: nat)
    requires OccursAt(s, sub, i)
    ensures Contains(s, sub)
    decreases i
  {
    if i > 0 {
      assert s[1..][i - 1..i - 1 + |sub|] == s[i..i + |sub|];
      ContainsAt(s[1..], sub, i - 1);
    }
  }

  /** Conversely, `Contains` holds only when `sub` occurs at some position; with `ContainsAt`,
      `Contains` is exactly the substring test. */
  lemma {:induction false} ContainsFound(s: string, sub: string)
    requires Contains(s, sub)
    ensures exists i :: OccursAt(s, sub, i)
    decreases |s|
  {
    if s[..|sub|] == sub {
      assert OccursAt(s, sub, 0);
    } else {
      ContainsFound(s[1..], sub);
      var i :| OccursAt(s[1..], sub, i);
      assert s[i + 1..i + 1 + |sub|] == s[1..][i..i + |sub|];
      assert OccursAt(s, sub, i + 1);
    }
  }
}
