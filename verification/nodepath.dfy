/** The parts of Node's POSIX `path` module the service uses: `join`,
    `basename` (with and without a suffix) and `extname`. */
module NodePath {
  import opened Outcomes
  import opened Text

  /** A local file: the directory it lives in and its file name. */
  datatype LocalPath = LocalPath(dir: string, name: string)

  /** `path.join(dir, name)`, for a directory without a trailing separator. */
  function PathString(p: LocalPath): string {
    p.dir + "/" + p.name
  }

  function TrimTrailingSlashes(s: string): (r: string)
    ensures |r| <= |s| && r == s[..|r|]
    ensures r == "" || r[|r| - 1] != '/'
    ensures '/' !in s ==> r == s
  {
    if |s| > 0 && s[|s| - 1] == '/' then TrimTrailingSlashes(s[..|s| - 1]) else s
  }

  function AfterLastSlash(s: string): (r: string)
    ensures '/' !in r
    ensures |r| <= |s| && r == s[|s| - |r|..]
    ensures '/' !in s ==> r == s
  {
    if |s| == 0 || s[|s| - 1] == '/' then ""
    else AfterLastSlash(s[..|s| - 1]) + [s[|s| - 1]]
  }

  /** `path.basename(p)`: the last segment of `p`, trailing separators
      ignored. */
  function BaseName(p: string): (r: string)
    ensures '/' !in r
    ensures '/' !in p ==> r == p
  {
    AfterLastSlash(TrimTrailingSlashes(p))
  }

  function LastIndexOf(s: string, c: char): (r: Option<nat>)
    ensures r.None? <==> c !in s
    ensures r.Some? ==> r.value < |s| && s[r.value] == c && c !in s[r.value + 1..]
  {
    if |s| == 0 then None
    else if s[|s| - 1] == c then Some(|s| - 1)
    else
      var r := LastIndexOf(s[..|s| - 1], c);
      assert s == s[..|s| - 1] + [s[|s| - 1]];
      if r.Some? then
        assert s[r.value + 1..] == s[..|s| - 1][r.value + 1..] + [s[|s| - 1]];
        r
      else r
  }

  /** `path.extname(p)`: from the last `.` of the last segment to its end.
      The dot counts only when it is not the segment's first character, and
      the segment `..` has no extension. */
  function ExtName(p: string): (r: string)
    ensures r == "" || (r[0] == '.' && '.' !in r[1..] && '/' !in r)
    ensures r == "" || (|r| < |BaseName(p)| && EndsWith(BaseName(p), r))
  {
    var seg := BaseName(p);
    match LastIndexOf(seg, '.')
    case None => ""
    case Some(d) =>
      if d == 0 || seg == ".." then "" else seg[d..]
  }

  /** `path.basename(name, ext)` for a slash-free name: strips `ext` only
      when it is a non-empty suffix of `name`. */
  function BaseNameWithout(name: string, ext: string): string {
    if ext != "" && EndsWith(name, ext) then name[..|name| - |ext|] else name
  }

  /** Joining slash-free parts with a dot adds no slash. */
  lemma NoSlashInDotJoin(stem: string, e: string)
    requires '/' !in stem && '/' !in e
    ensures '/' !in stem + "." + e
  {
    var s := stem + "." + e;
    assert forall i :: 0 <= i < |s| ==> s[i] == (if i < |stem| then stem[i] else if i == |stem| then '.' else e[i - |stem| - 1]);
  }

  /** The last dot of `stem.e` is the joining one when `e` has none. */
  lemma LastDotOfDotJoin(stem: string, e: string)
    requires '.' !in e
    ensures LastIndexOf(stem + "." + e, '.') == Some(|stem|)
  {
    var s := stem + "." + e;
    assert s[|stem|] == '.';
    assert s[|stem| + 1..] == e;
    var d := LastIndexOf(s, '.');
    assert d.Some?;
  }

  /** In a slash-free segment, a last dot after the first character starts
      the extension. */
  lemma ExtNameOfSegment(seg: string, d: nat)
    requires '/' !in seg && seg != ".."
    requires LastIndexOf(seg, '.') == Some(d) && d > 0
    ensures ExtName(seg) == seg[d..]
  {
    assert BaseName(seg) == seg;
  }

  /** The extension rule, positive half: a slash-free name whose last dot
      follows at least one character has the extension from that dot on. */
  lemma ExtNameOfSuffix(stem: string, e: string)
    requires stem != "" && '/' !in stem
    requires e != "" && '.' !in e && '/' !in e
    ensures ExtName(stem + "." + e) == "." + e
  {
    var s := stem + "." + e;
    NoSlashInDotJoin(stem, e);
    LastDotOfDotJoin(stem, e);
    assert s != ".." by {
      assert |s| >= 3;
    }
    ExtNameOfSegment(s, |stem|);
    assert s[|stem|..] == "." + e;
  }

  /** The extension rule, negative half: a dot that is the first character
      of the last segment does not start an extension. */
  lemma DotFileHasNoExtName(x: string)
    requires '.' !in x && '/' !in x
    ensures ExtName("." + x) == ""
  {
    var s := "." + x;
    assert '/' !in s by {
      assert forall i :: 1 <= i < |s| ==> s[i] == x[i - 1];
    }
    assert BaseName(s) == s;
    var d := LastIndexOf(s, '.');
    assert s[0] == '.' && s[1..] == x;
    assert d.Some? && d.value == 0;
  }
}
