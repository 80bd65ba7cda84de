/** Go's `path.Clean` and two-element `path.Join`: purely lexical processing of
    slash-separated paths. A path is split at every `/` into segments; empty and
    `.` segments are dropped; a `..` segment cancels the preceding ordinary
    segment, is dropped at the root of a rooted path, and is kept otherwise. */
module GoPath {

  /** `strings.Split(s, "/")`: the segments between slashes, at least one. */
  function Split(s: string): (segs: seq<string>)
    ensures |segs| >= 1
    ensures forall i :: 0 <= i < |segs| ==> '/' !in segs[i]
    ensures JoinSegments(segs) == s
    ensures segs[0] == [] <==> s == [] || s[0] == '/'
  {
    if s == [] then [[]]
    else
      var rest := Split(s[1..]);
      if s[0] == '/' then
        assert [s[0]] + s[1..] == s;
        [[]] + rest
      else
        var first := [s[0]] + rest[0];
        assert JoinSegments([first] + rest[1..]) == [s[0]] + JoinSegments(rest) by {
          if |rest| > 1 {
            assert ([first] + rest[1..])[1..] == rest[1..];
            assert rest == [rest[0]] + rest[1..];
          }
        }
        assert [s[0]] + s[1..] == s;
        [first] + rest[1..]
  }

  /** `strings.Join(segs, "/")`. */
  function JoinSegments(segs: seq<string>): string
  {
    if segs == [] then ""
    else if |segs| == 1 then segs[0]
    else segs[0] + "/" + JoinSegments(segs[1..])
  }

  /** A segment that `Clean` keeps as it is. */
  predicate NormalSegment(seg: string)
  {
    seg != "" && seg != "." && seg != ".." && '/' !in seg
  }

  /** A relative path that is already clean: every segment is normal (so the
      path is non-empty, does not start or end with `/`, and has no `//`). */
  predicate IsCleanRelative(p: string)
  {
    forall seg :: seg in Split(p) ==> NormalSegment(seg)
  }

  /** One step of `Clean` on the stack of kept segments. */
  function Reduce(stack: seq<string>, seg: string, rooted: bool): seq<string>
  {
    if seg == "" || seg == "." then stack
    else if seg == ".." then
      if |stack| > 0 && stack[|stack| - 1] != ".." then stack[..|stack| - 1]
      else if rooted then stack
      else stack + [".."]
    else stack + [seg]
  }

  /** `Reduce` applied to the segments from left to right. */
  function ReduceAll(stack: seq<string>, segs: seq<string>, rooted: bool): seq<string>
    decreases |segs|
  {
    if segs == [] then stack else ReduceAll(Reduce(stack, segs[0], rooted), segs[1..], rooted)
  }

  /** `path.Clean`: the shortest lexically equivalent path, never empty. */
  function Clean(p: string): (r: string)
    ensures r != []
  {
    var rooted := |p| > 0 && p[0] == '/';
    var body := JoinSegments(ReduceAll([], Split(p), rooted));
    var out := if rooted then "/" + body else body;
    if out == "" then "." else out
  }

  /** `path.Join(a, b)`: "" when both are empty, otherwise the cleaned
      slash-joined non-empty parts. */
  function Join(a: string, b: string): (r: string)
    ensures r == "" <==> a == "" && b == ""
  {
    if a == "" && b == "" then "" else Clean(if a == "" then b else a + "/" + b)
  }

  /** A string without `/` is one segment. */
  lemma {:induction false} SplitSingle(s: string)
    requires '/' !in s
    ensures Split(s) == [s]
  {
    if s != [] {
      assert '/' !in s[1..] by {
        assert forall i :: 0 <= i < |s| - 1 ==> s[1..][i] == s[i + 1];
      }
      SplitSingle(s[1..]);
      assert [s[0]] + s[1..] == s;
    }
  }

  /** Splitting at an inserted slash splits the two sides separately. */
  lemma {:induction false} SplitAppend(a: string, b: string)
    ensures Split(a + "/" + b) == Split(a) + Split(b)
  {
    if a == [] {
      assert a + "/" + b == "/" + b;
      assert ("/" + b)[1..] == b;
    } else {
      var s := a + "/" + b;
      assert s[0] == a[0];
      assert s[1..] == a[1..] + "/" + b;
      SplitAppend(a[1..], b);
    }
  }

  /** Joining slash-free segments and splitting again gives them back: `Split`
      and `JoinSegments` are inverse to each other. */
  lemma {:induction false} SplitOfJoin(segs: seq<string>)
    requires |segs| >= 1
    requires forall i :: 0 <= i < |segs| ==> '/' !in segs[i]
    ensures Split(JoinSegments(segs)) == segs
    decreases |segs|
  {
    SplitSingle(segs[0]);
    if |segs| > 1 {
      SplitOfJoin(segs[1..]);
      SplitAppend(segs[0], JoinSegments(segs[1..]));
    }
  }

  /** Normal segments are all pushed onto the stack unchanged. */
  lemma {:induction false} ReduceAllNormal(stack: seq<string>, segs: seq<string>, rooted: bool)
    requires forall i :: 0 <= i < |segs| ==> NormalSegment(segs[i])
    ensures ReduceAll(stack, segs, rooted) == stack + segs
    decreases |segs|
  {
    if segs != [] {
      ReduceAllNormal(stack + [segs[0]], segs[1..], rooted);
      assert stack + [segs[0]] + segs[1..] == stack + segs;
    }
  }

  /** `Clean` leaves a clean relative path unchanged. */
  lemma CleanOfCleanRelative(p: string)
    requires IsCleanRelative(p)
    ensures Clean(p) == p
  {
    var segs := Split(p);
    assert segs[0] in segs;
    assert forall i :: 0 <= i < |segs| ==> NormalSegment(segs[i]) by {
      forall i | 0 <= i < |segs| ensures NormalSegment(segs[i]) {
        assert segs[i] in segs;
      }
    }
    ReduceAllNormal([], segs, false);
    assert [] + segs == segs;
  }

  /** A clean relative path followed by one more normal segment is clean. */
  lemma ExtendCleanRelative(p: string, seg: string)
    requires IsCleanRelative(p)
    requires NormalSegment(seg)
    ensures IsCleanRelative(p + "/" + seg)
  {
    SplitAppend(p, seg);
    SplitSingle(seg);
  }

  /** A leading `./` does not change what a relative path cleans to. */
  lemma CleanDropsDotPrefix(p: string)
    requires p == [] || p[0] != '/'
    ensures Clean("./" + p) == Clean(p)
  {
    SplitAppend(".", p);
    SplitSingle(".");
    assert "." + "/" + p == "./" + p;
    var segs := Split(p);
    assert Split("./" + p) == ["."] + segs;
    assert (["."] + segs)[1..] == segs;
  }

  /** The directory and file name computation of the download executor:
      joining `.`, a clean relative directory and a normal file name yields
      `dir/name` exactly. */
  lemma JoinUnderCleanDirectory(dir: string, name: string)
    requires IsCleanRelative(dir)
    requires NormalSegment(name)
    ensures Join(Join(".", dir), name) == dir + "/" + name
  {
    assert Split(dir)[0] in Split(dir);
    assert "." + "/" + dir == "./" + dir;
    CleanDropsDotPrefix(dir);
    CleanOfCleanRelative(dir);
    ExtendCleanRelative(dir, name);
    CleanOfCleanRelative(dir + "/" + name);
  }

  /** With an empty directory the executor's path is just the file name. */
  lemma JoinUnderEmptyDirectory(name: string)
    requires NormalSegment(name)
    ensures Join(Join(".", ""), name) == name
  {
    assert "." + "/" + "" == "./";
    CleanDropsDotPrefix("");
    assert "./" + "" == "./";
    assert Split("") == [[]];
    assert Join(".", "") == ".";
    SplitSingle(name);
    assert IsCleanRelative(name);
    CleanDropsDotPrefix(name);
    assert "." + "/" + name == "./" + name;
    CleanOfCleanRelative(name);
  }
}
