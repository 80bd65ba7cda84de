/** The part of Go's `strings` package that the model needs: `strings.Trim`
    with a cutset of one character, as `MoleculeType.UnmarshalText` calls it. */
module GoStrings {

  /** `n` copies of `c`. */
  function Repeat(c: char, n: nat): (s: string)
    ensures |s| == n
    ensures forall i :: 0 <= i < n ==> s[i] == c
  {
    seq(n, _ => c)
  }

  /** Drops every leading `c`: the result is a suffix of `s`, what was cut off
      consists of `c` only, and the result does not start with `c`. */
  function TrimLeft(s: string, c: char): (r: string)
    ensures |r| <= |s| && r == s[|s| - |r|..]
    ensures forall i :: 0 <= i < |s| - |r| ==> s[i] == c
    ensures r == [] || r[0] != c
    decreases |s|
  {
    if |s| > 0 && s[0] == c then TrimLeft(s[1..], c) else s
  }

  /** Drops every trailing `c`: the result is a prefix of `s`, what was cut off
      consists of `c` only, and the result does not end with `c`. */
  function TrimRight(s: string, c: char): (r: string)
    ensures |r| <= |s| && r == s[..|r|]
    ensures forall i :: |r| <= i < |s| ==> s[i] == c
    ensures r == [] || r[|r| - 1] != c
    decreases |s|
  {
    if |s| > 0 && s[|s| - 1] == c then TrimRight(s[..|s| - 1], c) else s
  }

  /** `strings.Trim(s, cutset)` for a one-character ASCII cutset: Go trims
      the right end first and then the left end. The contract alone is also
      met by `""`; what fixes the result for every input is
      `TrimPadded`: any string is a run of `c`, a middle part that neither
      starts nor ends with `c`, and another run of `c`, and Trim returns
      that middle part. */
  function Trim(s: string, c: char): (r: string)
    ensures |r| <= |s|
    ensures r == [] || (r[0] != c && r[|r| - 1] != c)
  {
    TrimLeft(TrimRight(s, c), c)
  }

  /** Trimming a string padded with `c` on both sides gives back the string,
      provided the string itself neither starts nor ends with `c`. */
  lemma TrimPadded(c: char, k: nat, v: string, j: nat)
    requires v == [] || (v[0] != c && v[|v| - 1] != c)
    ensures Trim(Repeat(c, k) + v + Repeat(c, j), c) == v
  {
    var left := Repeat(c, k) + v;
    var s := left + Repeat(c, j);
    var r := TrimRight(s, c);
    if v == [] {
      assert forall i :: 0 <= i < |s| ==> s[i] == c;
      assert r == [];
    } else {
      // the last character of v is kept, every pad character after it is not
      assert s[|left| - 1] == v[|v| - 1];
      assert forall i :: |left| <= i < |s| ==> s[i] == c;
      assert r == left;
      var l := TrimLeft(left, c);
      // the first character of v is kept, every pad character before it is not
      assert left[|left| - |v|] == v[0];
      assert forall i :: 0 <= i < |left| - |v| ==> left[i] == c;
      assert l == v;
    }
  }
}
