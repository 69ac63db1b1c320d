/** The few Python string operations the modelled code applies: `str.strip()`,
    `re.split(r'\s', s)`, slicing with a possibly negative bound, and
    joining words behind single spaces. */
module Text {

  /** The characters of `string.whitespace`; Python's `\s` and `strip()` match more
      (the separators \x1c-\x1f and Unicode spaces such as \x85 and \xa0). */
  predicate IsSpace(c: char) {
    c == ' ' || c == '\t' || c == '\n' || c == '\r' || c as int == 11 || c as int == 12
  }

  /** `s.lstrip()`: the suffix left once the leading whitespace is dropped. */
  function TrimStart(s: string): (r: string)
    ensures |r| <= |s| && r == s[|s| - |r|..]
    ensures forall i :: 0 <= i < |s| - |r| ==> IsSpace(s[i])
    ensures r == [] || !IsSpace(r[0])
    decreases |s|
  {
    if s != [] && IsSpace(s[0]) then TrimStart(s[1..]) else s
  }

  /** `s.rstrip()`: the prefix left once the trailing whitespace is dropped. */
  function TrimEnd(s: string): (r: string)
    ensures |r| <= |s| && r == s[..|r|]
    ensures forall i :: |r| <= i < |s| ==> IsSpace(s[i])
    ensures r == [] || !IsSpace(r[|r| - 1])
    decreases |s|
  {
    if s != [] && IsSpace(s[|s| - 1]) then TrimEnd(s[..|s| - 1]) else s
  }

  /** `s.strip()`: whitespace gone from both ends, nothing else touched. */
  function Strip(s: string): (r: string)
    ensures r == [] || (!IsSpace(r[0]) && !IsSpace(r[|r| - 1]))
    ensures r == TrimEnd(TrimStart(s))
  {
    TrimEnd(TrimStart(s))
  }

  /** `re.split(r'\s', s)`: the pieces between single whitespace characters,
      empty pieces included; never an empty list. */
  function SplitWs(s: string): (words: seq<string>)
    ensures |words| >= 1
    decreases |s|
  {
    if s == [] then [""]
    else
      var rest := SplitWs(s[1..]);
      if IsSpace(s[0]) then [""] + rest else [[s[0]] + rest[0]] + rest[1..]
  }

  /** No piece of a split holds whitespace. */
  lemma {:induction false} SplitWsPieces(s: string)
    ensures forall w :: w in SplitWs(s) ==> forall i :: 0 <= i < |w| ==> !IsSpace(w[i])
    decreases |s|
  {
    if s != [] {
      SplitWsPieces(s[1..]);
      var rest := SplitWs(s[1..]);
      if !IsSpace(s[0]) {
        assert rest[0] in rest;
        forall w | w in SplitWs(s) ensures forall i :: 0 <= i < |w| ==> !IsSpace(w[i]) {
          if w !in rest[1..] {
            assert w == [s[0]] + rest[0];
          }
        }
      }
    }
  }

  /** `w[:k]` for an integer `k` that may be negative (counted from the end). */
  function SliceTo(w: string, k: int): string {
    if k >= 0 then (if k <= |w| then w[..k] else w)
    else if |w| + k >= 0 then w[..|w| + k]
    else ""
  }

  /** What `w[:k]` keeps, for each range of `k`. */
  lemma SliceToCases(w: string, k: int)
    ensures 0 <= k <= |w| ==> SliceTo(w, k) == w[..k]
    ensures k > |w| ==> SliceTo(w, k) == w
    ensures -|w| <= k < 0 ==> SliceTo(w, k) == w[..|w| + k]
    ensures k < -|w| ==> SliceTo(w, k) == ""
  {
  }

  /** `s[:n]` for a non-negative `n`: at most `n` characters, a prefix of `s`. */
  function Take(s: string, n: nat): (r: string)
    ensures |r| == if |s| <= n then |s| else n
    ensures r == s[..|r|]
    ensures |s| <= n ==> r == s
  {
    if |s| <= n then s else s[..n]
  }

  /** `"".join(" " + w for w in words)`: each word behind one space. */
  function SpaceEach(words: seq<string>): (r: string)
    ensures words == [] <==> r == ""
    decreases |words|
  {
    if words == [] then "" else SpaceEach(words[..|words| - 1]) + " " + words[|words| - 1]
  }

  /** `s[1:]`. */
  function DropFirst(s: string): (r: string)
    ensures s != "" ==> r == s[1..]
    ensures s == "" ==> r == ""
  {
    if s == "" then "" else s[1..]
  }

  /** `" ".join(words)`: the words with one space between neighbours. */
  function Join(words: seq<string>): (r: string)
    ensures |words| == 1 ==> r == words[0]
    decreases |words|
  {
    if words == [] then ""
    else if |words| == 1 then words[0]
    else Join(words[..|words| - 1]) + " " + words[|words| - 1]
  }

  /** Putting a space before each word and dropping the first character is
      joining the words by single spaces. */
  lemma {:induction false} SpaceEachThenDropFirst(words: seq<string>)
    ensures DropFirst(SpaceEach(words)) == Join(words)
    decreases |words|
  {
    if |words| == 1 {
      assert SpaceEach(words) == SpaceEach([]) + " " + words[0];
    } else if |words| > 1 {
      var front := words[..|words| - 1];
      SpaceEachThenDropFirst(front);
      assert SpaceEach(front) != "";
      assert SpaceEach(words) == SpaceEach(front) + " " + words[|words| - 1];
      assert DropFirst(SpaceEach(words)) == DropFirst(SpaceEach(front)) + " " + words[|words| - 1];
    }
  }

  /** A string without whitespace splits into itself alone. */
  lemma {:induction false} SplitWsNoSpace(s: string)
    requires forall i :: 0 <= i < |s| ==> !IsSpace(s[i])
    ensures SplitWs(s) == [s]
    decreases |s|
  {
    if s != [] {
      SplitWsNoSpace(s[1..]);
      assert [s[0]] + s[1..] == s;
    }
  }
}
