/** The string handling the core uses: `trim()`, `toLowerCase()` and the
    fog-group id normalisation `name.toLowerCase().replace(/\s+/g, '_')`. */
module Text {

  /** The characters JavaScript's `\s` and `trim()` treat as white space. */
  predicate IsSpace(c: char) {
    var n := c as int;
    (9 <= n <= 13) || n == 32 || n == 0xA0 || n == 0x1680 || (0x2000 <= n <= 0x200A) ||
    n == 0x2028 || n == 0x2029 || n == 0x202F || n == 0x205F || n == 0x3000 || n == 0xFEFF
  }

  predicate IsUpper(c: char) { 'A' <= c <= 'Z' }

  /** Every character is white space (the empty string included). */
  predicate Blank(s: string) { forall i :: 0 <= i < |s| ==> IsSpace(s[i]) }

  predicate NoSpace(s: string) { forall i :: 0 <= i < |s| ==> !IsSpace(s[i]) }

  predicate NoUpper(s: string) { forall i :: 0 <= i < |s| ==> !IsUpper(s[i]) }

  /** `trimStart()`: the suffix left after the leading white space. */
  function TrimStart(s: string): (r: string)
    ensures |r| <= |s| && r == s[|s| - |r|..]
    ensures forall i :: 0 <= i < |s| - |r| ==> IsSpace(s[i])
    ensures r == [] || !IsSpace(r[0])
  {
    if s == [] || !IsSpace(s[0]) then s else TrimStart(s[1..])
  }

  /** `trimEnd()`: the prefix left before the trailing white space. */
  function TrimEnd(s: string): (r: string)
    ensures |r| <= |s| && r == s[..|r|]
    ensures forall i :: |r| <= i < |s| ==> IsSpace(s[i])
    ensures r == [] || !IsSpace(r[|r| - 1])
  {
    if s == [] || !IsSpace(s[|s| - 1]) then s else TrimEnd(s[..|s| - 1])
  }

  /** `trim()`. */
  function Trim(s: string): string {
    TrimEnd(TrimStart(s))
  }

  /** `s.trim() === ''` exactly when s is all white space. */
  lemma TrimEmptyIffBlank(s: string)
    ensures Trim(s) == "" <==> Blank(s)
  {
    var t := TrimStart(s);
    if !Blank(s) {
      var k :| 0 <= k < |s| && !IsSpace(s[k]);
      assert t[k - (|s| - |t|)] == s[k];
    }
  }

  /** `toLowerCase()` on the ASCII letters: each capital becomes the same
      letter in lower case, every other character is kept. */
  function ToLower(s: string): (r: string)
    ensures |r| == |s| && NoUpper(r)
    ensures forall i :: 0 <= i < |s| && !IsUpper(s[i]) ==> r[i] == s[i]
    ensures forall i :: 0 <= i < |s| && IsUpper(s[i]) ==>
              'a' <= r[i] <= 'z' && r[i] as int - 'a' as int == s[i] as int - 'A' as int
    ensures forall i :: 0 <= i < |s| ==> (IsSpace(r[i]) <==> IsSpace(s[i]))
  {
    seq(|s|, i requires 0 <= i < |s| => if IsUpper(s[i]) then (s[i] as int + 32) as char else s[i])
  }

  /** `replace(/\s+/g, '_')`: every maximal run of white space becomes one '_'. */
  function ReplaceSpaceRuns(s: string): (r: string)
    ensures NoSpace(r) && |r| <= |s|
    ensures NoUpper(s) ==> NoUpper(r)
    ensures NoSpace(s) ==> r == s
    decreases |s|
  {
    if s == [] then []
    else if IsSpace(s[0]) then
      var rest := TrimStart(s[1..]);
      var tail := ReplaceSpaceRuns(rest);
      assert NoUpper(s) ==> NoUpper(rest) by { SuffixKeeps(s, rest); }
      Concat("_", tail);
      "_" + tail
    else
      var tail := ReplaceSpaceRuns(s[1..]);
      assert NoUpper(s) ==> NoUpper(s[1..]) by { SuffixKeeps(s, s[1..]); }
      Concat([s[0]], tail);
      [s[0]] + tail
  }

  /** A suffix of a string without capitals has none either. */
  lemma SuffixKeeps(s: string, t: string)
    requires |t| <= |s| && t == s[|s| - |t|..]
    ensures NoUpper(s) ==> NoUpper(t)
  {
    if NoUpper(s) {
      forall i | 0 <= i < |t| ensures !IsUpper(t[i]) {
        assert t[i] == s[|s| - |t| + i];
      }
    }
  }

  /** Joining two strings keeps what holds of each character of both. */
  lemma Concat(a: string, b: string)
    ensures NoSpace(a) && NoSpace(b) ==> NoSpace(a + b)
    ensures NoUpper(a) && NoUpper(b) ==> NoUpper(a + b)
  {
    var ab := a + b;
    forall i | 0 <= i < |ab| ensures ab[i] == if i < |a| then a[i] else b[i - |a|] { }
  }

  /** What `replace(/\s+/g, '_')` puts in place of position i: the
      character itself when it is not white space, one '_' for the first
      white space of a run, nothing for the rest of the run. */
  function Piece(s: string, i: int): string
    requires 0 <= i < |s|
  {
    if !IsSpace(s[i]) then [s[i]]
    else if i == 0 || !IsSpace(s[i - 1]) then "_"
    else []
  }

  /** The pieces of positions i, i+1, ... in order. */
  function Pieces(s: string, i: int): string
    requires 0 <= i <= |s|
    decreases |s| - i
  {
    if i == |s| then [] else Piece(s, i) + Pieces(s, i + 1)
  }

  /** A left-to-right scan of s that remembers whether the character before
      it was white space. */
  function Scan(s: string, afterSpace: bool): string
    decreases |s|
  {
    if s == [] then []
    else if !IsSpace(s[0]) then [s[0]] + Scan(s[1..], false)
    else if afterSpace then Scan(s[1..], true)
    else "_" + Scan(s[1..], true)
  }

  /** The scan from position i is the pieces from position i. */
  lemma {:induction false} ScanIsPieces(s: string, i: int)
    requires 0 <= i <= |s|
    ensures Scan(s[i..], i > 0 && IsSpace(s[i - 1])) == Pieces(s, i)
    decreases |s| - i
  {
    if i < |s| {
      ScanIsPieces(s, i + 1);
      assert s[i..][1..] == s[i + 1..];
    }
  }

  /** Inside a run the scan skips the rest of the run. */
  lemma {:induction false} ScanSkipsRun(s: string)
    ensures Scan(s, true) == Scan(TrimStart(s), false)
    decreases |s|
  {
    if s != [] && IsSpace(s[0]) {
      ScanSkipsRun(s[1..]);
    }
  }

  /** ReplaceSpaceRuns is the regular expression's replacement, position by
      position: every non-white character kept in order, each maximal run of
      white space replaced by exactly one '_'. */
  lemma {:induction false} ReplaceSpaceRunsIsPieces(s: string)
    ensures ReplaceSpaceRuns(s) == Pieces(s, 0)
  {
    ScanIsPieces(s, 0);
    assert s[0..] == s;
    ReplaceSpaceRunsIsScan(s);
  }

  /** The recursion is the scan started outside a run. */
  lemma {:induction false} ReplaceSpaceRunsIsScan(s: string)
    ensures ReplaceSpaceRuns(s) == Scan(s, false)
    decreases |s|
  {
    if s != [] {
      if IsSpace(s[0]) {
        ReplaceSpaceRunsIsScan(TrimStart(s[1..]));
        ScanSkipsRun(s[1..]);
      } else {
        ReplaceSpaceRunsIsScan(s[1..]);
      }
    }
  }

  /** The fog-group id derived from a display name: the name lower-cased,
      each run of white space replaced by one '_'. */
  function GroupId(name: string): (id: string)
    ensures id == Pieces(ToLower(name), 0)
    ensures NoSpace(id) && NoUpper(id)
  {
    ReplaceSpaceRunsIsPieces(ToLower(name));
    ReplaceSpaceRuns(ToLower(name))
  }

  /** An id is its own id, so ids typed back in as names find the same group. */
  lemma GroupIdIdempotent(name: string)
    ensures GroupId(GroupId(name)) == GroupId(name)
  {
  }
}
