/**
 * The string primitives the core relies on: `toLowerCase`, `includes` and
 * `trim` of ECMAScript strings, over `seq<char>`.
 */
module Text {
  import opened Wrappers

  /** An optional string in a JavaScript condition: present and not "". */
  predicate Truthy(s: Option<string>) {
    s.Some? && s.value != ""
  }

  /** The wildcard pattern `*${s}*` used for GROQ `match`. */
  function Wildcard(s: string): (p: string)
    ensures |p| == |s| + 2 && p[0] == '*' && p[|p| - 1] == '*' && p[1..|p| - 1] == s
  {
    "*" + s + "*"
  }

  /** Lower-cases an ASCII capital letter; every other character is kept. */
  function LowerChar(c: char): (r: char)
    ensures 'A' <= c <= 'Z' ==> 'a' <= r <= 'z' && r as int == c as int + 32
    ensures !('A' <= c <= 'Z') ==> r == c
  {
    if 'A' <= c <= 'Z' then (c as int + 32) as char else c
  }

  /** `s.toLowerCase()`, character by character. */
  function ToLower(s: string): (r: string)
    ensures |r| == |s|
    ensures forall i :: 0 <= i < |s| ==> r[i] == LowerChar(s[i])
  {
    if s == [] then [] else [LowerChar(s[0])] + ToLower(s[1..])
  }

  /** Lower-casing twice is lower-casing once. */
  lemma ToLowerIdempotent(s: string)
    ensures ToLower(ToLower(s)) == ToLower(s)
  {
    var once := ToLower(s);
    assert forall i :: 0 <= i < |s| ==> ToLower(once)[i] == once[i];
  }

  /** `sub` occurs in `s` at position `i`. */
  ghost predicate OccursAt(s: string, sub: string, i: int) {
    0 <= i <= |s| - |sub| && s[i..i + |sub|] == sub
  }

  /** `s.includes(sub)`, scanning from the left. */
  function Includes(s: string, sub: string): (r: bool)
    ensures r <==> exists i :: OccursAt(s, sub, i)
    decreases |s|
  {
    if |sub| <= |s| && s[..|sub|] == sub then
      assert OccursAt(s, sub, 0);
      true
    else if s == [] then
      false
    else
      var rest := Includes(s[1..], sub);
      assert forall i :: OccursAt(s[1..], sub, i) <==> OccursAt(s, sub, i + 1) by {
        forall i ensures OccursAt(s[1..], sub, i) <==> OccursAt(s, sub, i + 1) {
          if 0 <= i <= |s| - 1 - |sub| {
            assert s[1..][i..i + |sub|] == s[i + 1..i + 1 + |sub|];
          }
        }
      }
      assert forall i :: OccursAt(s, sub, i) ==> i == 0 || OccursAt(s[1..], sub, i - 1);
      rest
  }

  /** The characters `String.prototype.trim` removes: WhiteSpace and LineTerminator. */
  predicate IsSpace(c: char) {
    var n := c as int;
    n == 0x09 || n == 0x0A || n == 0x0B || n == 0x0C || n == 0x0D || n == 0x20
    || n == 0xA0 || n == 0x1680 || (0x2000 <= n <= 0x200A) || n == 0x2028
    || n == 0x2029 || n == 0x202F || n == 0x205F || n == 0x3000 || n == 0xFEFF
  }

  /** Every character of `s` is white space (vacuously so for ""). */
  predicate IsBlank(s: string) {
    forall i :: 0 <= i < |s| ==> IsSpace(s[i])
  }

  /** A blank prefix of `s[1..]` after a white-space character is a blank prefix of `s`. */
  lemma BlankPrefix(s: string, n: int)
    requires 0 < n <= |s| && IsSpace(s[0]) && IsBlank(s[1..][..n - 1])
    ensures IsBlank(s[..n])
  {
    var removed := s[..n];
    forall k | 0 <= k < |removed| ensures IsSpace(removed[k]) {
      if k > 0 { assert removed[k] == s[1..][..n - 1][k - 1]; }
    }
  }

  /** A blank suffix of `s[..|s| - 1]` before a white-space character is a blank suffix of `s`. */
  lemma BlankSuffix(s: string, n: int)
    requires 0 <= n < |s| && IsSpace(s[|s| - 1]) && IsBlank(s[..|s| - 1][n..])
    ensures IsBlank(s[n..])
  {
    var removed := s[n..];
    forall k | 0 <= k < |removed| ensures IsSpace(removed[k]) {
      if k < |removed| - 1 { assert removed[k] == s[..|s| - 1][n..][k]; }
    }
  }

  /** How many white-space characters `s` starts with. */
  function LeadingSpaces(s: string): (n: nat)
    ensures n <= |s| && IsBlank(s[..n])
    ensures n == |s| || !IsSpace(s[n])
  {
    if s != [] && IsSpace(s[0]) then
      var n := 1 + LeadingSpaces(s[1..]);
      BlankPrefix(s, n);
      assert n < |s| ==> s[n] == s[1..][n - 1];
      n
    else
      0
  }

  /** `s` with its leading white space removed. */
  function TrimStart(s: string): (r: string)
    ensures |r| <= |s| && r == s[|s| - |r|..]
    ensures IsBlank(s[..|s| - |r|])
    ensures r == [] || !IsSpace(r[0])
  {
    s[LeadingSpaces(s)..]
  }

  /** `s` with its trailing white space removed. */
  function TrimEnd(s: string): (r: string)
    ensures |r| <= |s| && r == s[..|r|]
    ensures IsBlank(s[|r|..])
    ensures r == [] || !IsSpace(r[|r| - 1])
  {
    if s != [] && IsSpace(s[|s| - 1]) then
      var r := TrimEnd(s[..|s| - 1]);
      assert s[..|s| - 1][..|r|] == s[..|r|];
      BlankSuffix(s, |r|);
      r
    else
      s
  }

  /** A string is blank exactly when both parts of any split of it are. */
  lemma BlankSplit(s: string, i: int)
    requires 0 <= i <= |s|
    ensures IsBlank(s) <==> IsBlank(s[..i]) && IsBlank(s[i..])
  {
    if IsBlank(s[..i]) && IsBlank(s[i..]) {
      forall k | 0 <= k < |s| ensures IsSpace(s[k]) {
        if k < i { assert s[k] == s[..i][k]; } else { assert s[k] == s[i..][k - i]; }
      }
    }
  }

  /** Removing the white space at both ends leaves nothing exactly when there was nothing else. */
  lemma TrimmedEmpty(s: string)
    ensures TrimEnd(TrimStart(s)) == [] <==> IsBlank(s)
  {
    var t := TrimStart(s);
    var r := TrimEnd(t);
    var i := |s| - |t|;
    BlankSplit(s, i);
    assert t == s[i..];
    if r == [] {
      assert t[|r|..] == t;
    } else {
      assert r[0] == t[0] == s[i];
    }
  }

  /** The trimmed part starts and ends with a character that is not white space. */
  lemma TrimmedEnds(s: string)
    ensures var r := TrimEnd(TrimStart(s)); r == [] || (!IsSpace(r[0]) && !IsSpace(r[|r| - 1]))
  {
    var t := TrimStart(s);
    var r := TrimEnd(t);
    if r != [] {
      assert r[0] == t[0];
    }
  }

  /** A prefix of `t == s[i..]` followed there by white space only is a slice of `s` followed by white space only. */
  lemma SliceOfSuffix(s: string, i: int, t: string, r: string)
    requires 0 <= i <= |s| && t == s[i..]
    requires |r| <= |t| && r == t[..|r|] && IsBlank(t[|r|..])
    ensures i + |r| <= |s| && s[i..i + |r|] == r && IsBlank(s[i + |r|..])
  {
    assert t[..|r|] == s[i..i + |r|];
    assert t[|r|..] == s[i + |r|..];
  }

  /**
   * `s.trim()`: the part of `s` between its leading and trailing white space.
   * Only white space is removed, from both ends, and the result neither starts
   * nor ends with white space, so it is the one slice of `s` with these properties.
   */
  function Trim(s: string): (r: string)
    ensures |r| <= |s|
    ensures r == [] <==> IsBlank(s)
    ensures r == [] || (!IsSpace(r[0]) && !IsSpace(r[|r| - 1]))
    ensures LeadingSpaces(s) + |r| <= |s| && s[LeadingSpaces(s)..LeadingSpaces(s) + |r|] == r
    ensures IsBlank(s[..LeadingSpaces(s)]) && IsBlank(s[LeadingSpaces(s) + |r|..])
  {
    TrimmedEmpty(s);
    TrimmedEnds(s);
    SliceOfSuffix(s, LeadingSpaces(s), TrimStart(s), TrimEnd(TrimStart(s)));
    TrimEnd(TrimStart(s))
  }

  /** Trimming twice is trimming once. */
  lemma {:induction false} TrimIdempotent(s: string)
    ensures Trim(Trim(s)) == Trim(s)
  {
    var r := Trim(s);
    assert TrimStart(r) == r;
    assert TrimEnd(r) == r;
  }
}
