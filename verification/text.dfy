/**
 * String helpers shared by the client's components: the JavaScript
 * `String.prototype.trim` whitespace set, ASCII case mapping, substring
 * search, prefixes and newline joining, with the facts the other modules
 * rely on.
 */
module Text {

  datatype Option<+T> = None | Some(value: T)

  /** JavaScript truthiness of an optional string: present and non-empty. */
  predicate Truthy(s: Option<string>) {
    s.Some? && s.value != ""
  }

  /** The characters `trim` removes: ECMAScript WhiteSpace and LineTerminator. */
  const Whitespace: set<char> := {
    '\t', '\n', '\U{000B}', '\U{000C}', '\r', ' ', '\U{00A0}', '\U{1680}',
    '\U{2000}', '\U{2001}', '\U{2002}', '\U{2003}', '\U{2004}', '\U{2005}',
    '\U{2006}', '\U{2007}', '\U{2008}', '\U{2009}', '\U{200A}',
    '\U{2028}', '\U{2029}', '\U{202F}', '\U{205F}', '\U{3000}', '\U{FEFF}'}

  predicate IsSpace(c: char) {
    c in Whitespace
  }

  predicate AllSpace(s: string) {
    forall k :: 0 <= k < |s| ==> IsSpace(s[k])
  }

  /** How many whitespace characters `s` starts with. */
  function LeadingSpaces(s: string): (n: nat)
    ensures n <= |s|
    ensures forall k :: 0 <= k < n ==> IsSpace(s[k])
    ensures n < |s| ==> !IsSpace(s[n])
  {
    if s == [] || !IsSpace(s[0]) then 0
    else
      var n := LeadingSpaces(s[1..]);
      assert forall k :: 1 <= k < n + 1 ==> s[k] == s[1..][k - 1];
      n + 1
  }

  /** How many whitespace characters `s` ends with. */
  function TrailingSpaces(s: string): (n: nat)
    ensures n <= |s|
    ensures forall k :: |s| - n <= k < |s| ==> IsSpace(s[k])
    ensures n < |s| ==> !IsSpace(s[|s| - n - 1])
  {
    if s == [] || !IsSpace(s[|s| - 1]) then 0
    else TrailingSpaces(s[..|s| - 1]) + 1
  }

  /** `s.trim()`: the slice of `s` left once its leading and trailing whitespace is cut off. */
  function Trim(s: string): (r: string)
    ensures exists i, j :: 0 <= i <= j <= |s| && r == s[i..j] && AllSpace(s[..i]) && AllSpace(s[j..])
    ensures r != [] ==> !IsSpace(r[0]) && !IsSpace(r[|r| - 1])
  {
    var i := LeadingSpaces(s);
    var j := |s| - TrailingSpaces(s);
    if j <= i then
      assert AllSpace(s[..i]) && AllSpace(s[i..]);
      s[i..i]
    else
      assert AllSpace(s[..i]) && AllSpace(s[j..]);
      s[i..j]
  }

  /** Trimming twice is trimming once. */
  lemma TrimIdempotent(s: string)
    ensures Trim(Trim(s)) == Trim(s)
  {
    var r := Trim(s);
    if r != [] {
      assert LeadingSpaces(r) == 0 && TrailingSpaces(r) == 0;
    }
  }

  /** A string trims to empty exactly when it is all whitespace. */
  lemma TrimEmptyIff(s: string)
    ensures Trim(s) == "" <==> AllSpace(s)
  {
    var i, t := LeadingSpaces(s), TrailingSpaces(s);
    if AllSpace(s) {
      assert i == |s|;
      assert Trim(s) == s[i..i];
    } else {
      var k :| 0 <= k < |s| && !IsSpace(s[k]);
      assert i <= k && k < |s| - t;
      assert Trim(s) == s[i..|s| - t];
      assert |Trim(s)| > 0;
    }
  }

  function LowerChar(c: char): (r: char)
    ensures 'A' <= c <= 'Z' ==> 'a' <= r <= 'z'
    ensures !('A' <= c <= 'Z') ==> r == c
  {
    if 'A' <= c <= 'Z' then (c as int + 32) as char else c
  }

  function UpperChar(c: char): (r: char)
    ensures 'a' <= c <= 'z' ==> 'A' <= r <= 'Z'
    ensures !('a' <= c <= 'z') ==> r == c
  {
    if 'a' <= c <= 'z' then (c as int - 32) as char else c
  }

  /** `toLowerCase`, restricted to the ASCII letters. */
  function Lower(s: string): (r: string)
    ensures |r| == |s|
    ensures forall k :: 0 <= k < |s| ==> r[k] == LowerChar(s[k])
  {
    if s == [] then [] else [LowerChar(s[0])] + Lower(s[1..])
  }

  /** `toUpperCase`, restricted to the ASCII letters. */
  function Upper(s: string): (r: string)
    ensures |r| == |s|
    ensures forall k :: 0 <= k < |s| ==> r[k] == UpperChar(s[k])
  {
    if s == [] then [] else [UpperChar(s[0])] + Upper(s[1..])
  }

  lemma LowerIdempotent(s: string)
    ensures Lower(Lower(s)) == Lower(s)
  {
  }

  /** A string without capital letters is its own lower-case form. */
  lemma LowerKeepsNonCapitals(s: string)
    requires forall k :: 0 <= k < |s| ==> !('A' <= s[k] <= 'Z')
    ensures Lower(s) == s
  {
    assert forall k :: 0 <= k < |s| ==> Lower(s)[k] == s[k];
  }

  /** Upper-casing first does not change the lower-case form. */
  lemma LowerOfUpper(s: string)
    ensures Lower(Upper(s)) == Lower(s)
  {
    assert forall k :: 0 <= k < |s| ==> LowerChar(UpperChar(s[k])) == LowerChar(s[k]);
    assert forall k :: 0 <= k < |s| ==> Lower(Upper(s))[k] == Lower(s)[k];
  }

  lemma {:induction false} LowerOfSlice(s: string, i: int, j: int)
    requires 0 <= i <= j <= |s|
    ensures Lower(s[i..j]) == Lower(s)[i..j]
  {
  }

  /** `s.includes(w)`, written as the search the runtime does. */
  function Contains(s: string, w: string): (r: bool)
    decreases |s|
  {
    if |w| > |s| then false
    else if s[..|w|] == w then true
    else Contains(s[1..], w)
  }

  /** `w` occurs at position `i` of `s`. */
  predicate OccursAt(s: string, w: string, i: int) {
    0 <= i && i + |w| <= |s| && s[i..i + |w|] == w
  }

  /** The search finds `w` exactly when `w` occurs at some position. */
  lemma {:induction false} ContainsIff(s: string, w: string)
    ensures Contains(s, w) <==> exists i :: OccursAt(s, w, i)
    decreases |s|
  {
    if |w| > |s| {
    } else if s[..|w|] == w {
      assert OccursAt(s, w, 0);
    } else {
      ContainsIff(s[1..], w);
      if Contains(s[1..], w) {
        var i :| OccursAt(s[1..], w, i);
        assert s[1..][i..i + |w|] == s[i + 1..i + 1 + |w|];
        assert OccursAt(s, w, i + 1);
      } else {
        forall i | OccursAt(s, w, i) ensures false {
          assert i != 0;
          assert s[1..][i - 1..i - 1 + |w|] == s[i..i + |w|];
          assert OccursAt(s[1..], w, i - 1);
        }
      }
    }
  }

  /** Every string contains itself. */
  lemma ContainsSelf(w: string)
    ensures Contains(w, w)
  {
    ContainsIff(w, w);
    assert OccursAt(w, w, 0);
  }

  /** Nothing non-empty occurs in the empty string. */
  lemma ContainsEmptyHaystack(w: string)
    requires w != ""
    ensures !Contains("", w)
  {
  }

  /** Containment is transitive: a string that contains `s` contains whatever `s` contains. */
  lemma ContainsTransitive(t: string, s: string, w: string)
    requires Contains(t, s) && Contains(s, w)
    ensures Contains(t, w)
  {
    ContainsIff(t, s);
    ContainsIff(s, w);
    var i :| OccursAt(t, s, i);
    var j :| OccursAt(s, w, j);
    forall k | 0 <= k < |w| ensures t[i + j + k] == w[k] {
      assert s[j..j + |w|][k] == w[k];
      assert t[i..i + |s|][j + k] == t[i + j + k];
    }
    assert t[i + j..i + j + |w|] == w;
    assert OccursAt(t, w, i + j);
    ContainsIff(t, w);
  }

  /** Lower-casing keeps containment: if `t` contains `s` then `lower(t)` contains `lower(s)`. */
  lemma ContainsLower(t: string, s: string)
    requires Contains(t, s)
    ensures Contains(Lower(t), Lower(s))
  {
    ContainsIff(t, s);
    var i :| OccursAt(t, s, i);
    OccursLower(t, s, i);
    ContainsIff(Lower(t), Lower(s));
  }

  /** An occurrence survives lower-casing, at the same position. */
  lemma OccursLower(t: string, s: string, i: int)
    requires OccursAt(t, s, i)
    ensures OccursAt(Lower(t), Lower(s), i)
  {
    LowerOfSlice(t, i, i + |s|);
    assert Lower(t)[i..i + |s|] == Lower(s);
  }

  /** `s.startsWith(p)`. */
  predicate StartsWith(s: string, p: string) {
    |p| <= |s| && s[..|p|] == p
  }

  /** `lines.join('\n')`. */
  function JoinLines(lines: seq<string>): (r: string)
    ensures lines == [] ==> r == ""
  {
    if lines == [] then ""
    else if |lines| == 1 then lines[0]
    else lines[0] + "\n" + JoinLines(lines[1..])
  }

  /** The text up to the first newline, and what follows it. */
  function SplitLines(s: string): (r: seq<string>)
    ensures |r| >= 1
    decreases |s|
  {
    if s == [] then [""]
    else if s[0] == '\n' then [""] + SplitLines(s[1..])
    else var rest := SplitLines(s[1..]); [[s[0]] + rest[0]] + rest[1..]
  }

  predicate NoNewline(s: string) {
    forall k :: 0 <= k < |s| ==> s[k] != '\n'
  }

  lemma {:induction false} SplitNoNewline(s: string, tail: string)
    requires NoNewline(s)
    ensures SplitLines(s + "\n" + tail) == [s] + SplitLines(tail)
    ensures SplitLines(s) == [s]
    decreases |s|
  {
    if s == [] {
      assert s + "\n" + tail == "\n" + tail;
      assert ("\n" + tail)[1..] == tail;
    } else {
      assert (s + "\n" + tail)[1..] == s[1..] + "\n" + tail;
      SplitNoNewline(s[1..], tail);
      assert [s[0]] + s[1..] == s;
    }
  }

  /** Joining lines without newlines and splitting again gives the lines back. */
  lemma {:induction false} SplitJoin(lines: seq<string>)
    requires lines != []
    requires forall k :: 0 <= k < |lines| ==> NoNewline(lines[k])
    ensures SplitLines(JoinLines(lines)) == lines
  {
    if |lines| == 1 {
      SplitNoNewline(lines[0], "");
    } else {
      SplitJoin(lines[1..]);
      SplitNoNewline(lines[0], JoinLines(lines[1..]));
    }
  }
}
