/**
 * The registration username filter: a fixed list of restricted words, any
 * of which occurring anywhere in the lower-cased name flags it.
 */
module BadWords {
  import opened Text

  const BadWordList: seq<string> := ["badword", "banned", "curse", "offensive"]

  /** Some non-empty word of `words` occurs in `lower` (`words.some(w => w && lower.includes(w))`). */
  function SomeOccurs(lower: string, words: seq<string>): (r: bool)
    ensures r <==> exists k :: 0 <= k < |words| && words[k] != "" && Contains(lower, words[k])
  {
    if words == [] then false
    else (words[0] != "" && Contains(lower, words[0])) || SomeOccurs(lower, words[1..])
  }

  /** A username is flagged iff some listed word is a substring of its lower-cased form. */
  function ContainsBadWord(username: string): (r: bool)
    ensures r <==> exists k :: 0 <= k < |BadWordList| && Contains(Lower(username), BadWordList[k])
  {
    SomeOccurs(Lower(username), BadWordList)
  }

  /** The filter does not see case: flagging `s` and flagging `lower(s)` agree. */
  lemma {:induction false} CaseInsensitive(s: string)
    ensures ContainsBadWord(s) == ContainsBadWord(Lower(s))
  {
    LowerIdempotent(s);
  }

  /** The empty name is never flagged. */
  lemma EmptyNeverFlagged()
    ensures !ContainsBadWord("")
  {
    forall k | 0 <= k < |BadWordList| ensures !Contains("", BadWordList[k]) {
      ContainsEmptyHaystack(BadWordList[k]);
    }
  }

  /** Every listed word is itself flagged. */
  lemma EachWordFlagged(k: nat)
    requires k < |BadWordList|
    ensures ContainsBadWord(BadWordList[k])
  {
    var w := BadWordList[k];
    ListedWordsAreLowerCase(k);
    ContainsSelf(w);
  }

  /** The listed words are already lower-case. */
  lemma ListedWordsAreLowerCase(k: nat)
    requires k < |BadWordList|
    ensures Lower(BadWordList[k]) == BadWordList[k]
  {
    var w := BadWordList[k];
    assert forall j :: 0 <= j < |w| ==> !('A' <= w[j] <= 'Z');
    LowerKeepsNonCapitals(w);
  }

  /** Any string that contains a flagged string is flagged. */
  lemma Monotone(s: string, t: string)
    requires Contains(t, s) && ContainsBadWord(s)
    ensures ContainsBadWord(t)
  {
    var k :| 0 <= k < |BadWordList| && Contains(Lower(s), BadWordList[k]);
    ContainsLower(t, s);
    ContainsTransitive(Lower(t), Lower(s), BadWordList[k]);
  }
}
