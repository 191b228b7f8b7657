/** The string-to-boolean helper used to read the sandbox flag from the environment. */
module Utils {

  /** ASCII lower-casing of one character. */
  function LowerChar(c: char): (d: char)
    ensures !('A' <= d <= 'Z')
    ensures !('A' <= c <= 'Z') ==> d == c
    ensures 'A' <= c <= 'Z' ==> 'a' <= d <= 'z' && d as int - 'a' as int == c as int - 'A' as int
  {
    if 'A' <= c <= 'Z' then (c as int - 'A' as int + 'a' as int) as char else c
  }

  /** ASCII lower-casing of a string, character by character. */
  function Lower(s: string): (r: string)
    ensures |r| == |s|
    ensures forall i :: 0 <= i < |s| ==> r[i] == LowerChar(s[i])
  {
    if s == [] then [] else [LowerChar(s[0])] + Lower(s[1..])
  }

  /** The strings that read as true, once lower-cased. */
  const TruthySpellings: seq<string> := ["1", "true", "yes", "on"]

  /** True iff the lower-cased string is one of the truthy spellings; `default` is accepted and never consulted. */
  function StrToBool(stringValue: string, default: bool := true): (r: bool)
  {
    Lower(stringValue) in TruthySpellings
  }

  /**
   * Case-insensitive equality with a word, stated on code points and independent of `LowerChar`:
   * each character is the word's own, or the capital 32 code points below one of its lower-case letters.
   */
  predicate EqualsIgnoringCase(s: string, word: string)
  {
    |s| == |word| &&
    forall i :: 0 <= i < |s| ==> s[i] == word[i] || ('a' <= word[i] <= 'z' && s[i] as int == word[i] as int - 32)
  }

  /** The word has no capital letter. */
  predicate NoCapitals(word: string)
  {
    forall i :: 0 <= i < |word| ==> !('A' <= word[i] <= 'Z')
  }

  /** Lower-casing gives a word without capitals exactly when the string equals it ignoring case. */
  lemma LowerEqualsIff(s: string, word: string)
    requires NoCapitals(word)
    ensures Lower(s) == word <==> EqualsIgnoringCase(s, word)
  {
    if |s| == |word| {
      forall i | 0 <= i < |s|
        ensures LowerChar(s[i]) == word[i] <==>
                (s[i] == word[i] || ('a' <= word[i] <= 'z' && s[i] as int == word[i] as int - 32))
      {
        assert !('A' <= word[i] <= 'Z');
      }
      if EqualsIgnoringCase(s, word) {
        assert forall i :: 0 <= i < |s| ==> Lower(s)[i] == word[i];
      }
    }
  }

  /** Lower-casing twice is lower-casing once. */
  lemma {:induction false} LowerIdempotent(s: string)
    ensures Lower(Lower(s)) == Lower(s)
  {
    if s != [] {
      LowerIdempotent(s[1..]);
      assert Lower(s)[1..] == Lower(s[1..]);
    }
  }

  /** The result is true iff the string equals one of the four spellings up to ASCII case. */
  lemma StrToBoolMeaning(s: string, default: bool)
    ensures StrToBool(s, default) <==>
      (EqualsIgnoringCase(s, "1") || EqualsIgnoringCase(s, "true")
       || EqualsIgnoringCase(s, "yes") || EqualsIgnoringCase(s, "on"))
  {
    LowerEqualsIff(s, "1");
    LowerEqualsIff(s, "true");
    LowerEqualsIff(s, "yes");
    LowerEqualsIff(s, "on");
  }

  /** Matching ignores case: a string and its lower-cased form always agree. */
  lemma StrToBoolCaseInsensitive(s: string)
    ensures StrToBool(s) == StrToBool(Lower(s))
  {
    LowerIdempotent(s);
  }

  /** The default never changes the result. */
  lemma StrToBoolIgnoresDefault(s: string, d1: bool, d2: bool)
    ensures StrToBool(s, d1) == StrToBool(s, d2)
  {
  }

  /** Upper- and mixed-case spellings are accepted; the settings default "1" reads as true. */
  lemma StrToBoolAcceptsCaseVariants()
    ensures StrToBool("TRUE") && StrToBool("Yes") && StrToBool("ON") && StrToBool("1")
  {
    assert Lower("TRUE") == "true";
    assert Lower("Yes") == "yes";
    assert Lower("ON") == "on";
    assert Lower("1") == "1";
  }

  /** No trimming and no fallback: padded, empty and "0" strings read as false, whatever the default. */
  lemma StrToBoolRejects(default: bool)
    ensures !StrToBool(" true", default) && !StrToBool("", default) && !StrToBool("0", default)
    ensures !StrToBool("false", true)
  {
    assert Lower(" true")[0] == ' ';
    assert Lower("0") == "0";
    assert Lower("false")[0] == 'f' && |Lower("false")| == 5;
  }
}
