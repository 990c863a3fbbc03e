/**
 Label classification of the rice inspector (detect.py:92-97, 100).

 The detector reports a label string per box. The frame loop never compares
 labels for equality: it asks whether a keyword occurs as a substring, with
 a fixed precedence "sound", then "broken", then "foreign". A label that
 carries none of the keywords is counted nowhere.
 */
module Labels {

  /** The counter a surviving detection bumps. */
  datatype GrainClass = Whole | Broken | Foreign | Unclassified

  const SoundKey: string := "sound"
  const BrokenKey: string := "broken"
  const ForeignKey: string := "foreign"

  predicate StartsWith(s: string, prefix: string) {
    |prefix| <= |s| && s[..|prefix|] == prefix
  }

  /** Python's `key in s` on strings, computed by trying each start position. */
  predicate Contains(s: string, key: string)
    decreases |s|
  {
    StartsWith(s, key) || (|s| > 0 && Contains(s[1..], key))
  }

  /** The window of `s` starting at `i` spells `key`. */
  ghost predicate KeyAt(s: string, key: string, i: int) {
    0 <= i && i + |key| <= |s| && s[i..i + |key|] == key
  }

  /** What substring containment means: some window of `s` spells `key`. */
  ghost predicate Occurs(s: string, key: string) {
    exists i :: KeyAt(s, key, i)
  }

  /** The scan finds the key exactly when some window spells it. */
  lemma {:induction false} ContainsIffOccurs(s: string, key: string)
    ensures Contains(s, key) <==> Occurs(s, key)
    decreases |s|
  {
    if StartsWith(s, key) {
      assert KeyAt(s, key, 0);
    } else if |s| > 0 {
      ContainsIffOccurs(s[1..], key);
      OccursInTail(s, key);
      OccursPastHead(s, key);
    } else {
      assert |key| > 0;
    }
  }

  /** A window of the tail is a window of the whole string, one place later. */
  lemma OccursInTail(s: string, key: string)
    requires |s| > 0
    ensures Occurs(s[1..], key) ==> Occurs(s, key)
  {
    if Occurs(s[1..], key) {
      var i :| KeyAt(s[1..], key, i);
      assert s[i + 1..i + 1 + |key|] == s[1..][i..i + |key|];
      assert KeyAt(s, key, i + 1);
    }
  }

  /** A window that does not start at the head is a window of the tail. */
  lemma OccursPastHead(s: string, key: string)
    requires |s| > 0 && !StartsWith(s, key)
    ensures Occurs(s, key) ==> Occurs(s[1..], key)
  {
    if Occurs(s, key) {
      var i :| KeyAt(s, key, i);
      assert i != 0 by { assert s[0..|key|] == s[..|key|]; }
      assert s[1..][i - 1..i - 1 + |key|] == s[i..i + |key|];
      assert KeyAt(s[1..], key, i - 1);
    }
  }

  /** A key with a character the label lacks cannot occur in it. */
  lemma MissingCharRulesOut(s: string, key: string, ch: char)
    requires ch in key && ch !in s
    ensures !Occurs(s, key)
  {
    ContainsIffOccurs(s, key);
  }

  /**
   The if/elif chain of detect.py:92-97: "sound" wins over "broken", which
   wins over "foreign"; without any keyword the label is unclassified.
   */
  function Classify(labelName: string): (c: GrainClass)
    ensures c == Whole <==> Occurs(labelName, SoundKey)
    ensures c == Broken <==> !Occurs(labelName, SoundKey) && Occurs(labelName, BrokenKey)
    ensures c == Foreign <==>
              !Occurs(labelName, SoundKey) && !Occurs(labelName, BrokenKey) && Occurs(labelName, ForeignKey)
    ensures c == Unclassified <==>
              !Occurs(labelName, SoundKey) && !Occurs(labelName, BrokenKey) && !Occurs(labelName, ForeignKey)
  {
    ContainsIffOccurs(labelName, SoundKey);
    ContainsIffOccurs(labelName, BrokenKey);
    ContainsIffOccurs(labelName, ForeignKey);
    if Contains(labelName, SoundKey) then Whole
    else if Contains(labelName, BrokenKey) then Broken
    else if Contains(labelName, ForeignKey) then Foreign
    else Unclassified
  }

  /** A labelName classified as foreign matter always carries the "foreign" keyword. */
  lemma ForeignClassHasForeignKey(labelName: string)
    requires Classify(labelName) == Foreign
    ensures Contains(labelName, ForeignKey)
  {
    ContainsIffOccurs(labelName, ForeignKey);
  }
}
