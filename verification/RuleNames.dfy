/**
 When the search for one resource hits a rule of another: the exact condition on names and texts.
 */
module RuleNames {
  import opened Text
  import opened Kube
  import opened RuleSpec

  /** The phrase of `j` is part of the tag of `k`: its namespace ends that of `k`, and its name begins that of `k`. */
  predicate Nested(j: Key, k: Key) {
    EndsWith(k.ns, j.ns) && j.name <= k.name
  }

  // ---- Where a phrase can occur ----

  /** A text in which `c` does not occur is found on one side of `c` or on the other. */
  lemma FoundOnOneSide(a: string, c: char, b: string, part: string)
    requires c !in part
    ensures Contains(a + [c] + b, part) <==> Contains(a, part) || Contains(b, part)
  {
    if Contains(a + [c] + b, part) {
      var before, after := ContainsSplits(a + [c] + b, part);
      SideOfOccurrence(a, c, b, before, part, after);
    }
    if Contains(a, part) {
      ContainsStaysWithMoreAtEnd(a, part, [c] + b);
      assert a + [c] + b == a + ([c] + b);
    }
    if Contains(b, part) {
      var before, after := ContainsSplits(b, part);
      ContainsAfterPrefix(a + [c] + before, part);
      ContainsStaysWithMoreAtEnd(a + [c] + before + part, part, after);
      assert a + [c] + b == a + [c] + before + part + after;
    }
  }

  lemma SideOfOccurrence(a: string, c: char, b: string, before: string, part: string, after: string)
    requires c !in part && a + [c] + b == before + part + after
    ensures Contains(a, part) || Contains(b, part)
  {
    var s, i := a + [c] + b, |before|;
    assert forall p | i <= p < i + |part| :: s[p] == part[p - i] != c;
    assert s[|a|] == c;
    if i + |part| <= |a| {
      assert forall p | 0 <= p < |part| :: a[i + p] == s[i + p] == part[p];
      OccursIn(a, part, i);
    } else {
      assert i > |a|;
      assert forall p | 0 <= p < |part| :: b[i - |a| - 1 + p] == s[i + p] == part[p];
      OccursIn(b, part, i - |a| - 1);
    }
  }

  /** Spaces around a text hide no occurrence of a text without spaces. */
  lemma {:induction false} SpacesHideNothing(front: string, t: string, back: string, part: string)
    requires AllSpaces(front) && AllSpaces(back)
    requires part != "" && forall i | 0 <= i < |part| :: !IsSpace(part[i])
    ensures Contains(front + t + back, part) <==> Contains(t, part)
    decreases |front| + |back|
  {
    if front != "" {
      assert front + t + back == "" + [front[0]] + (front[1..] + t + back);
      FoundOnOneSide("", front[0], front[1..] + t + back, part);
      SpacesHideNothing(front[1..], t, back, part);
    } else if back != "" {
      var rest, c := back[..|back| - 1], back[|back| - 1];
      assert t + back == (t + rest) + [c] + "";
      FoundOnOneSide(t + rest, c, "", part);
      SpacesHideNothing("", t, rest, part);
      assert "" + t + rest == t + rest && front + t + back == t + back;
    } else {
      assert front + t + back == t;
    }
  }

  lemma TrimmingHidesNothing(s: string, part: string)
    requires part != "" && forall i | 0 <= i < |part| :: !IsSpace(part[i])
    ensures Contains(Lower(TrimSpace(s)), part) <==> Contains(Lower(s), part)
  {
    var front, back := TrimSpaceCuts(s);
    LowerConcat(front, TrimSpace(s));
    LowerConcat(front + TrimSpace(s), back);
    LowerKeepsSpaces(front);
    LowerKeepsSpaces(back);
    SpacesHideNothing(front, Lower(TrimSpace(s)), back, part);
  }

  lemma LowerConcat(s: string, t: string)
    ensures Lower(s + t) == Lower(s) + Lower(t)
  {
  }

  lemma LowerKeepsSpaces(s: string)
    requires AllSpaces(s)
    ensures Lower(s) == s
  {
  }

  // ---- Tags ----

  lemma PhraseIsPlain(k: Key)
    requires ValidKey(k)
    ensures Phrase(k) != "" && Lower(Phrase(k)) == Phrase(k) && Lower(Tag(k)) == Tag(k)
    ensures forall i | 0 <= i < |Phrase(k)| :: IsNameChar(Phrase(k)[i]) || Phrase(k)[i] == '/'
    ensures forall i | 0 <= i < |Phrase(k)| :: !IsSpace(Phrase(k)[i])
    ensures '[' !in Phrase(k) && ' ' !in Phrase(k) && ']' !in Phrase(k) && ':' !in Phrase(k)
  {
  }

  /** The tag of `k` contains the phrase of `j` exactly if the names nest. */
  lemma TagIsHitIff(k: Key, j: Key)
    requires ValidKey(k) && ValidKey(j)
    ensures Contains(Tag(k), Phrase(j)) <==> Nested(j, k)
  {
    var tag, phrase, slash := Tag(k), Phrase(j), |MARKER| + |k.ns|;
    if Contains(tag, phrase) {
      var before, after := ContainsSplits(tag, phrase);
      assert tag[|before|..|before| + |phrase|] == phrase;
      SlashesMeet(k, j, |before|);
      NamesNest(k, j, before, after);
    }
    if Nested(j, k) {
      var front, back := k.ns[..|k.ns| - |j.ns|], k.name[|j.name|..];
      assert Phrase(k) == front + Phrase(j) + back;
      NestedNamesAreHit(front, back, j, k, tag);
      PhraseIsPlain(k);
      PhraseIsPlain(j);
    }
  }

  /** The phrase can only occur where the slashes meet, and cannot reach into the marker, which ends in a colon. */
  lemma SlashesMeet(k: Key, j: Key, i: nat)
    requires ValidKey(k) && ValidKey(j)
    requires i + |Phrase(j)| <= |Tag(k)| && Tag(k)[i..i + |Phrase(j)|] == Phrase(j)
    ensures i >= |MARKER| && i + |j.ns| == |MARKER| + |k.ns|
  {
    TagSeparators(k);
    PhraseIsPlain(j);
    PhraseAt(Tag(k), Phrase(j), i, j);
  }

  lemma TagSeparators(k: Key)
    requires ValidKey(k)
    ensures |MARKER| + |k.ns| < |Tag(k)| && Tag(k)[|MARKER| - 1] == ':'
    ensures forall p | 0 <= p < |Tag(k)| && Tag(k)[p] == '/' :: p == |MARKER| + |k.ns|
  {
  }

  lemma PhraseAt(tag: string, phrase: string, i: nat, j: Key)
    requires phrase == Phrase(j) && i + |phrase| <= |tag| && tag[i..i + |phrase|] == phrase
    requires forall p | 0 <= p < |phrase| :: phrase[p] != ':'
    ensures tag[i + |j.ns|] == '/' && forall p | i <= p < i + |phrase| :: tag[p] != ':'
  {
    assert tag[i + |j.ns|] == phrase[|j.ns|] == '/';
    assert forall p | i <= p < i + |phrase| :: tag[p] == phrase[p - i];
  }

  lemma NamesNest(k: Key, j: Key, before: string, after: string)
    requires ValidKey(k) && ValidKey(j)
    requires Tag(k) == before + Phrase(j) + after && |MARKER| <= |before| && |before| + |j.ns| == |MARKER| + |k.ns|
    ensures Nested(j, k)
  {
    var slash := |MARKER| + |k.ns|;
    var whole := before + Phrase(j) + after;
    assert MARKER + k.ns == Tag(k)[..slash] == whole[..slash] == before + j.ns;
    assert k.ns == (MARKER + k.ns)[|MARKER|..] == before[|MARKER|..] + j.ns;
    assert k.name + "]" == Tag(k)[slash + 1..] == whole[slash + 1..] == j.name + after;
    PrefixStopsBefore(j.name, after, k.name);
  }

  /** A text without closing brackets that begins `name` and a closing bracket begins `name`. */
  lemma PrefixStopsBefore(prefix: string, after: string, name: string)
    requires name + "]" == prefix + after && ']' !in prefix
    ensures prefix <= name
  {
    assert (name + "]")[|name|] == ']' == (prefix + after)[|name|];
    assert |prefix| <= |name|;
    assert prefix == (prefix + after)[..|prefix|] == name[..|prefix|];
  }

  // ---- Descriptions ----

  /** What stands before the tag in a description that bears it. */
  function UserText(description: string, k: Key): string
    requires Bears(description, k)
  {
    description[..|description| - |Tag(k)|]
  }

  /** The search for `j` hits a description with the tag of `k` exactly if the text before it does or the names nest. */
  lemma BearerIsHitIff(description: string, k: Key, j: Key)
    requires ValidKey(k) && ValidKey(j) && Bears(description, k)
    ensures Matches(description, Phrase(j)) <==> Matches(UserText(description, k), Phrase(j)) || Nested(j, k)
  {
    var text, phrase := UserText(description, k), Phrase(j);
    PhraseIsPlain(k);
    PhraseIsPlain(j);
    assert description == text + Tag(k);
    assert Lower(description) == Lower(text) + Tag(k) by {
      LowerConcat(text, Tag(k));
    }
    FoundBeforeBracket(Lower(text), Tag(k), phrase);
    TagIsHitIff(k, j);
  }

  /** A text without brackets is found before a bracketed one or inside it. */
  lemma FoundBeforeBracket(text: string, tag: string, part: string)
    requires tag != "" && tag[0] == '[' && '[' !in part && part != ""
    ensures Contains(text + tag, part) <==> Contains(text, part) || Contains(tag, part)
  {
    assert tag == "" + ['['] + tag[1..] && text + tag == text + ['['] + tag[1..];
    FoundOnOneSide(text, '[', tag[1..], part);
    FoundOnOneSide("", '[', tag[1..], part);
  }

  /** The same for the description that the operator writes for `k`. */
  lemma ManagedIsHitIff(text: string, k: Key, j: Key)
    requires ValidKey(k) && ValidKey(j)
    ensures Matches(ManagedDescription(text, k), Phrase(j)) <==> Matches(text, Phrase(j)) || Nested(j, k)
  {
    PhraseIsPlain(k);
    PhraseIsPlain(j);
    TrimmingHidesNothing(text + " " + Tag(k), Phrase(j));
    assert Lower(text + " " + Tag(k)) == Lower(text) + [' '] + Tag(k) by {
      assert Lower(text + " " + Tag(k)) == Lower(text) + Lower(" ") + Lower(Tag(k));
    }
    FoundOnOneSide(Lower(text), ' ', Tag(k), Phrase(j));
    TagIsHitIff(k, j);
  }
}
