/** The memorisation checker: the text normaliser `removeTashkeel` and the
    classifier `verifyRecitation`, which compares a speech transcript with the
    active verse (App.tsx:16, App.tsx:334-349). */
module Recitation {
  import opened Types
  import opened JsText
  import opened Seqs

  /** The code units the normaliser keeps: the Arabic letters U+0621-U+063A and
      U+0641-U+064A, the Arabic-Indic digits U+0660-U+0669, ASCII letters, ASCII
      digits and the space. Everything else, the vowel and recitation marks
      (U+064B-U+065F, U+0670, ...) included, is removed. */
  predicate IsKept(c: char) {
    (0x0621 <= c as int <= 0x063A) || (0x0641 <= c as int <= 0x064A) || (0x0660 <= c as int <= 0x0669)
    || ('a' <= c <= 'z') || ('A' <= c <= 'Z') || c == ' ' || ('0' <= c <= '9')
  }

  /** `removeTashkeel`: deletes, left to right, every code unit that is not kept. */
  function RemoveTashkeel(text: string): (r: string)
    ensures |r| <= |text|
    ensures forall k :: 0 <= k < |r| ==> IsKept(r[k])
    decreases |text|
  {
    if |text| == 0 then []
    else if IsKept(text[0]) then [text[0]] + RemoveTashkeel(text[1..])
    else RemoveTashkeel(text[1..])
  }

  /** Text made only of kept code units is left as it is. */
  lemma {:induction false} RemoveTashkeelKeepsCleanText(text: string)
    requires forall k :: 0 <= k < |text| ==> IsKept(text[k])
    ensures RemoveTashkeel(text) == text
    decreases |text|
  {
    if |text| > 0 {
      RemoveTashkeelKeepsCleanText(text[1..]);
    }
  }

  /** Normalising twice is normalising once. */
  lemma RemoveTashkeelIdempotent(text: string)
    ensures RemoveTashkeel(RemoveTashkeel(text)) == RemoveTashkeel(text)
  {
    RemoveTashkeelKeepsCleanText(RemoveTashkeel(text));
  }

  /** The normalised text is the input with some code units deleted, the rest
      in their original order. */
  lemma {:induction false} RemoveTashkeelIsSubsequence(text: string)
    ensures IsSubsequence(RemoveTashkeel(text), text)
    decreases |text|
  {
    if |text| > 0 {
      RemoveTashkeelIsSubsequence(text[1..]);
      var r := RemoveTashkeel(text);
      if IsKept(text[0]) {
        assert r[0] == text[0] && r[1..] == RemoveTashkeel(text[1..]);
      }
    }
  }

  /** Exactly the kept code units survive, each as often as in the input. */
  lemma {:induction false} RemoveTashkeelCounts(text: string, c: char)
    ensures multiset(RemoveTashkeel(text))[c] == if IsKept(c) then multiset(text)[c] else 0
    decreases |text|
  {
    if |text| > 0 {
      RemoveTashkeelCounts(text[1..], c);
      assert text == [text[0]] + text[1..];
      assert multiset(text) == multiset{text[0]} + multiset(text[1..]);
      if IsKept(text[0]) {
        assert multiset(RemoveTashkeel(text)) == multiset{text[0]} + multiset(RemoveTashkeel(text[1..]));
      }
    }
  }

  /** Normalising a concatenation normalises each part. */
  lemma {:induction false} RemoveTashkeelConcat(a: string, b: string)
    ensures RemoveTashkeel(a + b) == RemoveTashkeel(a) + RemoveTashkeel(b)
    decreases |a|
  {
    if |a| == 0 {
      assert a + b == b;
    } else {
      assert (a + b)[0] == a[0] && (a + b)[1..] == a[1..] + b;
      RemoveTashkeelConcat(a[1..], b);
    }
  }

  // ---------------------------------------------------------------------------
  // verifyRecitation

  /** The outcome shown to the reciter. */
  datatype MatchStatus = Correct | Partial | Incorrect

  /** `w1.filter(w => w2.includes(w))`: the target words, in order and with
      their repetitions, that occur anywhere among the spoken words. */
  function MatchedWords(w1: seq<string>, w2: seq<string>): (r: seq<string>)
    ensures |r| <= |w1|
    ensures forall k :: 0 <= k < |r| ==> r[k] in w2
    decreases |w1|
  {
    if |w1| == 0 then []
    else if w1[0] in w2 then [w1[0]] + MatchedWords(w1[1..], w2)
    else MatchedWords(w1[1..], w2)
  }

  /** The filter distributes over concatenation of the target words. */
  lemma {:induction false} MatchedWordsConcat(a: seq<string>, b: seq<string>, w2: seq<string>)
    ensures MatchedWords(a + b, w2) == MatchedWords(a, w2) + MatchedWords(b, w2)
    decreases |a|
  {
    if |a| == 0 {
      assert a + b == b;
    } else {
      assert (a + b)[0] == a[0] && (a + b)[1..] == a[1..] + b;
      MatchedWordsConcat(a[1..], b, w2);
    }
  }

  /** The positions of the target words that occur among the spoken words. */
  ghost function MatchedPositions(w1: seq<string>, w2: seq<string>): set<int> {
    set i | 0 <= i < |w1| && w1[i] in w2
  }

  /** The match count is the number of target positions whose word was spoken. */
  lemma {:induction false} MatchCountIsPositionCount(w1: seq<string>, w2: seq<string>)
    ensures |MatchedWords(w1, w2)| == |MatchedPositions(w1, w2)|
    decreases |w1|
  {
    if |w1| == 0 {
      assert MatchedPositions(w1, w2) == {};
    } else {
      var n := |w1|;
      var p := w1[..n - 1];
      var x := w1[n - 1];
      assert w1 == p + [x];
      MatchedWordsConcat(p, [x], w2);
      assert [x][1..] == [];
      MatchCountIsPositionCount(p, w2);
      var sp := MatchedPositions(p, w2);
      assert n - 1 !in sp;
      if x in w2 {
        assert MatchedPositions(w1, w2) == sp + {n - 1};
      } else {
        assert MatchedPositions(w1, w2) == sp;
      }
    }
  }

  /** Only the set of spoken words matters: reordering or repeating spoken words
      leaves the matched words unchanged. */
  lemma {:induction false} MatchedWordsDependOnSpokenSet(w1: seq<string>, w2: seq<string>, w3: seq<string>)
    requires forall w :: w in w2 <==> w in w3
    ensures MatchedWords(w1, w2) == MatchedWords(w1, w3)
    decreases |w1|
  {
    if |w1| > 0 {
      MatchedWordsDependOnSpokenSet(w1[1..], w2, w3);
    }
  }

  /** Speaking more distinct words never lowers the match count. */
  lemma {:induction false} MatchCountMonotone(w1: seq<string>, w2: seq<string>, w3: seq<string>)
    requires forall w :: w in w2 ==> w in w3
    ensures |MatchedWords(w1, w2)| <= |MatchedWords(w1, w3)|
    decreases |w1|
  {
    if |w1| > 0 {
      MatchCountMonotone(w1[1..], w2, w3);
    }
  }

  /** The substring test: either normalised text contains the other. */
  predicate Contained(cleanAyah: string, cleanSpoken: string) {
    Includes(cleanAyah, cleanSpoken) || Includes(cleanSpoken, cleanAyah)
  }

  /** The number of verse words found among the spoken words. */
  function MatchCount(cleanAyah: string, cleanSpoken: string): nat {
    |MatchedWords(Split(cleanAyah), Split(cleanSpoken))|
  }

  /** The number of words of the normalised verse (never zero). */
  function WordCount(cleanAyah: string): nat {
    |Split(cleanAyah)|
  }

  /** The decision on already normalised texts. The ratio tests
      `matchCount / n > 0.6` and `> 0.3` are the exact rational comparisons
      `5 * matchCount > 3 * n` and `10 * matchCount > 3 * n`. */
  function ClassifyNormalized(cleanAyah: string, cleanSpoken: string): (r: MatchStatus)
    ensures Contained(cleanAyah, cleanSpoken) ==> r == Correct
  {
    if Contained(cleanAyah, cleanSpoken) then Correct
    else
      var m := MatchCount(cleanAyah, cleanSpoken);
      var n := WordCount(cleanAyah);
      if 5 * m > 3 * n then Correct
      else if 10 * m > 3 * n then Partial
      else Incorrect
  }

  /** The classification of a transcript against a verse text: both are
      normalised, then compared. */
  function Classify(ayahText: string, transcript: string): (r: MatchStatus)
    ensures Contained(RemoveTashkeel(ayahText), RemoveTashkeel(transcript)) ==> r == Correct
  {
    ClassifyNormalized(RemoveTashkeel(ayahText), RemoveTashkeel(transcript))
  }

  /** `verifyRecitation`: with no active verse nothing is classified and the
      shown status stays as it was. */
  function VerifyRecitation(activeAyah: Option<Ayah>, transcript: string): (r: Option<MatchStatus>)
    ensures r.Some? <==> activeAyah.Some?
    ensures activeAyah.Some? && Contained(RemoveTashkeel(activeAyah.value.text), RemoveTashkeel(transcript))
            ==> r == Some(Correct)
  {
    match activeAyah
    case None => None
    case Some(ayah) => Some(Classify(ayah.text, transcript))
  }

  /** The word score is a count of verse words: at least 0, at most the number
      of verse words, and that number is at least one. */
  lemma MatchCountBounds(cleanAyah: string, cleanSpoken: string)
    ensures 0 <= MatchCount(cleanAyah, cleanSpoken) <= WordCount(cleanAyah)
    ensures WordCount(cleanAyah) >= 1
  {
  }

  /** Outside the substring case the thresholds are strict: above three fifths
      of the words is correct, above three tenths partial, anything else incorrect. */
  lemma ClassifyThresholds(cleanAyah: string, cleanSpoken: string)
    requires !Contained(cleanAyah, cleanSpoken)
    ensures var m := MatchCount(cleanAyah, cleanSpoken);
            var n := WordCount(cleanAyah);
            && (ClassifyNormalized(cleanAyah, cleanSpoken) == Correct <==> 5 * m > 3 * n)
            && (ClassifyNormalized(cleanAyah, cleanSpoken) == Partial <==> 5 * m <= 3 * n && 10 * m > 3 * n)
            && (ClassifyNormalized(cleanAyah, cleanSpoken) == Incorrect <==> 10 * m <= 3 * n)
  {
  }

  /** Reciting the verse exactly is correct. */
  lemma RecitingTheVerseIsCorrect(ayahText: string)
    ensures Classify(ayahText, ayahText) == Correct
  {
    assert StartsWith(RemoveTashkeel(ayahText), RemoveTashkeel(ayahText));
  }

  /** A transcript that normalises to nothing (silence, or only marks and
      punctuation) is classified correct, since every string includes "". */
  lemma SilenceIsCorrect(ayahText: string, transcript: string)
    requires RemoveTashkeel(transcript) == []
    ensures Classify(ayahText, transcript) == Correct
  {
    assert StartsWith(RemoveTashkeel(ayahText), []);
  }

  /** Reordering or repeating the words of a transcript that is not contained
      in the verse (and does not contain it) does not change the classification
      as long as the result is still not contained either. */
  lemma ReorderedTranscriptSameWordScore(ayahText: string, t1: string, t2: string)
    requires !Contained(RemoveTashkeel(ayahText), RemoveTashkeel(t1))
    requires !Contained(RemoveTashkeel(ayahText), RemoveTashkeel(t2))
    requires forall w :: w in Split(RemoveTashkeel(t1)) <==> w in Split(RemoveTashkeel(t2))
    ensures Classify(ayahText, t1) == Classify(ayahText, t2)
  {
    var w1 := Split(RemoveTashkeel(ayahText));
    MatchedWordsDependOnSpokenSet(w1, Split(RemoveTashkeel(t1)), Split(RemoveTashkeel(t2)));
  }

  /** The 60% and 30% thresholds are strict: exactly three fifths of the verse
      words is partial, exactly three tenths is incorrect. */
  lemma ThresholdBoundaries(cleanAyah: string, cleanSpoken: string)
    requires !Contained(cleanAyah, cleanSpoken)
    ensures 5 * MatchCount(cleanAyah, cleanSpoken) == 3 * WordCount(cleanAyah)
            ==> ClassifyNormalized(cleanAyah, cleanSpoken) == Partial
    ensures 10 * MatchCount(cleanAyah, cleanSpoken) == 3 * WordCount(cleanAyah)
            ==> ClassifyNormalized(cleanAyah, cleanSpoken) == Incorrect
  {
    ClassifyThresholds(cleanAyah, cleanSpoken);
  }

  /** On already normalised, plainly spelled text, the first half of
      "الحمد لله رب العالمين" (the second verse of al-Fatiha) is classified
      correct by the substring test, before any word score (here two of four
      words) is looked at. */
  lemma OpeningVerseFragmentIsCorrect()
    ensures ClassifyNormalized("الحمد لله رب العالمين", "الحمد لله") == Correct
  {
    assert StartsWith("الحمد لله رب العالمين", "الحمد لله");
  }

  // ---------------------------------------------------------------------------
  // The basmala as the verse texts spell it

  /** The basmala in the Uthmani spelling of the verse texts, as the reader
      strips it from the first verse of a chapter (App.tsx:653), written as its
      four words. Beside the vowel marks it carries alef wasla (U+0671) and a
      superscript alef (U+0670), both outside the kept letter ranges. */
  const UthmaniBasmala: string := "بِسْمِ" + " " + "ٱللَّهِ" + " " + "ٱلرَّحْمَٰنِ" + " " + "ٱلرَّحِيمِ"

  /** The basmala as a recogniser writes it, in plain spelling. */
  const PlainBasmala: string := "بسم" + " " + "الله" + " " + "الرحمن" + " " + "الرحيم"

  /** What `removeTashkeel` leaves of the Uthmani basmala. */
  const NormalisedBasmala: string := "بسم" + " " + "لله" + " " + "لرحمن" + " " + "لرحيم"

  /** A code unit outside the kept ranges leaves no trace. */
  lemma DropsCodeUnit(t: string, k: nat)
    requires k < |t| && !IsKept(t[k])
    ensures RemoveTashkeel(t[k..]) == RemoveTashkeel(t[k + 1..])
  {
    assert t[k..][1..] == t[k + 1..];
  }

  /** A kept code unit stays in front of the rest. */
  lemma KeepsCodeUnit(t: string, k: nat)
    requires k < |t| && IsKept(t[k])
    ensures RemoveTashkeel(t[k..]) == [t[k]] + RemoveTashkeel(t[k + 1..])
  {
    assert t[k..][1..] == t[k + 1..];
  }

  /** Any text spelled code unit by code unit as the Uthmani "بِسْمِ" normalises
      to "بسم". */
  lemma {:induction false} SpelledBismNormalises(t: string)
    requires |t| == 6
    requires t[0] == '\U{0628}' && t[1] == '\U{0650}' && t[2] == '\U{0633}' && t[3] == '\U{0652}'
    requires t[4] == '\U{0645}' && t[5] == '\U{0650}'
    ensures RemoveTashkeel(t) == "بسم"
  {
    assert t[6..] == [];
    DropsCodeUnit(t, 5);
    KeepsCodeUnit(t, 4);
    DropsCodeUnit(t, 3);
    KeepsCodeUnit(t, 2);
    DropsCodeUnit(t, 1);
    KeepsCodeUnit(t, 0);
    assert t[0..] == t;
  }

  /** Any text spelled code unit by code unit as the Uthmani "ٱللَّهِ" normalises
      to "لله". */
  lemma {:induction false} SpelledAllahNormalises(t: string)
    requires |t| == 7
    requires t[0] == '\U{0671}' && t[1] == '\U{0644}' && t[2] == '\U{0644}' && t[3] == '\U{0651}'
    requires t[4] == '\U{064E}' && t[5] == '\U{0647}' && t[6] == '\U{0650}'
    ensures RemoveTashkeel(t) == "لله"
  {
    assert t[7..] == [];
    DropsCodeUnit(t, 6);
    KeepsCodeUnit(t, 5);
    DropsCodeUnit(t, 4);
    DropsCodeUnit(t, 3);
    KeepsCodeUnit(t, 2);
    KeepsCodeUnit(t, 1);
    DropsCodeUnit(t, 0);
    assert t[0..] == t;
  }

  /** Any text spelled code unit by code unit as the Uthmani "ٱلرَّحْمَٰنِ" normalises
      to "لرحمن". */
  lemma {:induction false} SpelledRahmanNormalises(t: string)
    requires |t| == 12
    requires t[0] == '\U{0671}' && t[1] == '\U{0644}' && t[2] == '\U{0631}' && t[3] == '\U{0651}'
    requires t[4] == '\U{064E}' && t[5] == '\U{062D}' && t[6] == '\U{0652}' && t[7] == '\U{0645}'
    requires t[8] == '\U{064E}' && t[9] == '\U{0670}' && t[10] == '\U{0646}' && t[11] == '\U{0650}'
    ensures RemoveTashkeel(t) == "لرحمن"
  {
    assert t[12..] == [];
    DropsCodeUnit(t, 11);
    KeepsCodeUnit(t, 10);
    DropsCodeUnit(t, 9);
    DropsCodeUnit(t, 8);
    KeepsCodeUnit(t, 7);
    DropsCodeUnit(t, 6);
    KeepsCodeUnit(t, 5);
    DropsCodeUnit(t, 4);
    DropsCodeUnit(t, 3);
    KeepsCodeUnit(t, 2);
    KeepsCodeUnit(t, 1);
    DropsCodeUnit(t, 0);
    assert t[0..] == t;
  }

  /** Any text spelled code unit by code unit as the Uthmani "ٱلرَّحِيمِ" normalises
      to "لرحيم". */
  lemma {:induction false} SpelledRahimNormalises(t: string)
    requires |t| == 10
    requires t[0] == '\U{0671}' && t[1] == '\U{0644}' && t[2] == '\U{0631}' && t[3] == '\U{0651}'
    requires t[4] == '\U{064E}' && t[5] == '\U{062D}' && t[6] == '\U{0650}' && t[7] == '\U{064A}'
    requires t[8] == '\U{0645}' && t[9] == '\U{0650}'
    ensures RemoveTashkeel(t) == "لرحيم"
  {
    assert t[10..] == [];
    DropsCodeUnit(t, 9);
    KeepsCodeUnit(t, 8);
    KeepsCodeUnit(t, 7);
    DropsCodeUnit(t, 6);
    KeepsCodeUnit(t, 5);
    DropsCodeUnit(t, 4);
    DropsCodeUnit(t, 3);
    KeepsCodeUnit(t, 2);
    KeepsCodeUnit(t, 1);
    DropsCodeUnit(t, 0);
    assert t[0..] == t;
  }

  lemma UthmaniBismNormalises()
    ensures RemoveTashkeel("بِسْمِ") == "بسم"
  {
    SpelledBismNormalises("بِسْمِ");
  }

  lemma UthmaniAllahNormalises()
    ensures RemoveTashkeel("ٱللَّهِ") == "لله"
  {
    SpelledAllahNormalises("ٱللَّهِ");
  }

  lemma UthmaniRahmanNormalises()
    ensures RemoveTashkeel("ٱلرَّحْمَٰنِ") == "لرحمن"
  {
    SpelledRahmanNormalises("ٱلرَّحْمَٰنِ");
  }

  lemma UthmaniRahimNormalises()
    ensures RemoveTashkeel("ٱلرَّحِيمِ") == "لرحيم"
  {
    SpelledRahimNormalises("ٱلرَّحِيمِ");
  }

  lemma PlainBismIsClean()
    ensures RemoveTashkeel("بسم") == "بسم"
  {
    RemoveTashkeelKeepsCleanText("بسم");
  }

  lemma PlainAllahIsClean()
    ensures RemoveTashkeel("الله") == "الله"
  {
    RemoveTashkeelKeepsCleanText("الله");
  }

  lemma PlainRahmanIsClean()
    ensures RemoveTashkeel("الرحمن") == "الرحمن"
  {
    RemoveTashkeelKeepsCleanText("الرحمن");
  }

  lemma PlainRahimIsClean()
    ensures RemoveTashkeel("الرحيم") == "الرحيم"
  {
    RemoveTashkeelKeepsCleanText("الرحيم");
  }

  /** Normalising space-separated words normalises each word. */
  lemma RemoveTashkeelWords(w1: string, w2: string, w3: string, w4: string,
                            n1: string, n2: string, n3: string, n4: string)
    requires RemoveTashkeel(w1) == n1 && RemoveTashkeel(w2) == n2
    requires RemoveTashkeel(w3) == n3 && RemoveTashkeel(w4) == n4
    ensures RemoveTashkeel(w1 + " " + w2 + " " + w3 + " " + w4) == n1 + " " + n2 + " " + n3 + " " + n4
  {
    assert RemoveTashkeel(" ") == " ";
    RemoveTashkeelConcat(w1 + " " + w2 + " " + w3 + " ", w4);
    RemoveTashkeelConcat(w1 + " " + w2 + " " + w3, " ");
    RemoveTashkeelConcat(w1 + " " + w2 + " ", w3);
    RemoveTashkeelConcat(w1 + " " + w2, " ");
    RemoveTashkeelConcat(w1 + " ", w2);
    RemoveTashkeelConcat(w1, " ");
  }

  /** The Uthmani basmala normalises to four words, three of which have lost
      their alef wasla. */
  lemma UthmaniBasmalaNormalises()
    ensures RemoveTashkeel(UthmaniBasmala) == NormalisedBasmala
  {
    UthmaniBismNormalises();
    UthmaniAllahNormalises();
    UthmaniRahmanNormalises();
    UthmaniRahimNormalises();
    RemoveTashkeelWords("بِسْمِ", "ٱللَّهِ", "ٱلرَّحْمَٰنِ", "ٱلرَّحِيمِ",
                        "بسم", "لله", "لرحمن", "لرحيم");
  }

  /** The plain basmala is already normalised. */
  lemma PlainBasmalaIsClean()
    ensures RemoveTashkeel(PlainBasmala) == PlainBasmala
  {
    PlainBismIsClean();
    PlainAllahIsClean();
    PlainRahmanIsClean();
    PlainRahimIsClean();
    RemoveTashkeelWords("بسم", "الله", "الرحمن", "الرحيم",
                        "بسم", "الله", "الرحمن", "الرحيم");
  }

  /** Four space-free words joined by single spaces split back into them. */
  lemma SplitFourWords(w1: string, w2: string, w3: string, w4: string)
    requires ' ' !in w1 && ' ' !in w2 && ' ' !in w3 && ' ' !in w4
    ensures Split(w1 + " " + w2 + " " + w3 + " " + w4) == [w1, w2, w3, w4]
  {
    JoinFourWords(w1, w2, w3, w4);
    SplitJoin([w1, w2, w3, w4]);
  }

  /** Joining four words puts single spaces between them. */
  lemma JoinFourWords(w1: string, w2: string, w3: string, w4: string)
    ensures Join([w1, w2, w3, w4]) == w1 + " " + w2 + " " + w3 + " " + w4
  {
    var ws := [w1, w2, w3, w4];
    assert ws[1..] == [w2, w3, w4] && [w2, w3, w4][1..] == [w3, w4] && [w3, w4][1..] == [w4];
    assert Join([w3, w4]) == w3 + " " + w4;
    assert Join([w2, w3, w4]) == w2 + " " + (w3 + " " + w4);
    assert Join(ws) == w1 + " " + (w2 + " " + (w3 + " " + w4));
  }

  /** Of the normalised Uthmani words only the first is spelled as a plain
      word: the others lost the alef that the plain spelling keeps. */
  lemma BasmalaWordScore()
    ensures MatchCount(NormalisedBasmala, PlainBasmala) == 1
    ensures WordCount(NormalisedBasmala) == 4
  {
    SplitFourWords("بسم", "لله", "لرحمن", "لرحيم");
    SplitFourWords("بسم", "الله", "الرحمن", "الرحيم");
    var plain := ["بسم", "الله", "الرحمن", "الرحيم"];
    var normalised := ["بسم", "لله", "لرحمن", "لرحيم"];
    assert normalised[1] !in plain && normalised[2] !in plain && normalised[3] !in plain;
    assert normalised[0] in plain;
    assert normalised[1..][1..][1..] == [normalised[3]];
    assert MatchedWords(normalised[1..][1..][1..], plain) == [];
    assert MatchedWords(normalised[1..][1..], plain) == [];
    assert MatchedWords(normalised[1..], plain) == [];
    assert MatchedWords(normalised, plain) == [normalised[0]];
  }

  /** Neither basmala includes the other: the plain one is longer, and the
      normalised one starts with the plain one's first word but continues
      with a lam where the plain one has its alef. */
  lemma BasmalaNotContained()
    ensures !Contained(NormalisedBasmala, PlainBasmala)
  {
    var n, p := NormalisedBasmala, PlainBasmala;
    assert |n| == 19 && |p| == 22;
    IncludedIsMadeOfItsCodeUnits(n, p, ' ');
    IncludesIffOccurs(p, n);
    assert p[1] != n[0] && p[2] != n[0] && p[3] != n[0] && p[4] != n[4];
    forall i | 0 <= i <= 3
      ensures !OccursAt(p, n, i)
    {
      if i == 0 {
        assert p[0..19][4] == p[4];
      } else {
        assert p[i..i + 19][0] == p[i];
      }
    }
  }

  /** Reciting the basmala in plain spelling against the Uthmani verse text is
      classified incorrect: after normalisation neither text contains the
      other, and one word in four (under the 30% threshold) matches. */
  lemma PlainRecitationOfUthmaniBasmalaIsIncorrect()
    ensures Classify(UthmaniBasmala, PlainBasmala) == Incorrect
  {
    UthmaniBasmalaNormalises();
    PlainBasmalaIsClean();
    BasmalaNotContained();
    BasmalaWordScore();
  }
}
