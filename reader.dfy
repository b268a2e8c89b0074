/** Small pure computations of the reading screen: the hizb shown for the
    active verse (App.tsx:353), the chapter search (App.tsx:504) and the text
    put on the clipboard by the copy button (App.tsx:289). */
module Reader {
  import opened Types
  import opened JsText
  import opened Seqs

  /** `Math.ceil(hizbQuarter / 4)`: the hizb a quarter-hizb index falls in. */
  function Hizb(hizbQuarter: int): (h: int)
    ensures 4 * (h - 1) < hizbQuarter <= 4 * h
  {
    (hizbQuarter + 3) / 4
  }

  /** The 240 quarters of the text fall into its 60 hizbs. */
  lemma HizbOfQuarters(q: int)
    requires 1 <= q <= 240
    ensures 1 <= Hizb(q) <= 60
  {
  }

  /** Hizb `h` is made of the four quarters `4h - 3` to `4h`. */
  lemma QuartersOfHizb(h: int, q: int)
    requires 1 <= h <= 60
    requires 4 * h - 3 <= q <= 4 * h
    ensures Hizb(q) == h
  {
  }

  /** `surahs.filter(s => s.name.includes(searchQuery))`: the chapters whose
      name contains the query, in list order. */
  function FilterSurahs(surahs: seq<Surah>, query: string): (r: seq<Surah>)
    ensures |r| <= |surahs|
    ensures forall s :: s in r <==> s in surahs && Includes(s.name, query)
    decreases |surahs|
  {
    if |surahs| == 0 then []
    else if Includes(surahs[0].name, query) then [surahs[0]] + FilterSurahs(surahs[1..], query)
    else FilterSurahs(surahs[1..], query)
  }

  /** The search keeps the list order. */
  lemma {:induction false} FilterSurahsIsSubsequence(surahs: seq<Surah>, query: string)
    ensures IsSubsequence(FilterSurahs(surahs, query), surahs)
    decreases |surahs|
  {
    if |surahs| > 0 {
      FilterSurahsIsSubsequence(surahs[1..], query);
      var r := FilterSurahs(surahs, query);
      if Includes(surahs[0].name, query) {
        assert r[0] == surahs[0] && r[1..] == FilterSurahs(surahs[1..], query);
      }
    }
  }

  /** An empty search box lists every chapter. */
  lemma {:induction false} EmptyQueryListsAll(surahs: seq<Surah>)
    ensures FilterSurahs(surahs, "") == surahs
    decreases |surahs|
  {
    if |surahs| > 0 {
      assert StartsWith(surahs[0].name, "");
      EmptyQueryListsAll(surahs[1..]);
    }
  }

  /** The chapter name as the template literal renders `currentSurah?.name`. */
  function RenderedName(currentSurah: Option<Surah>): string {
    match currentSurah
    case Some(s) => s.name
    case None => "undefined"
  }

  /** The copied text: the verse, then the chapter name and the verse's number
      in its chapter in brackets. */
  function CopyText(ayah: Ayah, currentSurah: Option<Surah>): (r: string)
    ensures |r| > |ayah.text| && r[..|ayah.text|] == ayah.text
    ensures r[|r| - 1] == ']'
  {
    ayah.text + " [سورة " + RenderedName(currentSurah) + ": " + NumberToString(ayah.numberInSurah) + "]"
  }

  /** The copied text carries the chapter reference: the chapter name between
      "[سورة " and the colon before the verse number. */
  lemma CopyTextNamesChapter(ayah: Ayah, currentSurah: Option<Surah>)
    ensures Includes(CopyText(ayah, currentSurah), " [سورة " + RenderedName(currentSurah) + ": ")
  {
    ReferenceIncluded(ayah.text, " [سورة ", RenderedName(currentSurah), ": ", NumberToString(ayah.numberInSurah), "]");
  }

  /** The three middle parts of a six-part concatenation are included in it. */
  lemma ReferenceIncluded(text: string, lead: string, name: string, sep: string, number: string, close: string)
    ensures Includes(text + lead + name + sep + number + close, lead + name + sep)
  {
    var reference := lead + name + sep;
    assert text + lead + name + sep + number + close == text + reference + (number + close);
    IncludesMiddle(text, reference, number + close);
  }

  /** The verse number can be read back from the copied text: it is the digits
      just before the closing bracket. */
  lemma CopyTextEndsWithVerseNumber(ayah: Ayah, currentSurah: Option<Surah>)
    requires ayah.numberInSurah >= 0
    ensures var r := CopyText(ayah, currentSurah);
            var d := NatToDecimal(ayah.numberInSurah);
            && |r| >= |d| + 1
            && r[|r| - 1 - |d|..|r| - 1] == d
            && DecimalValue(d) == ayah.numberInSurah
  {
    DecimalRoundTrip(ayah.numberInSurah);
    var d := NatToDecimal(ayah.numberInSurah);
    var prefix := ayah.text + " [سورة " + RenderedName(currentSurah) + ": ";
    assert CopyText(ayah, currentSurah) == prefix + d + "]";
    assert (prefix + d + "]")[|prefix|..|prefix| + |d|] == d;
  }
}
