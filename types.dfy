/** The records the reader application receives from the Quran content API and
    from the generative-text backend (types.ts). They are plain values: nothing
    in the application updates a field of one in place. */
module Types {

  /** The absence of a value: `null`, `undefined`, or an optional argument left out. */
  datatype Option<+T> = None | Some(value: T)

  /** One chapter (sura) of the chapter list. */
  datatype Surah = Surah(
    number: int,
    name: string,
    englishName: string,
    englishNameTranslation: string,
    numberOfAyahs: int,
    revelationType: string)

  /** The prostration marker: the API sends either a bare boolean or a record. */
  datatype Sajda =
    | SajdaFlag(flag: bool)
    | SajdaInfo(id: int, recommended: bool, obligatory: bool)

  /** One verse (aya). `number` is unique across the whole text; `numberInSurah`
      is its position in its chapter; `audio` locates its recitation. */
  datatype Ayah = Ayah(
    number: int,
    text: string,
    numberInSurah: int,
    juz: int,
    manzil: int,
    page: int,
    ruku: int,
    hizbQuarter: int,
    sajda: Sajda,
    audio: string)

  /** One multiple-choice question of a generated quiz. */
  datatype QuizQuestion = QuizQuestion(question: string, options: seq<string>, correctIndex: int)
}
