# Mushaf reader: a verified model of its core

This project models the core of a single-page Quran reading application
(`App.tsx`, with the records of `types.ts`). The application shows a chapter
verse by verse, plays each verse's recitation and moves on to the next one
when it ends, checks a spoken recitation against the active verse, searches
chapters by name, copies a verse with its reference, and offers a study
assistant. The assistant sends a prompt about the active verse or chapter to
a language model. It shows the reply, or turns a JSON reply into a
three-question quiz that the reader answers one question at a time.

The model is split into modules that follow the program:

- `Types` holds the records `Surah`, `Ayah`, `Sajda` and `QuizQuestion`, plus `Option` for nullable values.
- `JsText` holds the JavaScript string operations the code relies on, over strings of Unicode scalar values (each one UTF-16 code unit inside the Basic Multilingual Plane):
  - `includes`;
  - `split(' ')` and its inverse `join(' ')`;
  - `trim` with the ECMAScript whitespace set;
  - `replace(/literal/g, '')`;
  - `String(n)` on integers below 10^21 in magnitude.
- `Recitation` holds `removeTashkeel` and the recitation check `verifyRecitation`.
- `Reader` holds the hizb shown for a verse, the chapter search and the copied text.
- `Quiz` holds the quiz state as a class, updated in place by the option buttons and the "next" button.
- `Playback` holds the playback state as a class: the active verse, the playing flag, the verse list and the loaded audio source. It also holds the `findIndex` search the ended handler uses.
- `Assistant` covers the assistant:
  - the tool dispatcher, with the exact headings and prompt texts;
  - the reply cleaning before `JSON.parse`;
  - the key check and the request and reply steps of `callGemini`;
  - the question box;
  - the chapter loading that resets playback.

  All of this hangs on a `Session` class that owns the player and the quiz.

The ratio thresholds of the recitation check (`matchCount / w1.length > 0.6`
and `> 0.3`) become exact integer comparisons (`5m > 3n` and `10m > 3n`). The
word count `n` is never zero, because `split` always yields at least one
piece.

The model follows the code where it departs from the application's stated
intent:

- A transcript that normalises to the empty string is contained in every verse, so it is classified correct.
- A transcript that is a contiguous fragment of the verse is correct by the containment test and never falls through to the word ratio. For example, on plainly spelled text, the first two words of "الحمد لله رب العالمين" (verse 1:2) are correct.
- The verse texts are in Uthmani spelling, and `removeTashkeel` deletes more than vowel marks. Alef wasla (U+0671) and the superscript alef (U+0670) fall outside the kept ranges. So the basmala the reader strips at App.tsx:653 normalises to "بسم لله لرحمن لرحيم". A plainly spelled recitation "بسم الله الرحمن الرحيم" matches one word in four and is classified incorrect.
- Starting a quiz does not clear the chosen option or the answered flag. After a finished quiz the flag is still set, so the first question of the next quiz ignores every choice: three correct answers then score two.
- The quiz heading is computed but never shown, because the quiz branch returns before the heading is set.
- Any truthy parse result (anything but `null`, `undefined`, `0`, `false` or the empty string) replaces the questions.
- Asking for a quiz without a key sets the content to the configuration error, but the quiz view does not display it. The content is rendered only in text mode (App.tsx:806-822), and the quiz view needs questions (App.tsx:825), so the panel stays blank.

## Model

| member | source | states |
|---|---|---|
| JsText.IncludesIffOccurs | App.tsx:339 | `includes` holds exactly when the pattern occurs at some index of the text |
| JsText.IncludesTransitive | App.tsx:339 | a text included in an included text is included |
| JsText.IncludedIsMadeOfItsCodeUnits | App.tsx:339 | an included text is no longer than the container and uses only code units found in it |
| JsText.IncludesMiddle | App.tsx:229 | a text is included in any concatenation it sits in the middle of |
| JsText.Split | App.tsx:342-343 | `split(' ')` yields at least one piece and no piece contains a space |
| JsText.SplitAfterWord | App.tsx:342 | a space-free word in front of a text joins the text's first piece |
| JsText.JoinSplit | App.tsx:342 | joining the pieces of `split(' ')` with spaces gives back the text |
| JsText.SplitJoin | App.tsx:342 | splitting space-free words joined by spaces gives back the words, empty ones included |
| JsText.SplitCount | App.tsx:342-343 | the number of pieces is the number of spaces plus one |
| JsText.TrimStart | App.tsx:205 | the result is the suffix after the leading whitespace, and begins with non-whitespace |
| JsText.TrimEnd | App.tsx:205 | the result is the prefix before the trailing whitespace, and ends with non-whitespace |
| JsText.Trim | App.tsx:297 | `trim` is no longer than its input and neither starts nor ends with whitespace |
| JsText.TrimIdempotent | App.tsx:205 | trimming twice is trimming once |
| JsText.TrimIsSlice | App.tsx:205 | the trimmed text is a slice of the input, and everything outside the slice is whitespace |
| JsText.TrimEmptyIffAllWhitespace | App.tsx:297 | a text trims to empty exactly when every code unit is whitespace, as the blank-question test needs |
| JsText.TrimStartAppend | App.tsx:205 | how leading-whitespace removal distributes over a concatenation |
| JsText.TrimAbsorbsLeadingWhitespace | App.tsx:205 | a leading whitespace code unit does not change the trimmed text |
| JsText.TrimAbsorbsTrailingWhitespace | App.tsx:205 | a trailing whitespace code unit does not change the trimmed text |
| JsText.TrimKeepsExclusion | App.tsx:205 | trimming cannot create an occurrence the untrimmed text lacks |
| JsText.RemoveAll | App.tsx:205 | global deletion of a literal never lengthens the text |
| JsText.RemoveAllSkipsPrefix | App.tsx:205 | a prefix without the pattern's first code unit passes through the deletion unchanged |
| JsText.RemoveAllAbsent | App.tsx:205 | a text without the pattern is left as it is |
| JsText.RemoveAllShort | App.tsx:205 | a text shorter than the pattern is left as it is |
| JsText.NoDoubleBacktickCreated | App.tsx:205 | deleting fences never creates a leading double backtick |
| JsText.RemoveAllFencesLeavesNone | App.tsx:205 | after every ``` is deleted left to right, no ``` remains, including one formed across a deleted fence |
| JsText.DigitChar | App.tsx:289 | a digit value maps to its decimal digit character |
| JsText.NatToDecimal | App.tsx:289 | the decimal numeral is non-empty, all digits, and has a leading zero only for zero |
| JsText.DecimalRoundTrip | App.tsx:289 | reading the numeral back gives the number |
| JsText.NumberToString | App.tsx:289 | an integer renders as digits, with a leading minus exactly when negative |
| Recitation.RemoveTashkeel | App.tsx:16 | the result keeps only the allowed code units (Arabic letters 0621-063A and 0641-064A, Arabic-Indic digits, Latin letters, ASCII digits, space) and is no longer than the input |
| Recitation.RemoveTashkeelKeepsCleanText | App.tsx:16 | a text made only of allowed code units is unchanged |
| Recitation.RemoveTashkeelIdempotent | App.tsx:16 | normalising twice is normalising once |
| Recitation.RemoveTashkeelIsSubsequence | App.tsx:16 | the result is the input with some code units deleted, order kept |
| Recitation.RemoveTashkeelCounts | App.tsx:16 | each allowed code unit keeps its count and every other one disappears |
| Recitation.RemoveTashkeelConcat | App.tsx:16 | normalisation distributes over concatenation, because it acts code unit by code unit |
| Recitation.MatchedWords | App.tsx:344 | the filtered verse words are at most as many as the verse words, and each was spoken |
| Recitation.MatchedWordsConcat | App.tsx:344 | the filter distributes over concatenated verse words |
| Recitation.MatchCountIsPositionCount | App.tsx:344 | the match count is the number of verse-word positions whose word was spoken |
| Recitation.MatchedWordsDependOnSpokenSet | App.tsx:343-344 | only the set of spoken words matters, not their order or repetition |
| Recitation.MatchCountMonotone | App.tsx:344 | speaking more distinct words never lowers the match count |
| Recitation.ClassifyNormalized | App.tsx:339-347 | containment either way between the normalised texts is correct |
| Recitation.Classify | App.tsx:336-347 | the verdict is computed on the normalised verse and transcript |
| Recitation.VerifyRecitation | App.tsx:334-349 | a verdict exists exactly when a verse is active, and containment gives correct |
| Recitation.MatchCountBounds | App.tsx:342-345 | the match count lies between zero and the verse's word count, which is at least one |
| Recitation.ClassifyThresholds | App.tsx:345-347 | without containment: correct iff 5m > 3n, partial iff not that and 10m > 3n, incorrect otherwise |
| Recitation.RecitingTheVerseIsCorrect | App.tsx:339-340 | reciting the verse itself is correct |
| Recitation.SilenceIsCorrect | App.tsx:339-340 | a transcript that normalises to empty is correct |
| Recitation.ReorderedTranscriptSameWordScore | App.tsx:342-347 | without containment, two transcripts with the same set of words get the same verdict |
| Recitation.ThresholdBoundaries | App.tsx:345-346 | the thresholds are strict: exactly 60% is partial and exactly 30% is incorrect |
| Recitation.OpeningVerseFragmentIsCorrect | App.tsx:339-340 | on normalised, plainly spelled text, the first two words of verse 1:2 are correct by containment |
| Recitation.SpelledBismNormalises | App.tsx:16 | a text spelled as the Uthmani first word of the basmala normalises to "بسم" |
| Recitation.SpelledAllahNormalises | App.tsx:16 | a text spelled as the Uthmani second word normalises to "لله": the alef wasla is deleted |
| Recitation.SpelledRahmanNormalises | App.tsx:16 | a text spelled as the Uthmani third word normalises to "لرحمن": the alef wasla and the superscript alef are deleted |
| Recitation.SpelledRahimNormalises | App.tsx:16 | a text spelled as the Uthmani fourth word normalises to "لرحيم" |
| Recitation.RemoveTashkeelWords | App.tsx:16 | normalising four space-separated words normalises each word and keeps the spaces |
| Recitation.UthmaniBasmalaNormalises | App.tsx:653 | the basmala as the verse texts spell it normalises to "بسم لله لرحمن لرحيم" |
| Recitation.PlainBasmalaIsClean | App.tsx:16 | the plainly spelled basmala is left as it is |
| Recitation.SplitFourWords | App.tsx:342 | four space-free words joined by spaces split back into those four words |
| Recitation.JoinFourWords | App.tsx:342 | joining four words puts single spaces between them |
| Recitation.BasmalaWordScore | App.tsx:342-344 | against the plain basmala, one of the four normalised Uthmani words matches |
| Recitation.BasmalaNotContained | App.tsx:339-340 | neither the normalised Uthmani basmala nor the plain one includes the other |
| Recitation.PlainRecitationOfUthmaniBasmalaIsIncorrect | App.tsx:334-349 | a plainly spelled recitation of the basmala, checked against its Uthmani text, is classified incorrect |
| Reader.Hizb | App.tsx:353 | the hizb is the ceiling of the quarter index over four |
| Reader.HizbOfQuarters | App.tsx:353 | quarters 1 to 240 map onto hizbs 1 to 60 |
| Reader.QuartersOfHizb | App.tsx:353 | for hizb h from 1 to 60, the quarters 4h-3 to 4h all show hizb h |
| Reader.FilterSurahs | App.tsx:504 | a chapter is listed exactly when it is in the list and its name contains the query |
| Reader.FilterSurahsIsSubsequence | App.tsx:504 | the search keeps list order |
| Reader.EmptyQueryListsAll | App.tsx:504 | an empty query lists every chapter |
| Reader.CopyText | App.tsx:289 | the copied text starts with the verse text and ends with a closing bracket |
| Reader.CopyTextNamesChapter | App.tsx:289 | the copied text contains the chapter reference " [سورة <name>: " |
| Reader.ReferenceIncluded | App.tsx:289 | the middle parts of the copied text's six-part concatenation are included in it |
| Reader.CopyTextEndsWithVerseNumber | App.tsx:289 | the digits before the closing bracket read back as the verse's number in its chapter |
| Quiz.QuizSession.constructor | App.tsx:52-57 | the quiz starts empty, at question 0, with score 0 and nothing chosen |
| Quiz.QuizSession.Start | App.tsx:275-278 | questions, index, score and finished are reset; the chosen option and the answered flag keep their values |
| Quiz.QuizSession.Install | App.tsx:280 | the generated questions replace the list; nothing else changes |
| Quiz.QuizSession.Select | App.tsx:847-852 | an answered question ignores further choices; otherwise the choice is recorded and the score rises by one exactly when it is correct; the score never exceeds the options actually chosen, nor the question count |
| Quiz.QuizSession.Next | App.tsx:863-869 | moves to the next question and clears the choice, or on the last question marks the quiz finished; the score is untouched |
| Quiz.ThreeCorrectAnswers | App.tsx:847-869 | answering three questions correctly ends finished with three points |
| Quiz.SecondChoiceIgnored | App.tsx:847-852 | a second choice on an answered question keeps the first choice and the score |
| Quiz.QuizAfterFinishedQuiz | App.tsx:275-278 | a quiz started right after a finished one counts its first question as answered and scores two for three correct answers |
| Playback.FindIndex | App.tsx:135 | `findIndex` returns the first position whose verse number equals the active one, or -1 when there is none or no verse is active |
| Playback.FindIndexOfUniqueNumber | App.tsx:135 | with distinct verse numbers the search returns the verse's own position |
| Playback.Player.constructor | App.tsx:26-36 | nothing is active, nothing plays, no source is loaded |
| Playback.Player.TogglePlay | App.tsx:158-165 | pauses when the verse is the active one and playing; otherwise makes it active and plays |
| Playback.Player.SelectVerse | App.tsx:646 | clicking a verse makes it active and pauses |
| Playback.Player.SetActive | App.tsx:222 | the study tools make a verse active without touching playback |
| Playback.Player.AudioEnded | App.tsx:134-140 | at the end of a verse, playback moves to the next verse of the chapter if there is one; otherwise it stops on the same verse |
| Playback.Player.SyncAudio | App.tsx:146-152 | the source is reloaded exactly when a verse is active and playing and its audio differs from the loaded one; afterwards no reload is pending |
| Playback.Player.PlayRejected | App.tsx:152 | a refused play clears the playing flag |
| Playback.Player.StopForLoad | App.tsx:104-115 | opening a chapter clears the active verse and stops the audio |
| Playback.Player.ContentLoaded | App.tsx:123 | the loaded verses become the playback list |
| Playback.PlayThroughChapter | App.tsx:134-165 | in a five-verse chapter, the end of the third verse plays the fourth, and the end of the last stops on it |
| Assistant.ParseTool | App.tsx:231-284 | a recognised kind is the string of the tool it selects |
| Assistant.ParseToolId | App.tsx:231-284 | every tool is selected by its own string, so exactly eleven kinds are accepted |
| Assistant.TitleNamesOnlyTheChapter | App.tsx:233-274 | verse-tool headings are fixed; chapter-tool headings differ exactly when the chapter names differ |
| Assistant.ContextQuotesVerseAndChapter | App.tsx:229 | the context quotes the verse text and names the chapter |
| Assistant.VerseToolsBuildVersePrompts | App.tsx:231-270 | all tools except the summary and the quiz build a prompt around the verse's context |
| Assistant.VersePromptEndsWithContext | App.tsx:234-266 | a verse tool's prompt ends with the verse's context |
| Assistant.SummaryPromptNamesChapter | App.tsx:270 | the summary prompt names the chapter |
| Assistant.QuizPromptNamesChapter | App.tsx:279 | the quiz prompt names the chapter |
| Assistant.QuestionPromptQuotesBoth | App.tsx:298-299 | the question prompt quotes the context and ends with the question as typed |
| Assistant.CleanReply | App.tsx:205 | after the ```json and ``` deletions and the trim, no code fence remains |
| Assistant.RemoveLeading | App.tsx:205 | a leading occurrence of the pattern is deleted |
| Assistant.NoBacktickSurvivesDeletions | App.tsx:205 | a backtick-free prefix passes through both deletions |
| Assistant.PlainReplyIsTrimmed | App.tsx:205 | a reply without backticks is only trimmed |
| Assistant.TrimDropsEnclosingNewlines | App.tsx:205 | the newlines around fenced content are trimmed away |
| Assistant.DeletionsStripWrapper | App.tsx:205 | both deletions strip exactly the ```json … ``` wrapper |
| Assistant.FencedReplyCleansLikePlain | App.tsx:205 | a reply wrapped in a ```json fence cleans to the same text as the bare reply |
| Assistant.CleanReplyIdempotent | App.tsx:205 | cleaning a cleaned reply changes nothing |
| Assistant.Session.constructor | App.tsx:44-51 | the panel starts closed, in text mode, with no heading, content or loading |
| Assistant.Session.CallGemini | App.tsx:180-199 | without a usable key, the content is set to the configuration error and nothing is sent; with one, the request (its prompt and the JSON flag) is recorded, the loading flag is set and a text request clears the content |
| Assistant.Session.TextReplied | App.tsx:201-215 | a non-empty reply is shown; a failure or an empty reply shows the error message; loading ends |
| Assistant.Session.QuizReplied | App.tsx:201-215 | the questions are replaced exactly when the reply is non-empty and its cleaned text parses; the content is never touched; loading ends |
| Assistant.Session.HandleAIAction | App.tsx:218-286 | no target verse or no chapter: nothing changes. Otherwise the target becomes active and the panel opens in text mode. An unknown kind stops there. The quiz switches to quiz mode, resets the quiz and sends the JSON quiz prompt, heading unchanged. Any other tool sets its heading and sends its text prompt |
| Assistant.Session.RunTool | App.tsx:231-284 | the quiz branch switches to quiz mode, resets the quiz and sends the JSON quiz prompt, heading unchanged; any other tool sets its heading and sends its text prompt |
| Assistant.Session.HandleAskQuestion | App.tsx:296-301 | a blank question, or no active verse or chapter, sends nothing; otherwise the question prompt with the verse's context is sent as text |
| Assistant.Session.BeginLoadSurah | App.tsx:111-115 | loading starts, the active verse is cleared and playback stops |
| Assistant.Session.SurahLoaded | App.tsx:121-130 | the chapter becomes current, its verses become the playback list, loading ends |
| Assistant.Session.SurahLoadFailed | App.tsx:124-130 | a failed load only ends the loading state |
| Assistant.QuizWithoutKey | App.tsx:180-186 | asking for a quiz without a key opens quiz mode on an empty quiz with no spinner, and sets the content to the configuration error, which the quiz view does not display |
| Assistant.ToolReplyShown | App.tsx:218-286 | with a key, a verse tool's reply ends up in the panel under its heading |

## Left out

- Rendering (JSX, styling, sidebar, tafseer overlay, expanded-panel flag, copy-status badge) is not modelled: it computes no state of the core.
- Network access (`fetch` of the chapter list, chapter text and tafseer) is not modelled; the loaded chapter and its verses are parameters of `SurahLoaded`.
- The language-model SDK call is not modelled. Its outcome is the `reply` parameter of `TextReplied` and `QuizReplied`, and `JSON.parse` is the `parse` function parameter.
- Speech recognition (`toggleListening`) is not modelled; its transcript is the parameter of `VerifyRecitation`.
- Audio device behaviour (`play` promises, `pause`, `load`) is reduced to the `src` field, the ghost count of loads and `PlayRejected`.
- Timers, the clipboard API, `localStorage` and `Date.now` for the last-read record are not modelled: they are foreign or clock-driven.
- Responses that arrive after the user has moved on (stale replies) are not modelled; each reply step applies to the current state.
- The "regenerate" button at App.tsx:903 chooses a tool from the heading text; it is a rendering-level shortcut over `HandleAIAction` and is not modelled.
- Quiz.QuizSession.Next: the button is rendered only once the current question is answered; the model does not require that, so it also covers unanswered calls.
- Recitation.VerifyRecitation: JavaScript strings are sequences of UTF-16 code units, but a Dafny `char` is a Unicode scalar value, so no surrogate code unit can be written, paired or not. A character outside the Basic Multilingual Plane (an emoji in a transcript, say) is one `char` in the model and two code units in the source. On well-formed text this gives the same results for `removeTashkeel`, `includes`, `split` and `trim`; text with unpaired surrogates is outside the model.
- JsText.NumberToString: only integer values are rendered, since non-integer numbers never reach it in the source, and the model matches JavaScript only for magnitudes below 10^21, where JavaScript switches to exponent form ("1e+21"). Verse numbers are at most 286.
- Assistant.Session.QuizReplied: the `parse` parameter has type `string -> Option<seq<QuizQuestion>>`, so it assumes `JSON.parse` returns a question list. The source installs any truthy value, such as an object `{"questions": [...]}`, and the quiz view then stays blank because it reads `.length` (App.tsx:825); such values are not modelled.
