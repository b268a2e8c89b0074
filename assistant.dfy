/** The study assistant of the reading screen: the tool a button asks for,
    the prompt and title it produces (App.tsx:218-286), the question box
    (App.tsx:296-301), the request to the language model and what its reply
    does to the panel (App.tsx:180-216), and the chapter loading that resets
    playback (App.tsx:111-131). */
module Assistant {
  import opened Types
  import opened JsText
  import Quiz
  import Playback

  // ---------------------------------------------------------------------------
  // Tools

  /** The study tools a button can ask for. */
  datatype Tool =
    | Tadabbur | Tajweed | Vocab | Dua | Kids | Mutashabihat
    | Action | Irab | Asbab | Summary | QuizTool

  /** The string each tool is requested by. */
  function ToolId(t: Tool): string {
    match t
    case Tadabbur => "tadabbur"
    case Tajweed => "tajweed"
    case Vocab => "vocab"
    case Dua => "dua"
    case Kids => "kids"
    case Mutashabihat => "mutashabihat"
    case Action => "action"
    case Irab => "irab"
    case Asbab => "asbab"
    case Summary => "summary"
    case QuizTool => "quiz"
  }

  /** The `switch` on the requested kind: a known tool, or nothing for any
      other string (the `default` branch). */
  function ParseTool(kind: string): (r: Option<Tool>)
    ensures r.Some? ==> ToolId(r.value) == kind
  {
    if kind == "tadabbur" then Some(Tadabbur)
    else if kind == "tajweed" then Some(Tajweed)
    else if kind == "vocab" then Some(Vocab)
    else if kind == "dua" then Some(Dua)
    else if kind == "kids" then Some(Kids)
    else if kind == "mutashabihat" then Some(Mutashabihat)
    else if kind == "action" then Some(Action)
    else if kind == "irab" then Some(Irab)
    else if kind == "asbab" then Some(Asbab)
    else if kind == "summary" then Some(Summary)
    else if kind == "quiz" then Some(QuizTool)
    else None
  }

  /** Every tool is reached by its own string, so the kinds the dispatcher
      accepts are exactly the eleven tool strings. */
  lemma ParseToolId(t: Tool)
    ensures ParseTool(ToolId(t)) == Some(t)
  {
  }

  /** The tools that comment on one verse, as opposed to the whole chapter. */
  predicate IsVerseTool(t: Tool) {
    t != Summary && t != QuizTool
  }

  /** The heading of the panel for a tool. The quiz heading is computed but
      never shown: the quiz branch returns before the heading is set. */
  function Title(t: Tool, surahName: string): string {
    match t
    case Tadabbur => "تدبر ومساعد قرآني"
    case Tajweed => "أحكام التجويد"
    case Vocab => "غريب القرآن والمفردات"
    case Dua => "دعاء مستوحى"
    case Kids => "المفسر الصغير"
    case Mutashabihat => "المتشابهات اللفظية"
    case Action => "العمل بالآية"
    case Irab => "الإعراب النحوي"
    case Asbab => "أسباب النزول"
    case Summary => "ملخص سورة " + surahName
    case QuizTool => "اختبار: سورة " + surahName
  }

  /** A verse tool's heading is fixed; a chapter tool's heading tells chapters
      apart by their names. */
  lemma TitleNamesOnlyTheChapter(t: Tool, name1: string, name2: string)
    ensures Title(t, name1) == Title(t, name2) <==> IsVerseTool(t) || name1 == name2
  {
    if t == Summary || t == QuizTool {
      var p := if t == Summary then "ملخص سورة " else "اختبار: سورة ";
      assert Title(t, name1) == p + name1 && Title(t, name2) == p + name2;
      PrefixCancels(p, name1, name2);
    }
  }

  /** Equal texts with the same prefix have equal remainders. */
  lemma PrefixCancels(p: string, a: string, b: string)
    ensures p + a == p + b ==> a == b
  {
    if p + a == p + b {
      assert a == (p + a)[|p|..];
      assert b == (p + b)[|p|..];
    }
  }

  // ---------------------------------------------------------------------------
  // Prompts

  /** The verse quoted with its chapter, the common part of every verse prompt. */
  function Context(ayah: Ayah, surah: Surah): string {
    "الآية: \"" + ayah.text + "\" (سورة " + surah.name + ")"
  }

  /** The context quotes the verse's text and names its chapter. */
  lemma ContextQuotesVerseAndChapter(ayah: Ayah, surah: Surah)
    ensures Includes(Context(ayah, surah), ayah.text)
    ensures Includes(Context(ayah, surah), surah.name)
  {
    var a := "الآية: \"";
    var b := "\" (سورة " + surah.name + ")";
    assert Context(ayah, surah) == a + ayah.text + b;
    IncludesMiddle(a, ayah.text, b);
    IncludesMiddle(a + ayah.text + "\" (سورة ", surah.name, ")");
  }

  /** What is asked of the model. */
  datatype Prompt =
    | VersePrompt(tool: Tool, context: string)
    | SummaryPrompt(surahName: string)
    | QuizPrompt(surahName: string)
    | QuestionPrompt(context: string, question: string)

  /** The prompt a tool button builds for a verse of a chapter. */
  function PromptFor(t: Tool, ayah: Ayah, surah: Surah): Prompt {
    match t
    case Summary => SummaryPrompt(surah.name)
    case QuizTool => QuizPrompt(surah.name)
    case _ => VersePrompt(t, Context(ayah, surah))
  }

  /** The instruction that precedes the context in a verse tool's prompt. */
  function Instruction(t: Tool): string
    requires IsVerseTool(t)
  {
    match t
    case Tadabbur => "بصفتك مساعداً للتدبر، اشرح الآية شرحاً مبسطاً مع 3 نقاط عملية للتدبر: "
    case Tajweed => "استخرج أحكام التجويد من هذه الآية بشكل قائمة واضحة: "
    case Vocab => "اشرح المفردات الصعبة (غريب القرآن) في هذه الآية: "
    case Dua => "صغ دعاءً خاشعاً مستوحى من معاني هذه الآية: "
    case Kids => "اشرح هذه الآية لطفل عمره 7 سنوات بأسلوب قصصي يبدأ بـ \"يا بطل\": "
    case Mutashabihat => "استخرج الآيات المتشابهة لفظياً مع هذه الآية لضبط الحفظ: "
    case Action => "اقترح 3 خطوات عملية تطبيقية يمكن تنفيذها اليوم بناءً على هذه الآية: "
    case Irab => "أعرب هذه الآية إعرباً ميسراً يوضح مواقع الكلمات الرئيسية: "
    case Asbab => "ما سبب نزول هذه الآية أو سياقها التاريخي؟ "
  }

  /** The text sent to the model for a prompt. */
  function PromptText(p: Prompt): string
    requires p.VersePrompt? ==> IsVerseTool(p.tool)
  {
    match p
    case VersePrompt(t, context) => Instruction(t) + context
    case SummaryPrompt(name) => "لخص سورة " + name + " (محاورها، سبب التسمية، والدروس) في نقاط."
    case QuizPrompt(name) => "أنشئ اختباراً من 3 أسئلة اختيار من متعدد عن سورة " + name + " بتنسيق JSON: [{\"question\": \"\", \"options\": [], \"correctIndex\": 0}]"
    case QuestionPrompt(context, question) => "بصفتك عالماً ومساعداً قرآنياً، أجب عن السؤال التالي المتعلق بالآية: " + context + " \n\nالسؤال: " + question
  }

  /** Only the verse tools build a verse prompt. */
  lemma VerseToolsBuildVersePrompts(t: Tool, ayah: Ayah, surah: Surah)
    ensures PromptFor(t, ayah, surah).VersePrompt? <==> IsVerseTool(t)
    ensures IsVerseTool(t) ==> PromptFor(t, ayah, surah) == VersePrompt(t, Context(ayah, surah))
  {
  }

  /** A verse tool's text ends with the context it was given. */
  lemma VersePromptEndsWithContext(t: Tool, context: string)
    requires IsVerseTool(t)
    ensures var r := PromptText(VersePrompt(t, context));
            |context| <= |r| && r[|r| - |context|..] == context
  {
    var i := Instruction(t);
    assert PromptText(VersePrompt(t, context)) == i + context;
    assert (i + context)[|i|..] == context;
  }

  /** The summary request names the chapter. */
  lemma SummaryPromptNamesChapter(name: string)
    ensures Includes(PromptText(SummaryPrompt(name)), name)
  {
    IncludesMiddle("لخص سورة ", name, " (محاورها، سبب التسمية، والدروس) في نقاط.");
  }

  /** The quiz request names the chapter. */
  lemma QuizPromptNamesChapter(name: string)
    ensures Includes(PromptText(QuizPrompt(name)), name)
  {
    IncludesMiddle("أنشئ اختباراً من 3 أسئلة اختيار من متعدد عن سورة ", name, " بتنسيق JSON: [{\"question\": \"\", \"options\": [], \"correctIndex\": 0}]");
  }

  /** A question prompt quotes the verse's context and ends with the question
      as typed. */
  lemma QuestionPromptQuotesBoth(context: string, question: string)
    ensures var r := PromptText(QuestionPrompt(context, question));
            Includes(r, context) && |question| <= |r| && r[|r| - |question|..] == question
  {
    var r := PromptText(QuestionPrompt(context, question));
    IncludesMiddle("بصفتك عالماً ومساعداً قرآنياً، أجب عن السؤال التالي المتعلق بالآية: ", context, " \n\nالسؤال: " + question);
    assert r == "بصفتك عالماً ومساعداً قرآنياً، أجب عن السؤال التالي المتعلق بالآية: " + context + (" \n\nالسؤال: " + question);
    assert r[|r| - |question|..] == question;
  }

  // ---------------------------------------------------------------------------
  // Replies

  /** The message shown when no key is configured. */
  const ConfigErrorMessage: string := "خطأ: لم يتم العثور على مفتاح API_KEY في إعدادات البيئة (Vercel). يرجى مراجعة دليل README."

  /** The message shown when a text request fails or comes back empty. */
  const AiErrorMessage: string := "عذراً، حدث خطأ أثناء الاتصال بالذكاء الاصطناعي. تأكد من صحة مفتاح الـ API وصلاحيته."

  /** `process.env.API_KEY` is usable: present and not empty. */
  predicate HasKey(apiKey: Option<string>) {
    apiKey.Some? && apiKey.value != ""
  }

  /** The cleaning applied to a JSON reply before it is parsed: every "```json"
      is deleted, then every remaining "```", then the ends are trimmed. No code
      fence survives. */
  function CleanReply(text: string): (r: string)
    ensures !Includes(r, Fence)
  {
    var u := RemoveAll(RemoveAll(text, JsonFence), Fence);
    RemoveAllFencesLeavesNone(RemoveAll(text, JsonFence));
    TrimKeepsExclusion(u, Fence);
    Trim(u)
  }

  /** The opening delimiter of a JSON code block. */
  const JsonFence: string := "```json"

  /** Deleting the occurrences of `pat` from a text that begins with it
      deletes that leading one and goes on with the rest. */
  lemma RemoveLeading(pat: string, y: string)
    requires |pat| > 0
    ensures RemoveAll(pat + y, pat) == RemoveAll(y, pat)
  {
    assert StartsWith(pat + y, pat);
    assert (pat + y)[|pat|..] == y;
  }

  /** A text without backticks passes through both deletions unchanged. */
  lemma NoBacktickSurvivesDeletions(s: string, tail: string)
    requires '`' !in s
    ensures RemoveAll(RemoveAll(s + tail, JsonFence), Fence) == s + RemoveAll(RemoveAll(tail, JsonFence), Fence)
  {
    RemoveAllSkipsPrefix(s, tail, JsonFence);
    RemoveAllSkipsPrefix(s, RemoveAll(tail, JsonFence), Fence);
  }

  /** A reply without backticks is only trimmed. */
  lemma PlainReplyIsTrimmed(s: string)
    requires '`' !in s
    ensures CleanReply(s) == Trim(s)
  {
    NoBacktickSurvivesDeletions(s, []);
    assert s + [] == s;
  }

  /** Newlines around the content do not survive trimming. */
  lemma TrimDropsEnclosingNewlines(s: string)
    ensures Trim("\n" + s + "\n") == Trim(s)
  {
    assert "\n" + s + "\n" == ['\n'] + (s + "\n");
    TrimAbsorbsLeadingWhitespace('\n', s + "\n");
    TrimAbsorbsTrailingWhitespace(s, '\n');
  }

  /** Wrapping a text without backticks in newlines adds none. */
  lemma NewlinesAddNoBacktick(s: string)
    requires '`' !in s
    ensures '`' !in "\n" + s + "\n"
  {
    var body := "\n" + s + "\n";
    forall k | 0 <= k < |body| ensures body[k] != '`' {
      if 0 < k < |body| - 1 {
        assert body[k] == s[k - 1];
      }
    }
  }

  /** Both deletions strip exactly the fence wrapper from a fenced reply. */
  lemma DeletionsStripWrapper(body: string)
    requires '`' !in body
    ensures RemoveAll(RemoveAll(JsonFence + body + Fence, JsonFence), Fence) == body
  {
    assert JsonFence + body + Fence == JsonFence + (body + Fence);
    RemoveLeading(JsonFence, body + Fence);
    NoBacktickSurvivesDeletions(body, Fence);
    RemoveAllShort(Fence, JsonFence);
    RemoveLeading(Fence, []);
    assert body + [] == body;
  }

  /** A reply wrapped in a ```json fence cleans to the same text as the bare
      reply: the wrapper and the surrounding whitespace go, the content stays. */
  lemma FencedReplyCleansLikePlain(s: string)
    requires '`' !in s
    ensures CleanReply(JsonFence + ("\n" + s + "\n") + Fence) == Trim(s)
    ensures CleanReply(s) == Trim(s)
  {
    NewlinesAddNoBacktick(s);
    DeletionsStripWrapper("\n" + s + "\n");
    TrimDropsEnclosingNewlines(s);
    PlainReplyIsTrimmed(s);
  }

  /** Cleaning a cleaned reply changes nothing. */
  lemma CleanReplyIdempotent(text: string)
    ensures CleanReply(CleanReply(text)) == CleanReply(text)
  {
    var r := CleanReply(text);
    var open := JsonFence;
    assert !Includes(r, open) by {
      if Includes(r, open) {
        assert Includes(open, Fence) by {
          assert StartsWith(open, Fence);
        }
        IncludesTransitive(r, open, Fence);
      }
    }
    RemoveAllAbsent(r, open);
    RemoveAllAbsent(r, Fence);
    TrimIdempotent(RemoveAll(RemoveAll(text, open), Fence));
  }

  // ---------------------------------------------------------------------------
  // The session

  /** Whether the panel shows prose or the quiz. */
  datatype AiMode = TextMode | QuizMode

  /** A request sent to the model: its prompt, whose text is `PromptText(prompt)`,
      and whether JSON was asked for. */
  datatype Request = Request(prompt: Prompt, isJson: bool)

  /** The part of the application state the assistant reads and writes. The
      audio player and the quiz are objects of their own that the session
      drives. */
  class Session {
    const player: Playback.Player
    const quiz: Quiz.QuizSession
    const apiKey: Option<string>       // process.env.API_KEY
    var currentSurah: Option<Surah>
    var contentLoading: bool
    var modalOpen: bool                // showAIModal
    var mode: AiMode                   // aiMode
    var title: string                  // aiTitle
    var content: Option<string>        // aiContent
    var loading: bool                  // aiLoading
    ghost var requests: seq<Request>   // every request sent to the model, in order

    ghost predicate Valid()
      reads this, quiz
    {
      quiz.Valid()
    }

    /** The state a call to the model leaves behind, given the content and the
        requests before it: without a key the content is set to the
        configuration error and nothing is sent; with one the request goes out,
        the loading flag is set, and a text request clears the old content. */
    ghost predicate Sent(oldContent: Option<string>, oldRequests: seq<Request>, prompt: Prompt, isJson: bool)
      reads this
    {
      if HasKey(apiKey) then
        loading && requests == oldRequests + [Request(prompt, isJson)]
        && content == (if isJson then oldContent else None)
      else
        !loading && requests == oldRequests && content == Some(ConfigErrorMessage)
    }

    /** The initial state, with a fresh player and quiz. */
    constructor (apiKey: Option<string>)
      ensures Valid() && fresh(player) && fresh(quiz)
      ensures this.apiKey == apiKey && currentSurah == None && !contentLoading
      ensures !modalOpen && mode == TextMode && title == "" && content == None && !loading
      ensures requests == []
      ensures player.active == None && !player.playing && player.verses == []
      ensures quiz.questions == [] && !quiz.finished
    {
      player := new Playback.Player();
      quiz := new Quiz.QuizSession();
      this.apiKey := apiKey;
      currentSurah, contentLoading := None, false;
      modalOpen, mode, title, content, loading := false, TextMode, "", None, false;
      requests := [];
    }

    /** `callGemini` up to the request: returns whether a request was sent. */
    method CallGemini(prompt: Prompt, isJson: bool) returns (sent: bool)
      modifies this
      ensures sent == HasKey(apiKey)
      ensures Sent(old(content), old(requests), prompt, isJson)
      ensures currentSurah == old(currentSurah) && contentLoading == old(contentLoading)
      ensures modalOpen == old(modalOpen) && mode == old(mode) && title == old(title)
    {
      if !HasKey(apiKey) {
        content := Some(ConfigErrorMessage);
        loading := false;
        return false;
      }
      loading := true;
      if !isJson {
        content := None;
      }
      requests := requests + [Request(prompt, isJson)];
      sent := true;
    }

    /** The reply to a text request arrives: `None` when the request failed.
        Non-empty text is shown; a failure or an empty text shows the error
        message. Loading ends either way. */
    method TextReplied(reply: Option<string>)
      modifies this
      ensures content == Some(if reply.Some? && reply.value != "" then reply.value else AiErrorMessage)
      ensures !loading
      ensures currentSurah == old(currentSurah) && contentLoading == old(contentLoading)
      ensures modalOpen == old(modalOpen) && mode == old(mode) && title == old(title)
      ensures requests == old(requests)
    {
      if reply.Some? && reply.value != "" {
        content := Some(reply.value);
      } else {
        content := Some(AiErrorMessage);
      }
      loading := false;
    }

    /** The reply to the quiz request arrives: `None` when the request failed.
        A non-empty reply is cleaned and handed to `parse` (JSON.parse, `None`
        when it throws or yields nothing truthy); the parsed questions replace
        the quiz's list. The content never changes on this path. */
    method QuizReplied(reply: Option<string>, parse: string -> Option<seq<QuizQuestion>>)
      returns (installed: bool)
      requires Valid()
      modifies this, quiz
      ensures Valid()
      ensures installed <==> reply.Some? && reply.value != "" && parse(CleanReply(reply.value)).Some?
      ensures installed ==> quiz.questions == parse(CleanReply(reply.value)).value
      ensures !installed ==> quiz.questions == old(quiz.questions)
      ensures quiz.index == old(quiz.index) && quiz.score == old(quiz.score) && quiz.finished == old(quiz.finished)
      ensures quiz.selected == old(quiz.selected) && quiz.checked == old(quiz.checked)
      ensures content == old(content) && !loading
      ensures currentSurah == old(currentSurah) && contentLoading == old(contentLoading)
      ensures modalOpen == old(modalOpen) && mode == old(mode) && title == old(title)
      ensures requests == old(requests)
    {
      installed := false;
      if reply.Some? && reply.value != "" {
        var parsed := parse(CleanReply(reply.value));
        if parsed.Some? {
          quiz.Install(parsed.value);
          installed := true;
        }
      }
      loading := false;
    }

    /** `handleAIAction`: the target is the given verse, else the active one.
        With no target or no chapter nothing happens. Otherwise the target
        becomes active and the panel opens in text mode; an unknown kind stops
        there. The quiz switches to quiz mode, resets the quiz and asks for JSON,
        leaving the heading as it was; every other tool sets its heading and
        asks for text. */
    method HandleAIAction(kind: string, ayah: Option<Ayah>)
      requires Valid()
      modifies this, player, quiz
      ensures Valid()
      ensures player.verses == old(player.verses) && player.playing == old(player.playing)
      ensures player.src == old(player.src) && player.loads == old(player.loads)
      ensures currentSurah == old(currentSurah) && contentLoading == old(contentLoading)
      ensures var target := if ayah.Some? then ayah else old(player.active);
              target.None? || currentSurah.None? ==>
                && player.active == old(player.active) && modalOpen == old(modalOpen)
                && mode == old(mode) && title == old(title) && content == old(content)
                && loading == old(loading) && requests == old(requests) && unchanged(quiz)
      ensures var target := if ayah.Some? then ayah else old(player.active);
              target.Some? && currentSurah.Some? ==>
                && player.active == target && modalOpen
                && (ParseTool(kind).None? ==>
                      && mode == TextMode && title == old(title) && content == old(content)
                      && loading == old(loading) && requests == old(requests) && unchanged(quiz))
                && (ParseTool(kind) == Some(QuizTool) ==>
                      && mode == QuizMode && title == old(title)
                      && quiz.questions == [] && quiz.index == 0 && quiz.score == 0 && !quiz.finished
                      && quiz.selected == old(quiz.selected) && quiz.checked == old(quiz.checked)
                      && Sent(old(content), old(requests), QuizPrompt(currentSurah.value.name), true))
                && (ParseTool(kind).Some? && ParseTool(kind) != Some(QuizTool) ==>
                      var t := ParseTool(kind).value;
                      && mode == TextMode && title == Title(t, currentSurah.value.name) && unchanged(quiz)
                      && Sent(old(content), old(requests), PromptFor(t, target.value, currentSurah.value), false))
    {
      var target := if ayah.Some? then ayah else player.active;
      if target.None? || currentSurah.None? {
        return;
      }
      var a, s := target.value, currentSurah.value;
      player.SetActive(a);
      modalOpen := true;
      mode := TextMode;
      var tool := ParseTool(kind);
      if tool.None? {
        return;
      }
      RunTool(tool.value, a, s);
    }

    /** The `switch` branch of a known tool, after the panel has opened. */
    method RunTool(t: Tool, a: Ayah, s: Surah)
      requires Valid()
      modifies this, quiz
      ensures Valid()
      ensures currentSurah == old(currentSurah) && contentLoading == old(contentLoading)
      ensures modalOpen == old(modalOpen)
      ensures t == QuizTool ==>
                && mode == QuizMode && title == old(title)
                && quiz.questions == [] && quiz.index == 0 && quiz.score == 0 && !quiz.finished
                && quiz.selected == old(quiz.selected) && quiz.checked == old(quiz.checked)
                && Sent(old(content), old(requests), QuizPrompt(s.name), true)
      ensures t != QuizTool ==>
                && mode == old(mode) && title == Title(t, s.name) && unchanged(quiz)
                && Sent(old(content), old(requests), PromptFor(t, a, s), false)
    {
      if t == QuizTool {
        mode := QuizMode;
        quiz.Start();
        var _ := CallGemini(QuizPrompt(s.name), true);
      } else {
        title := Title(t, s.name);
        var _ := CallGemini(PromptFor(t, a, s), false);
      }
    }

    /** `handleAskQuestion`: a blank question, or no active verse or chapter,
        does nothing; otherwise the question is sent with the verse's context
        as a text request. */
    method HandleAskQuestion(question: string)
      modifies this
      ensures currentSurah == old(currentSurah) && contentLoading == old(contentLoading)
      ensures modalOpen == old(modalOpen) && mode == old(mode) && title == old(title)
      ensures Trim(question) == [] || player.active.None? || currentSurah.None? ==>
                content == old(content) && loading == old(loading) && requests == old(requests)
      ensures Trim(question) != [] && player.active.Some? && currentSurah.Some? ==>
                Sent(old(content), old(requests),
                     QuestionPrompt(Context(player.active.value, currentSurah.value), question), false)
    {
      if Trim(question) == [] || player.active.None? || currentSurah.None? {
        return;
      }
      var context := Context(player.active.value, currentSurah.value);
      var _ := CallGemini(QuestionPrompt(context, question), false);
    }

    /** `loadSurah` before its request: the loading flag goes up, the active
        verse is cleared and the audio stops. */
    method BeginLoadSurah()
      modifies this, player
      ensures contentLoading && player.active == None && !player.playing
      ensures player.verses == old(player.verses) && player.src == old(player.src) && player.loads == old(player.loads)
      ensures currentSurah == old(currentSurah) && modalOpen == old(modalOpen) && mode == old(mode)
      ensures title == old(title) && content == old(content) && loading == old(loading) && requests == old(requests)
    {
      contentLoading := true;
      player.StopForLoad();
    }

    /** The chapter arrived: it becomes the current chapter and its verses the
        playback list, and loading ends. */
    method SurahLoaded(surah: Surah, ayahs: seq<Ayah>)
      modifies this, player
      ensures currentSurah == Some(surah) && player.verses == ayahs && !contentLoading
      ensures player.active == old(player.active) && player.playing == old(player.playing)
      ensures player.src == old(player.src) && player.loads == old(player.loads)
      ensures modalOpen == old(modalOpen) && mode == old(mode)
      ensures title == old(title) && content == old(content) && loading == old(loading) && requests == old(requests)
    {
      currentSurah := Some(surah);
      player.ContentLoaded(ayahs);
      contentLoading := false;
    }

    /** The chapter request failed: only the loading flag changes. */
    method SurahLoadFailed()
      modifies this
      ensures !contentLoading
      ensures currentSurah == old(currentSurah) && modalOpen == old(modalOpen) && mode == old(mode)
      ensures title == old(title) && content == old(content) && loading == old(loading) && requests == old(requests)
    {
      contentLoading := false;
    }
  }

  /** Asking for a quiz without a configured key: the panel opens in quiz mode
      on an empty quiz, with no spinner, and the content is set to the
      configuration error. The quiz view does not display that content: the
      content is rendered only in text mode (App.tsx:806-822) and the quiz
      view only once there are questions (App.tsx:825), so the panel is blank. */
  method QuizWithoutKey(surah: Surah, ayahs: seq<Ayah>, ayah: Ayah)
    returns (content: Option<string>, loading: bool, mode: AiMode, questions: seq<QuizQuestion>)
    ensures content == Some(ConfigErrorMessage) && !loading && mode == QuizMode && questions == []
  {
    var session := new Session(None);
    session.BeginLoadSurah();
    session.SurahLoaded(surah, ayahs);
    ParseToolId(QuizTool);
    session.HandleAIAction(ToolId(QuizTool), Some(ayah));
    content, loading, mode, questions := session.content, session.loading, session.mode, session.quiz.questions;
  }

  /** With a key, a verse tool's reply ends up in the panel under the tool's
      heading. */
  method ToolReplyShown(key: string, surah: Surah, ayah: Ayah, t: Tool, reply: string)
    returns (title: string, content: Option<string>, loading: bool)
    requires key != "" && reply != "" && IsVerseTool(t)
    ensures title == Title(t, surah.name) && content == Some(reply) && !loading
  {
    var session := new Session(Some(key));
    session.SurahLoaded(surah, []);
    ParseToolId(t);
    session.HandleAIAction(ToolId(t), Some(ayah));
    session.TextReplied(Some(reply));
    title, content, loading := session.title, session.content, session.loading;
  }
}
