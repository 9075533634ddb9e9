/**
 * The agent's prompt builders: each prompt is fixed instruction text with the
 * caller's inputs spliced in, and the language setting picks the instruction
 * embedded in the weekly-summary prompt.
 *
 * Each public method of the agent sends exactly one prompt to the completion
 * service; `SentPrompt` says which. The service itself is not modelled.
 */
module Prompts {
  import opened Wrappers

  datatype Agent = Agent(language: string)

  /** A call to one of the agent's public methods, with its arguments. */
  datatype Request =
    | GenerateWeeklySummary(text: string)
    | AnalyzeText(text: string)
    | ProcessModification(original: string, suggestions: string)
    | AskAI(original: string, question: string)
    | TranslateToEnglish(text: string)

  const DefaultLanguage: string := "zh"

  // The fixed parts of the templates. The longer ones are an opening
  // followed by numbered pieces of a few words that `Assemble` joins. The
  // split exists only to keep proofs cheap (a proof expands just the pieces
  // it looks at); joined, the pieces are exactly the template texts.

  /** The weekly-summary instructions that precede the language instruction. */
  const WeeklyIntroOpening: string := "Create an effective weekly "
  const WeeklyHead: string := WeeklyIntroOpening + Assemble(WeeklyIntroPiece, 0, 60)
  const AnalyzeMarker: string := "Here's the content to analyze:\n"

  /** The analysis instructions, up to the language setting. */
  const AnalysisIntroOpening: string := "请分析以下文本并提出修改建议，按以下格式响应：\n"
  const AnalysisHead: string := AnalysisIntroOpening + Assemble(AnalysisIntroPiece, 0, 9)
  const AnalysisRules: string := "）响应\n- 避免使用技术术语\n\n"
  const AnalysisMarker: string := "待分析文本：\n"

  /** The modification instructions, up to the original text. */
  const ModificationIntroOpening: string := "请根据以下建议修改原始文本，要求：\n"
  const ModificationHead: string := ModificationIntroOpening + Assemble(ModificationIntroPiece, 0, 3)
  const SuggestionsMarker: string := "建议内容：\n"
  const ModifiedMarker: string := "修改后的文本："

  const QuestionHead: string := "请基于以下文本回答问题：\n"
  const QuestionMarker: string := "问题："
  /** The answering rules, between the question and the answer marker. */
  const AnswerRulesOpening: string := "\n"
  const QuestionRules: string := AnswerRulesOpening + Assemble(AnswerRulesPiece, 0, 4)
  const AnswerMarker: string := "回答："

  /** The translation instructions, up to the text. */
  const TranslationIntroOpening: string := "Please translate the "
  const TranslationHead: string := TranslationIntroOpening + Assemble(TranslationIntroPiece, 0, 12)
  const TranslationMarker: string := "Translation:"

  /** The language instruction for "zh". */
  const ChineseInstructionOpening: string := "请用中文（使用中文标点）创建一个简洁、高效、"
  const ZhInstruction: string := ChineseInstructionOpening + Assemble(ChineseInstructionPiece, 0, 7)
  /** The language instruction for every other language. */
  const EnglishInstructionOpening: string := "Please write the summary in "
  const EnInstruction: string := EnglishInstructionOpening + Assemble(EnglishInstructionPiece, 0, 10)

  /** Pieces `i` to `n - 1` of a text, joined. */
  function Assemble(piece: nat -> string, i: nat, n: nat): string
    decreases n - i
  {
    if i >= n then "" else piece(i) + Assemble(piece, i + 1, n)
  }

  function WeeklyIntroPiece(i: nat): string
  {
    match i
    case 0 => "work summary that "
    case 1 => "captures key "
    case 2 => "accomplishments, "
    case 3 => "challenges, and "
    case 4 => "insights "
    case 5 => "concisely.  \n"
    case 6 => "Focus on **real "
    case 7 => "impact** rather "
    case 8 => "than listing "
    case 9 => "tasks. **Avoid "
    case 10 => "generic "
    case 11 => "statements and "
    case 12 => "unnecessary "
    case 13 => "verbosity**.\n\nIf "
    case 14 => "the content "
    case 15 => "includes a "
    case 16 => "specific week "
    case 17 => "number, begin "
    case 18 => "with:\n### YYYY - "
    case 19 => "Week N\n(e.g., "
    case 20 => "\"### 2025 - Week "
    case 21 => "4\")  \nOtherwise, "
    case 22 => "omit this header.\n"
    case 23 => "\n**Structure:**\n"
    case 24 => "1. Start with "
    case 25 => "\"主要完成事项：\"  \n2. "
    case 26 => "**Summarize key "
    case 27 => "accomplishments "
    case 28 => "with tangible "
    case 29 => "impact:**  \n- Use "
    case 30 => "numbered points "
    case 31 => "(1., 2., 3.)  \n- "
    case 32 => "Include **only "
    case 33 => "meaningful, "
    case 34 => "high-impact "
    case 35 => "work**  \n- Avoid "
    case 36 => "unnecessary "
    case 37 => "details—focus on "
    case 38 => "the **why** and "
    case 39 => "**results**  \n- "
    case 40 => "Use **bold (**) "
    case 41 => "to emphasize "
    case 42 => "critical terms, "
    case 43 => "projects, or "
    case 44 => "metrics  \n3. End "
    case 45 => "with a short "
    case 46 => "summary with "
    case 47 => "three sections:\n- "
    case 48 => "**成效：** (What "
    case 49 => "measurable "
    case 50 => "results were "
    case 51 => "achieved?)\n- **改进："
    case 52 => "** (What "
    case 53 => "challenges or "
    case 54 => "lessons were "
    case 55 => "identified?)\n- "
    case 56 => "**后续重点：** (What "
    case 57 => "are the next "
    case 58 => "critical "
    case 59 => "actions?)\n\n"
    case _ => ""
  }

  function AnalysisIntroPiece(i: nat): string
  {
    match i
    case 0 => "1. **核心问题**："
    case 1 => "（用项目符号列出主要问题）\n2. "
    case 2 => "**优化建议**："
    case 3 => "（分点给出具体建议）\n3. "
    case 4 => "**改进示例**："
    case 5 => "（提供修改后的示例段落）\n\n"
    case 6 => "分析要求：\n- "
    case 7 => "保持专业但友好的语气\n- "
    case 8 => "使用用户当前语言（"
    case _ => ""
  }

  function ModificationIntroPiece(i: nat): string
  {
    match i
    case 0 => "1. 保持原文核心内容\n2. "
    case 1 => "仅应用合理建议\n3. "
    case 2 => "输出最终修改版\n\n原始文本：\n"
    case _ => ""
  }

  function AnswerRulesPiece(i: nat): string
  {
    match i
    case 0 => "\n要求：\n1. "
    case 1 => "答案需结构化分点说明\n2. "
    case 2 => "包含具体示例（如适用）\n3. "
    case 3 => "使用与问题相同的语言回答\n\n"
    case _ => ""
  }

  function TranslationIntroPiece(i: nat): string
  {
    match i
    case 0 => "following text to "
    case 1 => "concise English. \n"
    case 2 => "Keep the "
    case 3 => "translation brief "
    case 4 => "and to the point "
    case 5 => "while preserving "
    case 6 => "the original "
    case 7 => "meaning.\nDo not "
    case 8 => "add any "
    case 9 => "explanations or "
    case 10 => "notes.\n\nText to "
    case 11 => "translate:\n"
    case _ => ""
  }

  function ChineseInstructionPiece(i: nat): string
  {
    match i
    case 0 => "有价值的工作周报。避免冗长、"
    case 1 => "空洞的描述，聚焦**实际成果**、"
    case 2 => "**关键挑战**和**下一步行动**"
    case 3 => "。不简单罗列工作内容，"
    case 4 => "而是突出影响和价值。"
    case 5 => "使用'主要完成事项："
    case 6 => "'作为主要部分的标题。"
    case _ => ""
  }

  function EnglishInstructionPiece(i: nat): string
  {
    match i
    case 0 => "English, focusing "
    case 1 => "on concrete "
    case 2 => "outcomes, "
    case 3 => "challenges, and "
    case 4 => "next steps. Avoid "
    case 5 => "fluff and "
    case 6 => "redundant "
    case 7 => "details. "
    case 8 => "Highlight impact "
    case 9 => "and value."
    case _ => ""
  }

  predicate StartsWith(s: string, p: string)
  {
    |p| <= |s| && s[..|p|] == p
  }

  predicate EndsWith(s: string, q: string)
  {
    |q| <= |s| && s[|s| - |q|..] == q
  }

  predicate OccursAt(s: string, t: string, i: nat)
  {
    i + |t| <= |s| && s[i..i + |t|] == t
  }

  /** `x` occurs in `s`, and `y` occurs after it without overlapping. */
  predicate OccursBefore(s: string, x: string, y: string)
  {
    exists i: nat, j: nat | i <= |s| && j <= |s| :: OccursAt(s, x, i) && OccursAt(s, y, j) && i + |x| <= j
  }

  /** The constructor: the language defaults to "zh" when none is given. */
  function NewAgent(language: Option<string>): (a: Agent)
    ensures language.None? ==> a.language == DefaultLanguage
    ensures language.Some? ==> a.language == language.value
  {
    Agent(language.GetOr(DefaultLanguage))
  }

  /** `getLanguagePrompt`: the Chinese instruction exactly for "zh", the
      English one for every other language. */
  function LanguagePrompt(a: Agent): (r: string)
    ensures r == ZhInstruction <==> a.language == "zh"
    ensures r == EnInstruction <==> a.language != "zh"
  {
    InstructionsDiffer();
    if a.language == "zh" then ZhInstruction else EnInstruction
  }

  function WeeklySummaryPrompt(a: Agent, text: string): (r: string)
    ensures StartsWith(r, WeeklyHead)
    ensures OccursAt(r, LanguagePrompt(a), |WeeklyHead|)
    ensures EndsWith(r, AnalyzeMarker + text)
  {
    FiveParts(WeeklyHead, LanguagePrompt(a), "\n\n", AnalyzeMarker, text);
    WeeklyHead + LanguagePrompt(a) + "\n\n" + AnalyzeMarker + text
  }

  function AnalysisPrompt(a: Agent, text: string): (r: string)
    ensures StartsWith(r, AnalysisHead)
    ensures OccursAt(r, a.language, |AnalysisHead|)
    ensures EndsWith(r, AnalysisMarker + text)
  {
    FiveParts(AnalysisHead, a.language, AnalysisRules, AnalysisMarker, text);
    AnalysisHead + a.language + AnalysisRules + AnalysisMarker + text
  }

  function ModificationPrompt(a: Agent, original: string, suggestions: string): (r: string)
    ensures StartsWith(r, ModificationHead)
    ensures OccursBefore(r, original, suggestions)
    ensures EndsWith(r, ModifiedMarker)
  {
    SevenParts(ModificationHead, original, "\n\n", SuggestionsMarker, suggestions, "\n\n", ModifiedMarker);
    ModificationHead + original + "\n\n" + SuggestionsMarker + suggestions + "\n\n" + ModifiedMarker
  }

  function QuestionPrompt(a: Agent, original: string, question: string): (r: string)
    ensures StartsWith(r, QuestionHead)
    ensures OccursBefore(r, original, QuestionMarker + question)
    ensures EndsWith(r, AnswerMarker)
  {
    SevenParts(QuestionHead, original, "\n\n", QuestionMarker, question, QuestionRules, AnswerMarker);
    QuestionHead + original + "\n\n" + QuestionMarker + question + QuestionRules + AnswerMarker
  }

  function TranslationPrompt(a: Agent, text: string): (r: string)
    ensures StartsWith(r, TranslationHead)
    ensures EndsWith(r, text + "\n\n" + TranslationMarker)
  {
    FourParts(TranslationHead, text, "\n\n", TranslationMarker);
    TranslationHead + text + "\n\n" + TranslationMarker
  }

  /** The prompt each public method sends to the completion service. */
  function SentPrompt(a: Agent, req: Request): string
  {
    match req
    case GenerateWeeklySummary(t) => WeeklySummaryPrompt(a, t)
    case AnalyzeText(t) => AnalysisPrompt(a, t)
    case ProcessModification(o, s) => ModificationPrompt(a, o, s)
    case AskAI(o, q) => QuestionPrompt(a, o, q)
    case TranslateToEnglish(t) => TranslationPrompt(a, t)
  }

  /** The first two characters of a text (empty for shorter texts). */
  function Signature(s: string): string
  {
    if |s| < 2 then "" else s[..2]
  }

  // ------------------------------------------- the shapes of the templates

  lemma FourParts(h: string, t: string, s: string, m: string)
    ensures StartsWith(h + t + s + m, h)
    ensures EndsWith(h + t + s + m, t + s + m)
  {
    var r := h + t + s + m;
    assert r[..|h|] == h;
    assert r[|r| - |t + s + m|..] == t + s + m;
  }

  lemma FiveParts(h: string, x: string, s: string, m: string, t: string)
    ensures StartsWith(h + x + s + m + t, h)
    ensures OccursAt(h + x + s + m + t, x, |h|)
    ensures EndsWith(h + x + s + m + t, m + t)
  {
    var r := h + x + s + m + t;
    assert r[..|h|] == h;
    assert r[|h|..|h| + |x|] == x;
    assert r[|r| - |m + t|..] == m + t;
  }

  lemma SevenParts(h: string, x: string, s: string, m: string, y: string, u: string, e: string)
    ensures var r := h + x + s + m + y + u + e;
            && StartsWith(r, h)
            && OccursAt(r, x, |h|)
            && OccursAt(r, m + y, |h| + |x| + |s|)
            && OccursAt(r, y, |h| + |x| + |s| + |m|)
            && OccursBefore(r, x, y)
            && OccursBefore(r, x, m + y)
            && EndsWith(r, e)
  {
    var r := h + x + s + m + y + u + e;
    assert r[..|h|] == h;
    var i := |h|;
    var j := |h| + |x| + |s|;
    assert r[i..i + |x|] == x;
    assert r[j..j + |m + y|] == m + y;
    assert r[j + |m|..j + |m| + |y|] == y;
    assert r[|r| - |e|..] == e;
    assert OccursAt(r, x, i) && OccursAt(r, y, j + |m|);
    assert OccursAt(r, x, i) && OccursAt(r, m + y, j);
  }

  /** Equal strings with equal beginnings have equal endings. */
  lemma CancelLeft(p: string, t1: string, t2: string)
    requires p + t1 == p + t2
    ensures t1 == t2
  {
    assert t1 == (p + t1)[|p|..];
  }

  lemma CancelMiddle(p: string, t1: string, t2: string, s: string, m: string)
    requires p + t1 + s + m == p + t2 + s + m
    ensures t1 == t2
  {
    var r := p + t1 + s + m;
    assert |t1| == |t2|;
    assert t1 == r[|p|..|p| + |t1|];
  }

  /** A string that starts with `h` has the signature of `h`. */
  lemma SignatureOfPrefix(r: string, h: string)
    requires StartsWith(r, h) && |h| >= 2
    ensures Signature(r) == Signature(h)
  {
    assert r[..2] == r[..|h|][..2];
  }

  lemma SignatureOfAppend(x: string, y: string)
    requires |x| >= 2
    ensures Signature(x + y) == Signature(x)
  {
    assert (x + y)[..2] == x[..2];
  }

  // ---------------------------------------------------------------- lemmas

  lemma InstructionsDiffer()
    ensures ZhInstruction != EnInstruction
  {
    SignatureOfAppend(ChineseInstructionOpening, Assemble(ChineseInstructionPiece, 0, 7));
    SignatureOfAppend(EnglishInstructionOpening, Assemble(EnglishInstructionPiece, 0, 10));
  }

  lemma WeeklyHeadSignature()
    ensures Signature(WeeklyHead) == "Cr" && |WeeklyHead| >= 2
  {
    SignatureOfAppend(WeeklyIntroOpening, Assemble(WeeklyIntroPiece, 0, 60));
  }

  lemma AnalysisHeadSignature()
    ensures Signature(AnalysisHead) == "请分" && |AnalysisHead| >= 2
  {
    SignatureOfAppend(AnalysisIntroOpening, Assemble(AnalysisIntroPiece, 0, 9));
  }

  lemma ModificationHeadSignature()
    ensures Signature(ModificationHead) == "请根" && |ModificationHead| >= 2
  {
    SignatureOfAppend(ModificationIntroOpening, Assemble(ModificationIntroPiece, 0, 3));
  }

  lemma TranslationHeadSignature()
    ensures Signature(TranslationHead) == "Pl" && |TranslationHead| >= 2
  {
    SignatureOfAppend(TranslationIntroOpening, Assemble(TranslationIntroPiece, 0, 12));
  }

  lemma QuestionHeadSignature()
    ensures Signature(QuestionHead) == "请基" && |QuestionHead| >= 2
  {
  }

  /** An agent built without a language uses the Chinese instruction. */
  lemma DefaultAgentIsChinese()
    ensures LanguagePrompt(NewAgent(None)) == ZhInstruction
  {
  }

  /** The translation prompt does not depend on the language setting. */
  lemma TranslationIgnoresLanguage(a: Agent, b: Agent, text: string)
    ensures TranslationPrompt(a, text) == TranslationPrompt(b, text)
  {
  }

  /** Each single-text prompt determines its text: different texts give
      different prompts. */
  lemma WeeklySummaryPromptInjective(a: Agent, t1: string, t2: string)
    requires WeeklySummaryPrompt(a, t1) == WeeklySummaryPrompt(a, t2)
    ensures t1 == t2
  {
    CancelLeft(WeeklyHead + LanguagePrompt(a) + "\n\n" + AnalyzeMarker, t1, t2);
  }

  lemma AnalysisPromptInjective(a: Agent, t1: string, t2: string)
    requires AnalysisPrompt(a, t1) == AnalysisPrompt(a, t2)
    ensures t1 == t2
  {
    CancelLeft(AnalysisHead + a.language + AnalysisRules + AnalysisMarker, t1, t2);
  }

  lemma TranslationPromptInjective(a: Agent, t1: string, t2: string)
    requires TranslationPrompt(a, t1) == TranslationPrompt(a, t2)
    ensures t1 == t2
  {
    CancelMiddle(TranslationHead, t1, t2, "\n\n", TranslationMarker);
  }

  /** The first two characters of the prompt each kind of request sends. */
  function KindSignature(r: Request): string
  {
    match r
    case GenerateWeeklySummary(_) => "Cr"
    case AnalyzeText(_) => "请分"
    case ProcessModification(_, _) => "请根"
    case AskAI(_, _) => "请基"
    case TranslateToEnglish(_) => "Pl"
  }

  /** Each kind of request yields a prompt with its own first two characters. */
  lemma SignatureOfKind(a: Agent, r: Request)
    ensures Signature(SentPrompt(a, r)) == KindSignature(r)
  {
    var p := SentPrompt(a, r);
    match r
    case GenerateWeeklySummary(_) =>
      WeeklyHeadSignature();
      SignatureOfPrefix(p, WeeklyHead);
    case AnalyzeText(_) =>
      AnalysisHeadSignature();
      SignatureOfPrefix(p, AnalysisHead);
    case ProcessModification(_, _) =>
      ModificationHeadSignature();
      SignatureOfPrefix(p, ModificationHead);
    case AskAI(_, _) =>
      QuestionHeadSignature();
      SignatureOfPrefix(p, QuestionHead);
    case TranslateToEnglish(_) =>
      TranslationHeadSignature();
      SignatureOfPrefix(p, TranslationHead);
  }

  /** The prompt sent tells which public method was called. */
  lemma SentPromptDeterminesKind(a: Agent, r1: Request, r2: Request)
    requires SentPrompt(a, r1) == SentPrompt(a, r2)
    ensures r1.GenerateWeeklySummary? == r2.GenerateWeeklySummary?
    ensures r1.AnalyzeText? == r2.AnalyzeText?
    ensures r1.ProcessModification? == r2.ProcessModification?
    ensures r1.AskAI? == r2.AskAI?
    ensures r1.TranslateToEnglish? == r2.TranslateToEnglish?
  {
    SignatureOfKind(a, r1);
    SignatureOfKind(a, r2);
    KindSignatureInjective(r1, r2);
  }

  lemma KindSignatureInjective(r1: Request, r2: Request)
    requires KindSignature(r1) == KindSignature(r2)
    ensures r1.GenerateWeeklySummary? == r2.GenerateWeeklySummary?
    ensures r1.AnalyzeText? == r2.AnalyzeText?
    ensures r1.ProcessModification? == r2.ProcessModification?
    ensures r1.AskAI? == r2.AskAI?
    ensures r1.TranslateToEnglish? == r2.TranslateToEnglish?
  {
  }

  /** For the single-text methods the prompt sent also tells the argument. */
  lemma SentPromptDeterminesRequest(a: Agent, r1: Request, r2: Request)
    requires SentPrompt(a, r1) == SentPrompt(a, r2)
    requires r1.GenerateWeeklySummary? || r1.AnalyzeText? || r1.TranslateToEnglish?
    ensures r1 == r2
  {
    SentPromptDeterminesKind(a, r1, r2);
    if r1.GenerateWeeklySummary? {
      WeeklySummaryPromptInjective(a, r1.text, r2.text);
    } else if r1.AnalyzeText? {
      AnalysisPromptInjective(a, r1.text, r2.text);
    } else {
      TranslationPromptInjective(a, r1.text, r2.text);
    }
  }

  lemma Regroup(h: string, o: string, n: string, m: string, y: string, z: string, e: string)
    ensures h + (o + n + m + y) + n + m + z + n + e == h + o + n + m + (y + n + m + z) + n + e
  {
  }

  /** The modification prompt does not determine where the original text ends
      and the suggestions begin once the original contains the separator. */
  lemma ModificationPromptSplitAmbiguous(a: Agent, o: string, y: string, z: string)
    ensures ModificationPrompt(a, o + "\n\n" + SuggestionsMarker + y, z)
         == ModificationPrompt(a, o, y + "\n\n" + SuggestionsMarker + z)
  {
    Regroup(ModificationHead, o, "\n\n", SuggestionsMarker, y, z, ModifiedMarker);
  }

  lemma RegroupAround(h: string, o: string, n: string, m: string, y: string, z: string, t: string, e: string)
    ensures h + (o + n + m + y) + n + m + z + t + e == h + o + n + m + (y + n + m + z) + t + e
  {
  }

  /** The question prompt does not determine where the original text ends and
      the question begins once the original contains the question marker. */
  lemma QuestionPromptSplitAmbiguous(a: Agent, o: string, y: string, z: string)
    ensures QuestionPrompt(a, o + "\n\n" + QuestionMarker + y, z)
         == QuestionPrompt(a, o, y + "\n\n" + QuestionMarker + z)
  {
    RegroupAround(QuestionHead, o, "\n\n", QuestionMarker, y, z, QuestionRules, AnswerMarker);
  }
}
