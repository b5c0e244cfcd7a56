/**
 * The prompt objects of PromptManagement.py: the text each `get_prompt`
 * assembles from its optional sections, the (temperature, response tokens)
 * pair the `PromptManager` fixes for each, their `prompt_tokens` estimates
 * and the conversation token buffer.
 */
module PromptManagement {
  import opened Text

  /** The nine prompt objects a `PromptManager` holds. */
  datatype PromptKind =
    | Anticipation
    | Conversation
    | EideticSummary
    | EideticToEpisodicSummary
    | EpisodicSummary
    | ThemeExtraction
    | RecallExtraction
    | RecallThemeExtraction
    | RecallRelevancy

  /** A prompt object: what `_Prompt.__init__` stores and its two getters hand back. */
  datatype Prompt = Prompt(kind: PromptKind, temperature: real, responseTokens: nat)

  /**
   * The `PromptManager` table: the conversational prompts that write for
   * the user sample at 0.7, every prompt that only condenses or classifies
   * is deterministic; only the conversation gets 600 response tokens, the
   * summaries of summaries and the recall checks 500, the rest 250.
   */
  function Manager(k: PromptKind): (p: Prompt)
    ensures p.kind == k
    ensures p.temperature == 0.7 <==> k in {Conversation, RecallExtraction, RecallRelevancy}
    ensures p.temperature == 0.0 <==> k !in {Conversation, RecallExtraction, RecallRelevancy}
    ensures p.responseTokens == 600 <==> k == Conversation
    ensures p.responseTokens == 500 <==> k in {EideticToEpisodicSummary, EpisodicSummary, RecallExtraction, RecallRelevancy}
    ensures p.responseTokens == 250 <==> k in {Anticipation, EideticSummary, ThemeExtraction, RecallThemeExtraction}
  {
    match k
    case Anticipation => Prompt(k, 0.0, 250)
    case Conversation => Prompt(k, 0.7, 600)
    case EideticSummary => Prompt(k, 0.0, 250)
    case EideticToEpisodicSummary => Prompt(k, 0.0, 500)
    case EpisodicSummary => Prompt(k, 0.0, 500)
    case ThemeExtraction => Prompt(k, 0.0, 250)
    case RecallExtraction => Prompt(k, 0.7, 500)
    case RecallThemeExtraction => Prompt(k, 0.0, 250)
    case RecallRelevancy => Prompt(k, 0.7, 500)
  }

  /** The fixed sentences the prompts are built around. */
  datatype Wording = Wording(
    anticipationIntro: string,
    conversationIntro: string,
    conversationOutro: string,
    eideticSummaryIntro: string,
    eideticSummaryMiddle: string,
    eideticToEpisodicIntro: string,
    eideticToEpisodicInstructions: string,
    episodicSummaryIntro: string,
    themesIntro: string,
    themeExtractionInstructions: string,
    recallExtractionIntro: string,
    recallExtractionQuestion: string,
    recallThemeInstructions: string,
    relevancyIntro: string,
    relevancyQuestion: string)

  /** The sentences PromptManagement.py writes. */
  const SourceWording: Wording := Wording(
    ", infer the USER's actual information needs. Attempt to anticipate what the user truly needs even if the USER does not fully understand it yet themselves, or is asking the wrong questions. However, the USER may change topics, in which case their needs will have changed. Emphasize the needs of the last message by the USER.\n",
    "I am a chatbot named RAVEN. My goals are to reduce suffering, increase prosperity, and increase understanding. I will review the ",
    " below and then I will provide a detailed answer with emphasis on the last message by the user and my anticipation of their needs:\n",
    "I will review the message authored by ",
    " and summarize it so that all salient elements are represented in as little comprehensible text possible.\n",
    "I will read the following conversation between USER and RAVEN below and then follow the directions in the INSTRUCTIONS section.\n",
    "\nINSTRUCTIONS:I will summarize the conversation so that salient elements are represented in as little comprehensible text possible.",
    "I will condense the following notes so that all salient elements are represented in as little comprehensible text possible.\n",
    "Given the following chat log, identify the key themes of this information. Follow the INSTRUCTIONS at the end of the prompt.\n",
    "\nINSTRUCTIONS:\nI will list all themes and format my response like this: ",
    "Review the conversation log between RAVEN and USER then follow the INSTRUCTIONS.\n",
    "\nINSTRUCTIONS:\nBased on the information in the conversation log, with emphasis on the USER's last message, is there sufficient detailed information to address everything in USER's last message?",
    "\nINSTRUCTIONS:\nWith emphasis on the USER's last message, list the themes of the user's request. Format your response like this: ",
    "Review the most recent message from USER, the potential goals, and the potentially relevant information, then follow the INSTRUCTIONS at the end of the prompt.\n",
    "\nINSTRUCTIONS:\nBased only on the potentially relevant information, is there any pertinent information related to addressing the USER's most recent message or the potential goals?")

  lemma EndsWithConcat(a: string, b: string)
    ensures EndsWith(a + b, b)
  {
    assert (a + b)[|a + b| - |b|..] == b;
  }

  lemma StartsWithConcat(a: string, b: string)
    ensures StartsWith(a + b, a)
  {
    assert (a + b)[..|a|] == a;
  }

  /** A titled block, present only when its argument is not `None`. */
  function Block(title: string, body: Option<string>): string {
    match body
    case None => []
    case Some(b) => title + ":\n" + b + "\n"
  }

  lemma BlockShape(title: string, body: Option<string>)
    ensures body.None? ==> Block(title, body) == []
    ensures body.Some? ==> StartsWith(Block(title, body), title + ":\n") && EndsWith(Block(title, body), body.value + "\n")
  {
    if body.Some? {
      var b := body.value;
      StartsWithConcat(title + ":\n", b + "\n");
      EndsWithConcat(title + ":\n", b + "\n");
      assert title + ":\n" + (b + "\n") == title + ":\n" + b + "\n";
    }
  }

  /** The sections a conversational prompt announces: the notes only when given. */
  function SectionsPhrase(withNotes: bool): string {
    (if withNotes then "conversation notes and " else "") + "conversation log"
  }

  lemma SectionsPhraseShape(withNotes: bool)
    ensures EndsWith(SectionsPhrase(withNotes), "conversation log")
    ensures withNotes <==> StartsWith(SectionsPhrase(withNotes), "conversation notes")
  {
    EndsWithConcat(if withNotes then "conversation notes and " else "", "conversation log");
    if withNotes {
      StartsWithConcat("conversation notes", " and conversation log");
      assert SectionsPhrase(withNotes) == "conversation notes" + " and conversation log";
    }
  }

  /** `_Anticipation.get_prompt(log, notes)`. */
  function AnticipationPrompt(w: Wording, log: string, notes: Option<string>): string {
    var head := "Given the following " + SectionsPhrase(notes.Some?);
    var tail := w.anticipationIntro + Block("CONVERSATION NOTES", notes) + "CONVERSATION LOG:\n" + log;
    head + tail
  }

  lemma AnticipationShape(w: Wording, log: string, notes: Option<string>)
    ensures StartsWith(AnticipationPrompt(w, log, notes), "Given the following " + SectionsPhrase(notes.Some?))
    ensures EndsWith(AnticipationPrompt(w, log, notes), w.anticipationIntro + Block("CONVERSATION NOTES", notes) + "CONVERSATION LOG:\n" + log)
  {
    var head := "Given the following " + SectionsPhrase(notes.Some?);
    var tail := w.anticipationIntro + Block("CONVERSATION NOTES", notes) + "CONVERSATION LOG:\n" + log;
    StartsWithConcat(head, tail);
    EndsWithConcat(head, tail);
  }

  /**
   * `_Conversation.get_prompt(log, anticipation, notes)`: the anticipated
   * needs, the notes and the log, in that order and each only when given,
   * then RAVEN's cue.
   */
  function ConversationPrompt(w: Wording, log: string, anticipation: Option<string>, notes: Option<string>): string {
    var head := w.conversationIntro + SectionsPhrase(notes.Some?);
    var tail := w.conversationOutro + Block("ANTICIPATED USER NEEDS", anticipation) + Block("CONVERSATION NOTES", notes) + "CONVERSATION LOG:\n" + log + "\nRAVEN:";
    head + tail
  }

  lemma ConversationShape(w: Wording, log: string, anticipation: Option<string>, notes: Option<string>)
    ensures StartsWith(ConversationPrompt(w, log, anticipation, notes), w.conversationIntro + SectionsPhrase(notes.Some?))
    ensures EndsWith(ConversationPrompt(w, log, anticipation, notes), w.conversationOutro + Block("ANTICIPATED USER NEEDS", anticipation) + Block("CONVERSATION NOTES", notes) + "CONVERSATION LOG:\n" + log + "\nRAVEN:")
    ensures EndsWith(ConversationPrompt(w, log, anticipation, notes), "\nRAVEN:")
  {
    var head := w.conversationIntro + SectionsPhrase(notes.Some?);
    var tail := w.conversationOutro + Block("ANTICIPATED USER NEEDS", anticipation) + Block("CONVERSATION NOTES", notes) + "CONVERSATION LOG:\n" + log + "\nRAVEN:";
    StartsWithConcat(head, tail);
    EndsWithConcat(head, tail);
    EndsWithConcat(head + tail[..|tail| - 7], "\nRAVEN:");
    assert head + tail == head + tail[..|tail| - 7] + "\nRAVEN:";
  }

  /** `_EideticSummary.get_prompt(speaker, content)`: the speaker is named before the message. */
  function EideticSummaryPrompt(w: Wording, speaker: string, content: string): string {
    var head := w.eideticSummaryIntro + speaker;
    head + (w.eideticSummaryMiddle + content)
  }

  lemma EideticSummaryShape(w: Wording, speaker: string, content: string)
    ensures StartsWith(EideticSummaryPrompt(w, speaker, content), w.eideticSummaryIntro + speaker)
    ensures EndsWith(EideticSummaryPrompt(w, speaker, content), w.eideticSummaryMiddle + content)
  {
    var head := w.eideticSummaryIntro + speaker;
    StartsWithConcat(head, w.eideticSummaryMiddle + content);
    EndsWithConcat(head, w.eideticSummaryMiddle + content);
  }

  /** `_EideticToEpisodicSummary.get_prompt(content)`: the conversation, then the instructions. */
  function EideticToEpisodicPrompt(w: Wording, content: string): string {
    w.eideticToEpisodicIntro + (content + w.eideticToEpisodicInstructions)
  }

  lemma EideticToEpisodicShape(w: Wording, content: string)
    ensures StartsWith(EideticToEpisodicPrompt(w, content), w.eideticToEpisodicIntro + content)
    ensures EndsWith(EideticToEpisodicPrompt(w, content), content + w.eideticToEpisodicInstructions)
  {
    StartsWithConcat(w.eideticToEpisodicIntro + content, w.eideticToEpisodicInstructions);
    EndsWithConcat(w.eideticToEpisodicIntro, content + w.eideticToEpisodicInstructions);
  }

  /** `_EpisodicSummary.get_prompt(content)`: the notes come last. */
  function EpisodicSummaryPrompt(w: Wording, content: string): string {
    w.episodicSummaryIntro + content
  }

  lemma EpisodicSummaryShape(w: Wording, content: string)
    ensures EndsWith(EpisodicSummaryPrompt(w, content), content) && |EpisodicSummaryPrompt(w, content)| == |w.episodicSummaryIntro| + |content|
  {
    EndsWithConcat(w.episodicSummaryIntro, content);
  }

  /** The answer format both theme prompts ask for. */
  const ThemesFormat: string := "{\"themes\":[]}"

  /** `_ThemeExtraction.get_prompt(content)`: the log, then the `{"themes":[]}` format. */
  function ThemeExtractionPrompt(w: Wording, content: string): string {
    var tail := content + w.themeExtractionInstructions + ThemesFormat;
    w.themesIntro + tail
  }

  lemma ThemeExtractionShape(w: Wording, content: string)
    ensures StartsWith(ThemeExtractionPrompt(w, content), w.themesIntro + content)
    ensures EndsWith(ThemeExtractionPrompt(w, content), content + w.themeExtractionInstructions + ThemesFormat)
  {
    var tail := content + w.themeExtractionInstructions + ThemesFormat;
    StartsWithConcat(w.themesIntro + content, w.themeExtractionInstructions + ThemesFormat);
    EndsWithConcat(w.themesIntro, tail);
  }

  /** `_RecallExtraction.get_prompt(content)`: the log, then the sufficiency question. */
  function RecallExtractionPrompt(w: Wording, content: string): string {
    w.recallExtractionIntro + (content + w.recallExtractionQuestion)
  }

  lemma RecallExtractionShape(w: Wording, content: string)
    ensures StartsWith(RecallExtractionPrompt(w, content), w.recallExtractionIntro + content)
    ensures EndsWith(RecallExtractionPrompt(w, content), content + w.recallExtractionQuestion)
  {
    StartsWithConcat(w.recallExtractionIntro + content, w.recallExtractionQuestion);
    EndsWithConcat(w.recallExtractionIntro, content + w.recallExtractionQuestion);
  }

  /** `_RecallThemeExtraction.get_prompt(content)`: the log, then the `{"themes":[]}` format. */
  function RecallThemeExtractionPrompt(w: Wording, content: string): string {
    var tail := content + w.recallThemeInstructions + ThemesFormat;
    w.themesIntro + tail
  }

  lemma RecallThemeExtractionShape(w: Wording, content: string)
    ensures StartsWith(RecallThemeExtractionPrompt(w, content), w.themesIntro + content)
    ensures EndsWith(RecallThemeExtractionPrompt(w, content), content + w.recallThemeInstructions + ThemesFormat)
  {
    var tail := content + w.recallThemeInstructions + ThemesFormat;
    StartsWithConcat(w.themesIntro + content, w.recallThemeInstructions + ThemesFormat);
    EndsWithConcat(w.themesIntro, tail);
  }

  /** The content of a relevancy prompt: the message, the goals, the information, in that order. */
  function RelevancyContent(recentMessage: string, potentialGoals: string, relevantContent: string): string {
    "MOST RECENT MESSAGE FROM USER:\n" + recentMessage + "\nPOTENTIAL GOALS:\n" + potentialGoals +
    "\nPOTENTIALLY RELEVANT INFORMATION:\n" + relevantContent
  }

  /**
   * `_RecallRelevancy.get_prompt(recent_message, potential_goals,
   * relevant_content)`: the three blocks in that order, then the question.
   */
  function RecallRelevancyPrompt(w: Wording, recentMessage: string, potentialGoals: string, relevantContent: string): string {
    var content := RelevancyContent(recentMessage, potentialGoals, relevantContent);
    w.relevancyIntro + (content + w.relevancyQuestion)
  }

  lemma RecallRelevancyShape(w: Wording, recentMessage: string, potentialGoals: string, relevantContent: string)
    ensures var content := RelevancyContent(recentMessage, potentialGoals, relevantContent);
            var r := RecallRelevancyPrompt(w, recentMessage, potentialGoals, relevantContent);
            StartsWith(r, w.relevancyIntro + content) && EndsWith(r, content + w.relevancyQuestion)
  {
    var content := RelevancyContent(recentMessage, potentialGoals, relevantContent);
    StartsWithConcat(w.relevancyIntro + content, w.relevancyQuestion);
    EndsWithConcat(w.relevancyIntro, content + w.relevancyQuestion);
  }

  /** The one-space argument every `prompt_tokens` passes to `get_prompt`. */
  const Blank: string := " "

  /**
   * The `prompt_tokens` property as the source writes it: `estimate` of the
   * prompt built from blank arguments. `None`: it raises. The base property
   * raises `NotImplementedError` where a class does not override it
   * (`_EpisodicSummary`); `_EideticToEpisodicSummary` passes three
   * arguments to a one-argument `get_prompt` and `_RecallRelevancy` one to
   * a three-argument one; `_RecallExtraction` calls its
   * `system_instructions`, which is a string. Each of these three is a
   * `TypeError`.
   */
  function PromptTokensAsWritten(w: Wording, k: PromptKind, estimate: string -> nat): (r: Option<nat>)
    ensures r.None? <==> k in {EideticToEpisodicSummary, EpisodicSummary, RecallExtraction, RecallRelevancy}
  {
    match k
    case Anticipation => Some(estimate(AnticipationPrompt(w, Blank, Some(Blank))))
    case Conversation => Some(estimate(ConversationPrompt(w, Blank, Some(Blank), Some(Blank))))
    case EideticSummary => Some(estimate(EideticSummaryPrompt(w, Blank, Blank)))
    case ThemeExtraction => Some(estimate(ThemeExtractionPrompt(w, Blank)))
    case RecallThemeExtraction => Some(estimate(RecallThemeExtractionPrompt(w, Blank)))
    case _ => None
  }

  /** The prompt built with a blank for every argument, as the working estimates build it. */
  function BlankPrompt(w: Wording, k: PromptKind): string {
    match k
    case Anticipation => AnticipationPrompt(w, Blank, Some(Blank))
    case Conversation => ConversationPrompt(w, Blank, Some(Blank), Some(Blank))
    case EideticSummary => EideticSummaryPrompt(w, Blank, Blank)
    case EideticToEpisodicSummary => EideticToEpisodicPrompt(w, Blank)
    case EpisodicSummary => EpisodicSummaryPrompt(w, Blank)
    case ThemeExtraction => ThemeExtractionPrompt(w, Blank)
    case RecallExtraction => RecallExtractionPrompt(w, Blank)
    case RecallThemeExtraction => RecallThemeExtractionPrompt(w, Blank)
    case RecallRelevancy => RecallRelevancyPrompt(w, Blank, Blank, Blank)
  }

  /**
   * `prompt_tokens` as evidently intended: the estimate of the blank
   * prompt for every prompt object, plus, for `_RecallExtraction`, the
   * tokens of its system instructions.
   */
  function PromptTokens(w: Wording, k: PromptKind, estimate: string -> nat, instructionTokens: nat): (r: nat)
    ensures r >= estimate(BlankPrompt(w, k))
    ensures k != RecallExtraction ==> r == estimate(BlankPrompt(w, k))
    ensures k == RecallExtraction ==> r == estimate(BlankPrompt(w, k)) + instructionTokens
  {
    estimate(BlankPrompt(w, k)) + if k == RecallExtraction then instructionTokens else 0
  }

  /**
   * Where the written property does not raise it gives the intended
   * estimate; it raises for four of the nine prompts.
   */
  lemma PromptTokensRaise(w: Wording, estimate: string -> nat, instructionTokens: nat)
    ensures forall k :: PromptTokensAsWritten(w, k, estimate).Some? ==>
              PromptTokensAsWritten(w, k, estimate) == Some(PromptTokens(w, k, estimate, instructionTokens))
    ensures PromptTokensAsWritten(w, EpisodicSummary, estimate).None?
    ensures PromptTokensAsWritten(w, EideticToEpisodicSummary, estimate).None?
  {
  }

  /**
   * `conversation_token_buffer`: the blank conversation prompt plus the
   * response budgets of the anticipation (250) and of the
   * eidetic-to-episodic summary (500).
   */
  function ConversationTokenBuffer(w: Wording, estimate: string -> nat): (r: nat)
    ensures r == PromptTokensAsWritten(w, Conversation, estimate).value + Manager(Anticipation).responseTokens + Manager(EideticToEpisodicSummary).responseTokens
    ensures r == PromptTokens(w, Conversation, estimate, 0) + 750
  {
    estimate(ConversationPrompt(w, Blank, Some(Blank), Some(Blank))) + 250 + 500
  }
}
