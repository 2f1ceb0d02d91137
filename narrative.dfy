/**
 * The narrative analysis attached to recommendations: a language-model
 * answer when one of the two services replies, and a canned fallback text
 * otherwise. The services themselves are functions from the message sent to
 * the outcome received.
 */
module Narrative {
  import opened Wrappers
  import opened Text

  /** The user message sent to the first service (`PROMPT_TEMPLATE`). */
  function Prompt(question: string, data: string): string {
    "\nYou are a real estate analyst. A user asked: " + question
    + "\n\nWe have the following data:\n" + data
    + "\n\nPlease analyze and provide recommendations.\n"
  }

  /** The user message sent to the second service. */
  function PerplexityMessage(question: string, data: string): string {
    "User asked: " + question + "\n\nData:\n" + data + "\n\nGive analysis."
  }

  const LongGapNotes: string :=
    "\nBased on historical BTO launch patterns, the recommended towns show significant potential:\n"
    + "\n"
    + "\U{2022} Towns with 10+ years since last BTO launch indicate underserved areas with potential pent-up demand\n"
    + "\U{2022} These locations may be prime candidates for new BTO developments due to market gaps\n"
    + "\U{2022} Consider proximity to MRT lines, schools, and commercial developments\n"
    + "\U{2022} Long gaps between launches often correlate with infrastructure improvements and area maturation\n"
    + "\n"
    + "Investment considerations:\n"
    + "- Established neighborhoods with proven demand\n"
    + "- Higher years since last BTO may indicate upcoming development\n"
    + "- Potential capital appreciation once new BTOs launch\n"

  const GeneralNote: string := "Recommendations align with current market trends and historical patterns."

  /** The data mentions the gap since the last BTO launch, in either spelling. */
  predicate MentionsLaunchGap(data: string) {
    Contains(data, "years_since_last_bto") || Contains(data, "Years since BTO")
  }

  /** `generate_fallback_analysis`. */
  function FallbackAnalysis(data: string, reason: string): (text: string)
    ensures StartsWith(text, "LLM analysis unavailable - " + reason + ".\n\n")
  {
    var head := "LLM analysis unavailable - " + reason + ".\n\n";
    var text := head + if MentionsLaunchGap(data) then LongGapNotes else GeneralNote;
    assert text[..|head|] == head;
    text
  }

  /** The fallback carries the launch-pattern notes exactly when the data mentions the launch gap. */
  lemma FallbackNotes(data: string, reason: string)
    ensures EndsWith(FallbackAnalysis(data, reason), LongGapNotes) <==> MentionsLaunchGap(data)
    ensures EndsWith(FallbackAnalysis(data, reason), GeneralNote) <==> !MentionsLaunchGap(data)
  {
    var head := "LLM analysis unavailable - " + reason + ".\n\n";
    var text := FallbackAnalysis(data, reason);
    if MentionsLaunchGap(data) {
      assert text == head + LongGapNotes;
      assert text[|text| - |LongGapNotes|..] == LongGapNotes;
      assert text[|text| - 1] == '\n';
      assert GeneralNote[|GeneralNote| - 1] == '.';
    } else {
      assert text == head + GeneralNote;
      assert text[|text| - |GeneralNote|..] == GeneralNote;
      assert text[|text| - 1] == '.';
      assert LongGapNotes[|LongGapNotes| - 1] == '\n';
    }
  }

  /** What the second service's HTTP exchange yields. */
  datatype Exchange =
    | TimedOut
    | NetworkFailure
    /** A response: its status and, once decoded, the contents of its `choices`, if the key is there. */
    | Response(status: int, choices: Option<seq<string>>)

  /** Why `analyze_with_perplexity` raised. */
  datatype PerplexityError = KeyMissing | Timeout | CallFailed | BadStatus(status: int) | NoChoices

  /** `analyze_with_perplexity`: the stripped first choice, or the reason it raised. */
  function AnalyzeWithPerplexity(keyConfigured: bool, send: string -> Exchange, question: string, data: string)
    : (r: Result<string, PerplexityError>)
    ensures !keyConfigured ==> r == Err(KeyMissing)
    ensures r.Ok? ==> exists cs :: (send(PerplexityMessage(question, data)) == Response(200, Some(cs))
                                    && |cs| > 0 && r.value == Strip(cs[0]))
  {
    if !keyConfigured then Err(KeyMissing)
    else
      match send(PerplexityMessage(question, data))
      case TimedOut => Err(Timeout)
      case NetworkFailure => Err(CallFailed)
      case Response(status, choices) =>
        if status != 200 then Err(BadStatus(status))
        else if choices.None? || choices.value == [] then Err(NoChoices)
        else Ok(Strip(choices.value[0]))
  }

  /** A configured key and a 200 response with at least one choice is the only way to an answer. */
  lemma PerplexityAnswers(keyConfigured: bool, send: string -> Exchange, question: string, data: string)
    ensures AnalyzeWithPerplexity(keyConfigured, send, question, data).Ok?
        <==> keyConfigured && var x := send(PerplexityMessage(question, data));
             x.Response? && x.status == 200 && x.choices.Some? && x.choices.value != []
  {
  }

  /** `max_retries`: the first service is tried this many times. */
  const MaxRetries := 1

  const BothUnavailable := "Both OpenAI and Perplexity APIs unavailable"

  /** What `analyze_with_llm` returns: the first service's answer, else the second's, else the fallback. */
  function LlmAnalysis(
    openAi: string -> Option<string>, keyConfigured: bool, send: string -> Exchange,
    question: string, data: string): (text: string)
  {
    var first := openAi(Prompt(question, data));
    if first.Some? then Strip(first.value)
    else
      var second := AnalyzeWithPerplexity(keyConfigured, send, question, data);
      if second.Ok? then second.value else FallbackAnalysis(data, BothUnavailable)
  }

  /** The analysis is never empty-handed: when both services fail the fallback is used. */
  lemma BothFailedMeansFallback(
    openAi: string -> Option<string>, keyConfigured: bool, send: string -> Exchange,
    question: string, data: string)
    requires openAi(Prompt(question, data)).None?
    requires AnalyzeWithPerplexity(keyConfigured, send, question, data).Err?
    ensures StartsWith(LlmAnalysis(openAi, keyConfigured, send, question, data),
                       "LLM analysis unavailable - " + BothUnavailable + ".\n\n")
  {
  }

  /** When both services fail on data that mentions the launch gap, the analysis ends with the launch-pattern notes. */
  lemma BothFailedCarriesNotes(
    openAi: string -> Option<string>, keyConfigured: bool, send: string -> Exchange,
    question: string, data: string)
    requires openAi(Prompt(question, data)).None?
    requires AnalyzeWithPerplexity(keyConfigured, send, question, data).Err?
    requires MentionsLaunchGap(data)
    ensures EndsWith(LlmAnalysis(openAi, keyConfigured, send, question, data), LongGapNotes)
  {
    FallbackNotes(data, BothUnavailable);
  }

  /**
   * `analyze_with_llm`: the retry loop over the first service (one attempt,
   * so it never sleeps; leaving after the last attempt is the loop's own
   * end), then the second service, then the fallback. It never fails.
   */
  method AnalyzeWithLlm(
    openAi: string -> Option<string>, keyConfigured: bool, send: string -> Exchange,
    question: string, data: string) returns (analysis: string)
    ensures analysis == LlmAnalysis(openAi, keyConfigured, send, question, data)
  {
    var prompt := Prompt(question, data);
    var attempt := 0;
    while attempt < MaxRetries
      invariant 0 <= attempt <= MaxRetries
      invariant attempt > 0 ==> openAi(prompt).None?
    {
      var reply := openAi(prompt);
      if reply.Some? {
        return Strip(reply.value);
      }
      attempt := attempt + 1;
    }
    var second := AnalyzeWithPerplexity(keyConfigured, send, question, data);
    if second.Ok? {
      return second.value;
    }
    analysis := FallbackAnalysis(data, BothUnavailable);
  }
}
