/** ai_agent.py at the repository root: the older reply generator. It lays out
    the same message list as services/ai.py but keeps the tone as given and falls
    back to an English apology. */
module AiAgentRoot {
  import opened Wrappers
  import opened Strings
  import opened AiService

  const LegacyFallback := "Sorry, I " + "couldn't process that right now."

  /** The system message text, with the tone exactly as given. */
  function LegacySystemPrompt(language: string, tone: string, prompt: string): string
  {
    "You are a helpful assistant. Respond in " + language + ", using a " + tone + " tone.\n\n" + prompt
  }

  /** The `messages` list: system, the history if non-empty, then the user message. */
  function LegacyMessages(userInput: string, prompt: string, language: string, tone: string,
                          history: seq<ChatMessage>): (r: seq<ChatMessage>)
    ensures |r| == |history| + 2
    ensures r[0] == ChatMessage("system", LegacySystemPrompt(language, tone, prompt))
    ensures r[1..|r| - 1] == history
    ensures r[|r| - 1] == ChatMessage("user", userInput)
  {
    var messages := [ChatMessage("system", LegacySystemPrompt(language, tone, prompt))];
    var withHistory := if |history| > 0 then messages + history else messages;
    withHistory + [ChatMessage("user", userInput)]
  }

  /** `generate_response`: the stripped completion content, or the fixed apology on any failure. */
  function LegacyGenerateResponse(userInput: string, prompt: string, language: string, tone: string,
                                  history: seq<ChatMessage>,
                                  complete: seq<ChatMessage> -> Option<string>): (r: string)
    ensures complete(LegacyMessages(userInput, prompt, language, tone, history)).None? ==> r == LegacyFallback
    ensures complete(LegacyMessages(userInput, prompt, language, tone, history)).Some?
            ==> r == Strip(complete(LegacyMessages(userInput, prompt, language, tone, history)).value)
  {
    match complete(LegacyMessages(userInput, prompt, language, tone, history))
    case None => LegacyFallback
    case Some(content) => Strip(content)
  }

  /** Sequence fact behind LayoutsAgreeIffLowerTone: equal strings with equal
      surroundings have equal middles. */
  lemma CancelAround(a: string, x: string, y: string, b: string)
    requires a + x + b == a + y + b && |x| == |y|
    ensures x == y
  {
    assert x == (a + x + b)[|a|..|a| + |x|];
    assert y == (a + y + b)[|a|..|a| + |y|];
  }

  /** The two generators send the same messages exactly when the tone is already
      lower-case; otherwise only the system message differs. */
  lemma LayoutsAgreeIffLowerTone(userInput: string, prompt: string, language: string, tone: string,
                                 history: seq<ChatMessage>)
    ensures BuildMessages(userInput, prompt, language, tone, history)
            == LegacyMessages(userInput, prompt, language, tone, history)
            <==> Lower(tone) == tone
    ensures BuildMessages(userInput, prompt, language, tone, history)[1..]
            == LegacyMessages(userInput, prompt, language, tone, history)[1..]
  {
    var m := BuildMessages(userInput, prompt, language, tone, history);
    var l := LegacyMessages(userInput, prompt, language, tone, history);
    var a := "You are a helpful assistant. Respond in " + language + ", using a ";
    var b := " tone.\n\n" + prompt;
    assert SystemPrompt(language, tone, prompt) == a + Lower(tone) + b;
    assert LegacySystemPrompt(language, tone, prompt) == a + tone + b;
    assert m[1..] == history + [ChatMessage("user", userInput)] == l[1..];
    if m == l {
      assert m[0] == l[0];
      CancelAround(a, Lower(tone), tone, b);
    }
    if Lower(tone) == tone {
      assert m[0] == l[0];
      assert m == [m[0]] + m[1..];
      assert l == [l[0]] + l[1..];
    }
  }
}
