/** ai_agent/services/ai.py: the chat message list and the fail-soft reply. */
module AiService {
  import opened Wrappers
  import opened Strings

  /** One entry of the list sent to the chat completion: `{"role": ..., "content": ...}`. */
  datatype ChatMessage = ChatMessage(role: string, content: string)

  const Fallback := "Desculpe, " + "não consegui processar sua mensagem no momento."

  /** The system message text; the tone is lower-cased. */
  function SystemPrompt(language: string, tone: string, prompt: string): string
  {
    "You are a helpful assistant. Respond in " + language + ", using a " + Lower(tone) + " tone.\n\n" + prompt
  }

  /** `build_messages`: system message, then the history unchanged, then the user message.
      An empty history (or None) contributes nothing. */
  function BuildMessages(userInput: string, prompt: string, language: string, tone: string,
                         history: seq<ChatMessage>): (r: seq<ChatMessage>)
    ensures |r| == |history| + 2
    ensures r[0] == ChatMessage("system", SystemPrompt(language, tone, prompt))
    ensures r[1..|r| - 1] == history
    ensures r[|r| - 1] == ChatMessage("user", userInput)
  {
    var base := [ChatMessage("system", SystemPrompt(language, tone, prompt))];
    var withHistory := if |history| > 0 then base + history else base;
    withHistory + [ChatMessage("user", userInput)]
  }

  /** `get_openai_client` raises unless OPENAI_API_KEY is set and non-empty. */
  predicate ApiKeyPresent(apiKey: Option<string>)
  {
    apiKey.Some? && apiKey.value != ""
  }

  /** `generate_response`. `complete` stands for the chat completion: the content of
      its first choice, or None when the call or the access to that content raises. */
  function GenerateResponse(userInput: string, prompt: string, language: string, tone: string,
                            history: seq<ChatMessage>, apiKey: Option<string>,
                            complete: seq<ChatMessage> -> Option<string>): (r: string)
    ensures !ApiKeyPresent(apiKey) ==> r == Fallback
    ensures ApiKeyPresent(apiKey) && complete(BuildMessages(userInput, prompt, language, tone, history)).None?
            ==> r == Fallback
    ensures ApiKeyPresent(apiKey) && complete(BuildMessages(userInput, prompt, language, tone, history)).Some?
            ==> r == Strip(complete(BuildMessages(userInput, prompt, language, tone, history)).value)
  {
    if !ApiKeyPresent(apiKey) then Fallback
    else
      match complete(BuildMessages(userInput, prompt, language, tone, history))
      case None => Fallback
      case Some(content) => Strip(content)
  }

  /** Every reply is already stripped, and an empty reply can only come from a
      completion whose content was all whitespace: the fallback itself is never empty. */
  lemma GenerateResponseStripped(userInput: string, prompt: string, language: string, tone: string,
                                 history: seq<ChatMessage>, apiKey: Option<string>,
                                 complete: seq<ChatMessage> -> Option<string>)
    ensures var r := GenerateResponse(userInput, prompt, language, tone, history, apiKey, complete);
      Strip(r) == r
      && (r == "" ==> ApiKeyPresent(apiKey)
                      && complete(BuildMessages(userInput, prompt, language, tone, history)).Some?
                      && Strip(complete(BuildMessages(userInput, prompt, language, tone, history)).value) == "")
  {
    var r := GenerateResponse(userInput, prompt, language, tone, history, apiKey, complete);
    if r == Fallback {
      assert Fallback[0] == 'D' && Fallback[|Fallback| - 1] == '.';
      StripUnchanged(Fallback);
    } else {
      var content := complete(BuildMessages(userInput, prompt, language, tone, history)).value;
      StripIdempotent(content);
    }
  }
}
