/** The adapter for Meta Llama models (meta_implementation.go): the
    history travels as structured user and assistant turns. */
module MetaAdapter {
  import opened Common
  import opened Chat
  import opened Session

  /** At most this many of the latest questions are considered. */
  const MaxContext: nat := 5

  const NoResponseError: string := "nenhuma resposta recebida do modelo Meta Llama"
  const UnexpectedFormatPrefix: string := "formato de resposta inesperado para Meta Llama: "

  /** A single-turn request: one user message holding the input. */
  function CreateChatRequest(compartmentId: string, modelId: string, inputText: string): (r: ChatRequest)
    ensures r.compartmentId == compartmentId && r.modelId == modelId
    ensures r.payload.GenericChatRequest? && r.payload.messages == [User(inputText)]
    ensures r.payload.maxTokens == 600 && !r.payload.isStream
    ensures r.payload.temperature == Temperature && r.payload.topP == TopP
  {
    ChatRequest(compartmentId, modelId,
      GenericChatRequest([User(inputText)], MaxTokens, Temperature, TopP, false))
  }

  /** The turns one earlier question contributes: its prompt and answer when
      it succeeded, nothing when it failed. */
  function Turns(q: Question): seq<Message> {
    if q.Success then [User(q.Text), Assistant(q.Response)] else []
  }

  /** The turns of a window of earlier questions, in window order. */
  function HistoryMessages(window: seq<Question>): seq<Message> {
    Flatten(window, Turns)
  }

  /** The k-th answered question of the window gives turns 2k and 2k + 1;
      nothing else is emitted. */
  lemma {:induction false} HistoryMessagesArePairs(window: seq<Question>)
    ensures var h, s := HistoryMessages(window), SuccessfulOf(window);
      && |h| == 2 * |s|
      && forall k :: 0 <= k < |s| ==> h[2 * k] == User(s[k].Text) && h[2 * k + 1] == Assistant(s[k].Response)
  {
    if window != [] {
      var init, last := window[..|window| - 1], window[|window| - 1];
      HistoryMessagesArePairs(init);
      var g := (q: Question) => if q.Success then [q] else [];
      assert SuccessfulOf(window) == SuccessfulOf(init) + g(last);
    }
  }

  /** The loop of CreateChatRequestWithContext: a user and an assistant
      turn for every answered question of the window, in order. */
  method AppendHistory(window: seq<Question>) returns (messages: seq<Message>)
    ensures messages == HistoryMessages(window)
  {
    messages := [];
    var i := 0;
    while i < |window|
      invariant 0 <= i <= |window|
      invariant messages == HistoryMessages(window[..i])
    {
      var q := window[i];
      PrefixStep(window, i);
      ghost var before := messages;
      if q.Success {
        messages := messages + [User(q.Text)];
        messages := messages + [Assistant(q.Response)];
        AppendAssociative(before, [User(q.Text)], [Assistant(q.Response)]);
        assert [User(q.Text)] + [Assistant(q.Response)] == Turns(q);
      }
      assert messages == before + Turns(q);
      i := i + 1;
    }
    PrefixWhole(window);
  }

  /** The request with history: the turns of the answered questions among
      the last five, then the input as the final user message. */
  method CreateChatRequestWithContext(compartmentId: string, modelId: string, inputText: string,
                                      context: seq<Question>) returns (req: ChatRequest)
    ensures var base := CreateChatRequest(compartmentId, modelId, inputText);
      req == base.(payload := base.payload.(
        messages := HistoryMessages(LastN(context, MaxContext)) + [User(inputText)]))
    ensures var ms := req.payload.messages;
      && |ms| == 2 * SuccessCount(LastN(context, MaxContext)) + 1
      && ms[|ms| - 1] == User(inputText)
    ensures context == [] ==> req == CreateChatRequest(compartmentId, modelId, inputText)
  {
    var startIndex := 0;
    if |context| > MaxContext {
      startIndex := |context| - MaxContext;
    }
    var window := context[startIndex..];
    assert window == LastN(context, MaxContext);
    var messages := AppendHistory(window);
    assert |messages| == 2 * SuccessCount(window) by {
      HistoryMessagesArePairs(window);
      SuccessfulOfSelects(window);
    }
    messages := messages + [User(inputText)];
    req := ChatRequest(compartmentId, modelId,
      GenericChatRequest(messages, MaxTokens, Temperature, TopP, false));
  }

  /** The text of the first content item of the first choice, when the
      response has that shape; an error message otherwise. */
  function ProcessResponse(response: ChatResponse): (r: Result<string>)
    ensures r.Success? <==>
      && response.GenericChatResponse?
      && |response.choices| > 0
      && |response.choices[0].content| > 0
      && response.choices[0].content[0].TextContent?
      && response.choices[0].content[0].text.Some?
    ensures r.Success? ==> r.value == response.choices[0].content[0].text.value
    ensures response.GenericChatResponse? && r.Failure? ==> r.error == NoResponseError
    ensures !response.GenericChatResponse? ==> r == Failure(UnexpectedFormatPrefix + TypeName(response))
  {
    match response
    case GenericChatResponse(choices) =>
      if |choices| > 0 then
        var content := choices[0].content;
        if |content| > 0 then
          match content[0]
          case TextContent(text) =>
            if text.Some? then Success(text.value) else Failure(NoResponseError)
          case OtherContent(_) => Failure(NoResponseError)
        else Failure(NoResponseError)
      else Failure(NoResponseError)
    case _ => Failure(UnexpectedFormatPrefix + TypeName(response))
  }

  /** A reply whose first choice starts with a text gives back that text,
      whatever follows it. */
  lemma ProcessResponseReadsReply(text: string, moreContent: seq<ChatContent>, moreChoices: seq<ChatChoice>)
    ensures ProcessResponse(GenericChatResponse([ChatChoice([TextContent(Some(text))] + moreContent)] + moreChoices))
         == Success(text)
  {
  }

  /** The family tag the registry uses for this adapter's models. */
  function GetModelFamily(): (r: string)
    ensures r == "meta"
  {
    "meta"
  }
}
