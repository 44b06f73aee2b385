/** The adapter for Cohere models (cohere_implementation.go): the history
    is folded into the one message the request carries. */
module CohereAdapter {
  import opened Common
  import opened Decimal
  import opened Chat
  import opened Session

  /** At most this many of the latest questions are considered. */
  const MaxContext: nat := 3

  const ContextHeader: string := "Contexto da conversa anterior:\n"
  const CurrentQuestionLabel: string := "\nPergunta atual: "
  const EmptyResponseError: string := "resposta vazia do modelo Cohere"
  const UnexpectedFormatPrefix: string := "formato de resposta inesperado para Cohere: "

  /** A single-turn request whose message is the input itself. */
  function CreateChatRequest(compartmentId: string, modelId: string, inputText: string): (r: ChatRequest)
    ensures r.compartmentId == compartmentId && r.modelId == modelId
    ensures r.payload.CohereChatRequest? && r.payload.message == inputText
    ensures r.payload.maxTokens == 600 && r.payload.topK == 0 && !r.payload.isStream
    ensures r.payload.temperature == Temperature && r.payload.topP == TopP
  {
    ChatRequest(compartmentId, modelId,
      CohereChatRequest(inputText, MaxTokens, Temperature, TopP, 0, false))
  }

  /** The lines one earlier question contributes at 0-based window index i:
      numbered i + 1 when it succeeded, nothing when it failed. */
  function EntryBlock(i: nat, q: Question): string {
    if q.Success then
      "\nPergunta " + NatToDecimal(i + 1) + ": " + q.Text + "\nResposta " + NatToDecimal(i + 1) + ": " + q.Response + "\n"
    else ""
  }

  /** The lines of a window, each entry numbered by its own index. */
  function Blocks(window: seq<Question>): string {
    if window == [] then ""
    else Blocks(window[..|window| - 1]) + EntryBlock(|window| - 1, window[|window| - 1])
  }

  /** The lines of entries that stand at window indices offset, offset + 1, ... */
  function BlocksFrom(entries: seq<Question>, offset: nat): string
    decreases |entries|
  {
    if entries == [] then "" else EntryBlock(offset, entries[0]) + BlocksFrom(entries[1..], offset + 1)
  }

  /** The message the request with history carries. */
  function ContextMessage(inputText: string, context: seq<Question>): string {
    if |context| == 0 then inputText
    else ContextHeader + Blocks(LastN(context, MaxContext)) + CurrentQuestionLabel + inputText
  }

  /** How an entry is numbered depends only on how many entries precede it
      in the window, not on whether they succeeded. */
  lemma {:induction false} BlocksNumberByPosition(before: seq<Question>, after: seq<Question>)
    ensures Blocks(before + after) == Blocks(before) + BlocksFrom(after, |before|)
    decreases |after|
  {
    if after == [] {
      assert before + after == before;
    } else {
      var x, rest := after[0], after[1..];
      var ext := before + [x];
      assert (ext + rest) == before + after;
      BlocksNumberByPosition(ext, rest);
      assert ext[..|ext| - 1] == before;
      calc {
        Blocks(before + after);
        Blocks(ext) + BlocksFrom(rest, |ext|);
        Blocks(before) + EntryBlock(|before|, x) + BlocksFrom(rest, |before| + 1);
        { AppendAssociative(Blocks(before), EntryBlock(|before|, x), BlocksFrom(rest, |before| + 1)); }
        Blocks(before) + BlocksFrom(after, |before|);
      }
    }
  }

  /** A failed entry followed by an answered one: the answered one is
      labelled 2 although it is the first pair in the message. */
  lemma NumberingSkipsFailedEntries(failed: Question, answered: Question)
    requires !failed.Success && answered.Success
    ensures Blocks([failed, answered])
         == "\nPergunta 2: " + answered.Text + "\nResposta 2: " + answered.Response + "\n"
  {
    assert [failed, answered][..1] == [failed];
    assert [failed][..0] == [];
    assert Blocks([failed]) == "";
    assert NatToDecimal(2) == "2";
    assert Blocks([failed, answered]) == "" + EntryBlock(1, answered);
  }

  /** A window of failures contributes no lines. */
  lemma {:induction false} AllFailedWindowHasNoBlocks(window: seq<Question>)
    requires forall k :: 0 <= k < |window| ==> !window[k].Success
    ensures Blocks(window) == ""
  {
    if window != [] {
      AllFailedWindowHasNoBlocks(window[..|window| - 1]);
    }
  }

  /** Non-empty context whose window holds only failures: the header and the
      label are still there, so the message differs from the input. */
  lemma AllFailedContextMessage(inputText: string, context: seq<Question>)
    requires |context| > 0
    requires forall k :: 0 <= k < |LastN(context, MaxContext)| ==> !LastN(context, MaxContext)[k].Success
    ensures ContextMessage(inputText, context) == ContextHeader + CurrentQuestionLabel + inputText
    ensures ContextMessage(inputText, context) != inputText
  {
    AllFailedWindowHasNoBlocks(LastN(context, MaxContext));
    assert |ContextMessage(inputText, context)| > |inputText|;
  }

  /** Questions older than the last three never reach the message. */
  lemma ContextMessageIgnoresOlder(inputText: string, older: seq<Question>, recent: seq<Question>)
    requires |recent| >= MaxContext
    ensures ContextMessage(inputText, older + recent) == ContextMessage(inputText, recent)
  {
    LastNIgnoresOlder(older, recent, MaxContext);
  }

  /** The loop of CreateChatRequestWithContext: appends the lines of each
      answered question of the window, numbered by its window index. */
  method AppendContextLines(message: string, window: seq<Question>) returns (contextMessage: string)
    ensures contextMessage == message + Blocks(window)
  {
    contextMessage := message;
    var i := 0;
    while i < |window|
      invariant 0 <= i <= |window|
      invariant contextMessage == message + Blocks(window[..i])
    {
      var q := window[i];
      ghost var before := contextMessage;
      if q.Success {
        contextMessage := contextMessage
          + ("\nPergunta " + NatToDecimal(i + 1) + ": " + q.Text + "\nResposta " + NatToDecimal(i + 1) + ": " + q.Response + "\n");
      }
      assert contextMessage == message + Blocks(window[..i + 1]) by {
        PrefixStep(window, i);
        assert Blocks(window[..i + 1]) == Blocks(window[..i]) + EntryBlock(i, q);
        assert contextMessage == before + EntryBlock(i, q);
        AppendAssociative(message, Blocks(window[..i]), EntryBlock(i, q));
      }
      i := i + 1;
    }
    PrefixWhole(window);
  }

  /** The request with history: the same generation settings as the
      single-turn request, with the message built from the last three
      questions. */
  method CreateChatRequestWithContext(compartmentId: string, modelId: string, inputText: string,
                                      context: seq<Question>) returns (req: ChatRequest)
    ensures var base := CreateChatRequest(compartmentId, modelId, inputText);
      req == base.(payload := base.payload.(message := ContextMessage(inputText, context)))
    ensures context == [] ==> req == CreateChatRequest(compartmentId, modelId, inputText)
  {
    var contextMessage := inputText;
    var startIndex := 0;
    if |context| > MaxContext {
      startIndex := |context| - MaxContext;
    }
    if |context| > 0 {
      var window := context[startIndex..];
      assert window == LastN(context, MaxContext);
      contextMessage := "Contexto da conversa anterior:\n";
      contextMessage := AppendContextLines(contextMessage, window);
      contextMessage := contextMessage + "\nPergunta atual: " + inputText;
    }
    req := ChatRequest(compartmentId, modelId,
      CohereChatRequest(contextMessage, MaxTokens, Temperature, TopP, 0, false));
  }

  /** The text of a Cohere response; an error for a missing text or for any
      other response shape. */
  function ProcessResponse(response: ChatResponse): (r: Result<string>)
    ensures r.Success? <==> response.CohereChatResponse? && response.text.Some?
    ensures r.Success? ==> r.value == response.text.value
    ensures response.CohereChatResponse? && response.text.None? ==> r == Failure(EmptyResponseError)
    ensures !response.CohereChatResponse? ==> r == Failure(UnexpectedFormatPrefix + TypeName(response))
  {
    match response
    case CohereChatResponse(text) =>
      if text.Some? then Success(text.value) else Failure(EmptyResponseError)
    case _ => Failure(UnexpectedFormatPrefix + TypeName(response))
  }

  /** The family tag the registry uses for this adapter's models. */
  function GetModelFamily(): (r: string)
    ensures r == "cohere"
  {
    "cohere"
  }
}
