/** The model registry (models.go): the supported model ids, their
    families, and the factory that picks an adapter for an id. */
module Models {
  import opened Common
  import opened Chat
  import opened Session
  import MetaAdapter
  import CohereAdapter

  const ModelCohereCommandA03: string := "cohere.command-a-03-2025"
  const ModelCohereCommandR08: string := "cohere.command-r-08-2024"
  const ModelCohereCommandRPlus08: string := "cohere.command-r-plus-08-2024"

  const ModelMetaLlama33_70B: string := "meta.llama-3.3-70b-instruct"
  const ModelMetaLlama31_70B: string := "meta.llama-3.1-70b-instruct"
  const ModelMetaLlama31_8B: string := "meta.llama-3.1-8b-instruct"
  const ModelMetaLlama2_70B: string := "meta.llama-2-70b-chat"

  /** The id of every supported model with its display description. */
  const SupportedModels: map<string, string> := map[
    ModelCohereCommandA03 := "Cohere Command A (Março 2025)",
    ModelCohereCommandR08 := "Cohere Command R (Agosto 2024)",
    ModelCohereCommandRPlus08 := "Cohere Command R Plus (Agosto 2024)",
    ModelMetaLlama33_70B := "Meta Llama 3.3 70B Instruct",
    ModelMetaLlama31_70B := "Meta Llama 3.1 70B Instruct",
    ModelMetaLlama31_8B := "Meta Llama 3.1 8B Instruct",
    ModelMetaLlama2_70B := "Meta Llama 2 70B Chat"]

  const CohereModels: seq<string> := [ModelCohereCommandA03, ModelCohereCommandR08, ModelCohereCommandRPlus08]
  const MetaModels: seq<string> :=
    [ModelMetaLlama33_70B, ModelMetaLlama31_70B, ModelMetaLlama31_8B, ModelMetaLlama2_70B]

  /** isCohere: the id is one of the Cohere ids, all of which carry the
      "cohere." prefix. */
  predicate IsCohere(modelId: string): (r: bool)
    ensures r <==> (modelId == ModelCohereCommandA03 || modelId == ModelCohereCommandR08
                    || modelId == ModelCohereCommandRPlus08)
    ensures r ==> |modelId| > 7 && modelId[..7] == "cohere."
  {
    modelId in CohereModels
  }

  /** isMetaLlama: the id is one of the Meta Llama ids, all of which carry
      the "meta.llama-" prefix. */
  predicate IsMetaLlama(modelId: string): (r: bool)
    ensures r <==> (modelId == ModelMetaLlama33_70B || modelId == ModelMetaLlama31_70B
                    || modelId == ModelMetaLlama31_8B || modelId == ModelMetaLlama2_70B)
    ensures r ==> |modelId| > 11 && modelId[..11] == "meta.llama-"
  {
    modelId in MetaModels
  }

  /** No id belongs to both families. */
  lemma FamiliesDisjoint(modelId: string)
    ensures !(IsCohere(modelId) && IsMetaLlama(modelId))
  {
  }

  /** The family tag of an id: Cohere ids are "cohere", Meta Llama ids
      "meta", every other string "unknown". */
  function GetModelFamily(modelId: string): (r: string)
    ensures r == "cohere" <==> modelId in CohereModels
    ensures r == "meta" <==> modelId in MetaModels
    ensures r == "unknown" <==> modelId !in CohereModels && modelId !in MetaModels
  {
    FamiliesDisjoint(modelId);
    if IsCohere(modelId) then "cohere"
    else if IsMetaLlama(modelId) then "meta"
    else "unknown"
  }

  /** Testing the Meta Llama list first would classify every id alike. */
  lemma FamilyIndependentOfCaseOrder(modelId: string)
    ensures GetModelFamily(modelId)
         == if IsMetaLlama(modelId) then "meta" else if IsCohere(modelId) then "cohere" else "unknown"
  {
    FamiliesDisjoint(modelId);
  }

  /** The registered ids are exactly the ids of the two family lists. */
  lemma SupportedModelsAreTheFamilies(modelId: string)
    ensures modelId in SupportedModels <==> modelId in CohereModels + MetaModels
    ensures modelId in SupportedModels <==> GetModelFamily(modelId) != "unknown"
  {
  }

  /** The adapters the factory can return, one per model family. */
  datatype ModelImplementation = CohereImplementation | MetaImplementation {

    function GetModelFamily(): (r: string)
      ensures r == "cohere" <==> CohereImplementation?
      ensures r == "meta" <==> MetaImplementation?
    {
      match this
      case CohereImplementation => CohereAdapter.GetModelFamily()
      case MetaImplementation => MetaAdapter.GetModelFamily()
    }

    /** The single-turn request of the adapter's own schema: a flat message
        for Cohere, one user turn for Meta Llama. */
    function CreateChatRequest(compartmentId: string, modelId: string, inputText: string): (r: ChatRequest)
      ensures r.compartmentId == compartmentId && r.modelId == modelId
      ensures r.payload.CohereChatRequest? <==> CohereImplementation?
      ensures r.payload.GenericChatRequest? <==> MetaImplementation?
      ensures CohereImplementation? ==> r.payload.message == inputText
      ensures MetaImplementation? ==> r.payload.messages == [User(inputText)]
      ensures r.payload.maxTokens == MaxTokens && r.payload.temperature == Temperature
      ensures r.payload.topP == TopP && !r.payload.isStream
      ensures CohereImplementation? ==> r.payload.topK == 0
      ensures CohereImplementation? ==> r == CohereAdapter.CreateChatRequest(compartmentId, modelId, inputText)
      ensures MetaImplementation? ==> r == MetaAdapter.CreateChatRequest(compartmentId, modelId, inputText)
    {
      match this
      case CohereImplementation => CohereAdapter.CreateChatRequest(compartmentId, modelId, inputText)
      case MetaImplementation => MetaAdapter.CreateChatRequest(compartmentId, modelId, inputText)
    }

    method CreateChatRequestWithContext(compartmentId: string, modelId: string, inputText: string,
                                        context: seq<Question>) returns (req: ChatRequest)
      ensures req.compartmentId == compartmentId && req.modelId == modelId
      ensures CohereImplementation? ==>
        req.payload == CohereChatRequest(CohereAdapter.ContextMessage(inputText, context), MaxTokens, Temperature, TopP, 0, false)
      ensures MetaImplementation? ==>
        req.payload == GenericChatRequest(
          MetaAdapter.HistoryMessages(LastN(context, MetaAdapter.MaxContext)) + [User(inputText)],
          MaxTokens, Temperature, TopP, false)
      ensures context == [] ==> req == CreateChatRequest(compartmentId, modelId, inputText)
    {
      match this
      case CohereImplementation =>
        req := CohereAdapter.CreateChatRequestWithContext(compartmentId, modelId, inputText, context);
      case MetaImplementation =>
        req := MetaAdapter.CreateChatRequestWithContext(compartmentId, modelId, inputText, context);
    }

    /** Reads a reply: each adapter accepts only its own family's response
        shape and names any other shape in its error. */
    function ProcessResponse(response: ChatResponse): (r: Result<string>)
      ensures r.Success? && CohereImplementation? ==>
        response.CohereChatResponse? && response.text == Some(r.value)
      ensures r.Success? && MetaImplementation? ==>
        && response.GenericChatResponse? && |response.choices| > 0
        && |response.choices[0].content| > 0 && response.choices[0].content[0] == TextContent(Some(r.value))
      ensures CohereImplementation? && !response.CohereChatResponse? ==>
        r == Failure(CohereAdapter.UnexpectedFormatPrefix + TypeName(response))
      ensures MetaImplementation? && !response.GenericChatResponse? ==>
        r == Failure(MetaAdapter.UnexpectedFormatPrefix + TypeName(response))
      // the adapter's own shape: a text succeeds, a missing one gives the family's error
      ensures CohereImplementation? && response.CohereChatResponse? ==>
        r == if response.text.Some? then Success(response.text.value) else Failure(CohereAdapter.EmptyResponseError)
      ensures MetaImplementation? && response.GenericChatResponse? ==>
        r == if |response.choices| > 0 && |response.choices[0].content| > 0
                && response.choices[0].content[0].TextContent? && response.choices[0].content[0].text.Some?
             then Success(response.choices[0].content[0].text.value)
             else Failure(MetaAdapter.NoResponseError)
      ensures CohereImplementation? ==> r == CohereAdapter.ProcessResponse(response)
      ensures MetaImplementation? ==> r == MetaAdapter.ProcessResponse(response)
    {
      match this
      case CohereImplementation => CohereAdapter.ProcessResponse(response)
      case MetaImplementation => MetaAdapter.ProcessResponse(response)
    }
  }

  /** The factory: an adapter for a known family, none for an unknown id;
      the adapter reports the family the id belongs to. */
  function CreateModelImplementation(modelId: string): (r: Option<ModelImplementation>)
    ensures r.None? <==> GetModelFamily(modelId) == "unknown"
    ensures r.None? <==> modelId !in SupportedModels
    ensures r.Some? ==> r.value.GetModelFamily() == GetModelFamily(modelId)
  {
    var family := GetModelFamily(modelId);
    if family == "cohere" then Some(CohereImplementation)
    else if family == "meta" then Some(MetaImplementation)
    else None
  }

  /** Each adapter's own family tag is the family the registry gives the ids
      of that family, and the two tags differ. */
  lemma AdapterFamiliesMatchRegistry(modelId: string)
    ensures IsCohere(modelId) ==> CohereAdapter.GetModelFamily() == GetModelFamily(modelId)
    ensures IsMetaLlama(modelId) ==> MetaAdapter.GetModelFamily() == GetModelFamily(modelId)
    ensures CohereAdapter.GetModelFamily() != MetaAdapter.GetModelFamily()
  {
  }

  /** Neither adapter accepts the other's response shape. */
  lemma AdaptersRejectEachOthersShape(text: Option<string>, choices: seq<ChatChoice>)
    ensures MetaImplementation.ProcessResponse(CohereChatResponse(text)).Failure?
    ensures CohereImplementation.ProcessResponse(GenericChatResponse(choices)).Failure?
  {
  }
}
