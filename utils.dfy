/** The registry lookups and the model menu (utils.go). */
module Utils {
  import opened Common
  import opened Decimal
  import opened Models

  /** An id is supported when the registry has a description for it. */
  function IsModelSupported(modelId: string): (r: bool)
    ensures r <==> modelId in SupportedModels
    ensures r <==> GetModelFamily(modelId) != "unknown"
  {
    SupportedModelsAreTheFamilies(modelId);
    modelId in SupportedModels
  }

  /** What GetModelInfo returns: description, family, and whether found. */
  datatype ModelInfo = ModelInfo(description: string, family: string, found: bool)

  /** The description and family of a registered id; empty strings and
      not-found otherwise. */
  function GetModelInfo(modelId: string): (r: ModelInfo)
    ensures r.found <==> IsModelSupported(modelId)
    ensures !r.found ==> r == ModelInfo("", "", false)
    ensures r.found ==> r.description == SupportedModels[modelId] && r.family == GetModelFamily(modelId)
    ensures r.found ==> r.family != "unknown"
  {
    if modelId !in SupportedModels then ModelInfo("", "", false)
    else ModelInfo(SupportedModels[modelId], GetModelFamily(modelId), true)
  }

  /** The menu entries 1 to 7, in order. */
  const MenuModels: seq<string> := [
    ModelCohereCommandA03, ModelCohereCommandR08, ModelCohereCommandRPlus08,
    ModelMetaLlama33_70B, ModelMetaLlama31_70B, ModelMetaLlama31_8B, ModelMetaLlama2_70B]

  /** The model a parsed menu choice selects; None is a parse failure. An
      invalid choice falls back to Meta Llama 3.3 70B. */
  function ModelForChoice(choice: Option<int>): (r: string)
    ensures choice.Some? && 1 <= choice.value <= 7 ==> r == MenuModels[choice.value - 1]
    ensures !(choice.Some? && 1 <= choice.value <= 7) ==> r == ModelMetaLlama33_70B
    ensures r in SupportedModels
  {
    if choice.None? || choice.value < 1 || choice.value > 7 then ModelMetaLlama33_70B
    else MenuModels[choice.value - 1]
  }

  /** The menu rule applied to the typed text after trimming. */
  function SelectModel(trimmedChoice: string): (r: string)
    ensures r in SupportedModels
    ensures Atoi(trimmedChoice).None? ==> r == ModelMetaLlama33_70B
  {
    ModelForChoice(Atoi(trimmedChoice))
  }

  /** Typing the number of an entry selects that entry. */
  lemma SelectModelByNumber(n: nat)
    requires 1 <= n <= 7
    ensures SelectModel(NatToDecimal(n)) == MenuModels[n - 1]
  {
    AtoiOfIntToDecimal(n);
  }

  /** The menu lists every supported model once. */
  lemma MenuCoversRegistry(modelId: string)
    ensures modelId in MenuModels <==> modelId in SupportedModels
    ensures forall i, j :: 0 <= i < j < |MenuModels| ==> MenuModels[i] != MenuModels[j]
  {
  }

  /** A line of the model listing. */
  function ModelLine(modelId: string, description: string): string {
    "  " + modelId + " - " + description
  }

  function CohereLine(entry: (string, string)): seq<string> {
    if IsCohere(entry.0) then [ModelLine(entry.0, entry.1)] else []
  }

  function MetaLine(entry: (string, string)): seq<string> {
    if !IsCohere(entry.0) && IsMetaLlama(entry.0) then [ModelLine(entry.0, entry.1)] else []
  }

  /** The Cohere group of the listing, for the registry entries in the
      order the map is walked. */
  function CohereGroup(entries: seq<(string, string)>): seq<string> {
    Flatten(entries, CohereLine)
  }

  /** The Meta Llama group of the listing. */
  function MetaGroup(entries: seq<(string, string)>): seq<string> {
    Flatten(entries, MetaLine)
  }

  /** ListAvailableModels' grouping: `entries` is the registry in the
      (unspecified) order a range over the map visits it. */
  method GroupModels(entries: seq<(string, string)>) returns (cohereModels: seq<string>, metaModels: seq<string>)
    ensures cohereModels == CohereGroup(entries)
    ensures metaModels == MetaGroup(entries)
  {
    cohereModels, metaModels := [], [];
    var i := 0;
    while i < |entries|
      invariant 0 <= i <= |entries|
      invariant cohereModels == CohereGroup(entries[..i])
      invariant metaModels == MetaGroup(entries[..i])
    {
      var (modelId, description) := entries[i];
      PrefixStep(entries, i);
      if IsCohere(modelId) {
        cohereModels := cohereModels + [ModelLine(modelId, description)];
      } else if IsMetaLlama(modelId) {
        metaModels := metaModels + [ModelLine(modelId, description)];
      }
      i := i + 1;
    }
    PrefixWhole(entries);
  }

  /** Every line of a group comes from an entry of that family, and when
      every entry is registered each one lands in exactly one group. */
  lemma {:induction false} GroupsFollowFamilies(entries: seq<(string, string)>)
    ensures forall line :: line in CohereGroup(entries) ==>
      exists e :: e in entries && IsCohere(e.0) && line == ModelLine(e.0, e.1)
    ensures forall line :: line in MetaGroup(entries) ==>
      exists e :: e in entries && IsMetaLlama(e.0) && !IsCohere(e.0) && line == ModelLine(e.0, e.1)
    ensures |CohereGroup(entries)| + |MetaGroup(entries)| <= |entries|
    ensures (forall k :: 0 <= k < |entries| ==> entries[k].0 in SupportedModels) ==>
      |CohereGroup(entries)| + |MetaGroup(entries)| == |entries|
  {
    if entries != [] {
      var init, last := entries[..|entries| - 1], entries[|entries| - 1];
      GroupsFollowFamilies(init);
      assert entries == init + [last];
      assert forall k :: 0 <= k < |init| ==> init[k] == entries[k];
      SupportedModelsAreTheFamilies(last.0);
    }
  }
}
