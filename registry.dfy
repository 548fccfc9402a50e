/**
 * The model registry of App.js: the fixed list of selectable models and the
 * lookup the header badge performs on it (`MODELS.find(m => m.id === model)`).
 */
module ModelRegistry {
  import opened Options

  /** One selectable model: its API id, its display name and its badge colour. */
  datatype ModelInfo = ModelInfo(id: string, name: string, color: string)

  /** The registry, in the order the model selector lists it. */
  const Models: seq<ModelInfo> := [
    ModelInfo("openai/gpt-4o-mini-search-preview", "OpenAI GPT-4o Mini Search Preview", "#2563eb"),
    ModelInfo("google/gemini-2.5-flash-lite-preview-06-17", "Google Gemini", "#ed8936"),
    ModelInfo("google/gemma-3n-e2b-it:free", "Google Gemma (free)", "#059669"),
    ModelInfo("nvidia/nemotron-nano-9b-v2:free", "NVIDIA Nemotron Nano (free)", "#13b3b6"),
    ModelInfo("agentica-org/deepcoder-14b-preview:free", "Deepcoder (agentica, free)", "#b91c1c"),
    ModelInfo("mistralai/mistral-small-3.2-24b-instruct:free", "Mistral Small (free)", "#7c3aed"),
    ModelInfo("x-ai/grok-4-fast:free", "GROK (free)", "#ea580c")
  ]

  /** The model a fresh session starts on: the first registry entry. */
  const DefaultModelId: string := Models[0].id

  /** Badge colour used when the selected id is not in the registry. */
  const FallbackColor: string := "#555"

  /** Every id the registry offers, in selector order. */
  function Ids(models: seq<ModelInfo>): (r: seq<string>)
    ensures |r| == |models|
    ensures forall k :: 0 <= k < |models| ==> r[k] == models[k].id
  {
    seq(|models|, k requires 0 <= k < |models| => models[k].id)
  }

  /**
   * `Array.prototype.find` with the predicate `m.id === id`: the first model
   * whose id is `id`, or nothing when no model has it.
   */
  function Find(models: seq<ModelInfo>, id: string): (r: Option<ModelInfo>)
    ensures r.None? <==> forall k :: 0 <= k < |models| ==> models[k].id != id
    ensures r.Some? ==> exists k :: 0 <= k < |models| && models[k] == r.value &&
                          r.value.id == id &&
                          forall j :: 0 <= j < k ==> models[j].id != id
  {
    if |models| == 0 then None
    else if models[0].id == id then Some(models[0])
    else
      var rest := Find(models[1..], id);
      if rest.Some? then
        ghost var k :| 0 <= k < |models| - 1 && models[1..][k] == rest.value &&
                       rest.value.id == id && forall j :: 0 <= j < k ==> models[1..][j].id != id;
        assert models[k + 1] == rest.value;
        rest
      else rest
  }

  /** The registry's ids are pairwise distinct. */
  ghost predicate DistinctIds(models: seq<ModelInfo>)
  {
    forall i, j :: 0 <= i < j < |models| ==> models[i].id != models[j].id
  }

  /** With distinct ids, looking up any entry's own id yields that entry. */
  lemma {:induction false} FindOwnId(models: seq<ModelInfo>, k: nat)
    requires DistinctIds(models)
    requires k < |models|
    ensures Find(models, models[k].id) == Some(models[k])
  {
    var r := Find(models, models[k].id);
    var j :| 0 <= j < |models| && models[j] == r.value && r.value.id == models[k].id &&
             forall i :: 0 <= i < j ==> models[i].id != models[k].id;
    if j != k {
      assert j < k;
    }
  }

  /** The shipped registry has distinct ids, so every selector option finds its own entry. */
  lemma RegistryLookup(k: nat)
    requires k < |Models|
    ensures Find(Models, Ids(Models)[k]) == Some(Models[k])
  {
    assert DistinctIds(Models);
    FindOwnId(Models, k);
  }

  /**
   * The header badge colour: the selected model's colour, or the fallback
   * colour when the id is unknown (`modelData?.color || "#555"`).
   */
  function BadgeColor(models: seq<ModelInfo>, id: string): (r: string)
    ensures r != ""
    ensures (forall k :: 0 <= k < |models| ==> models[k].id != id) ==> r == FallbackColor
    ensures forall k ::
      (0 <= k < |models| && models[k].id == id && models[k].color != "" &&
       forall j :: 0 <= j < k ==> models[j].id != id) ==> r == models[k].color
    ensures forall k ::
      (0 <= k < |models| && models[k].id == id && models[k].color == "" &&
       forall j :: 0 <= j < k ==> models[j].id != id) ==> r == FallbackColor
  {
    match Find(models, id)
    case Some(m) => if m.color != "" then m.color else FallbackColor
    case None => FallbackColor
  }
}
