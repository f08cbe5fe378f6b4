/** The model catalogs and the two label helpers of src/lib/chat.ts. */
module ModelLabels {
  import opened Wrappers
  import opened Strings

  datatype CloudflareModel = CloudflareModel(id: string, name: string, category: string)
  datatype ExternalModel = ExternalModel(id: string, name: string, provider: string, defaultBaseUrl: string)

  /** A Workers AI model id: the "@cf/" prefix and the model path. */
  function WorkersAiId(path: string): (id: string)
    ensures |id| == |path| + 4 && id[4..] == path
  {
    "@cf/" + path
  }

  /** `CLOUDFLARE_MODELS` */
  const CloudflareModels: seq<CloudflareModel> := [
    CloudflareModel(WorkersAiId("meta/llama-3.1-8b-instruct"), "Llama 3.1 8B", "General"),
    CloudflareModel(WorkersAiId("meta/llama-3-8b-instruct"), "Llama 3 8B", "General"),
    CloudflareModel(WorkersAiId("mistral/mistral-7b-instruct-v0.2"), "Mistral 7B v0.2", "General"),
    CloudflareModel(WorkersAiId("google/gemma-2-9b-it"), "Gemma 2 9B", "General"),
    CloudflareModel(WorkersAiId("qwen/qwen2.5-7b-instruct"), "Qwen 2.5 7B", "General"),
    CloudflareModel(WorkersAiId("microsoft/phi-3.5-mini-instruct"), "Phi 3.5 Mini", "Lightweight"),
    CloudflareModel(WorkersAiId("deepseek-ai/deepseek-coder-6.7b-instruct"), "DeepSeek Coder 6.7B", "Coding")
  ]

  /** `EXTERNAL_MODELS` */
  const ExternalModels: seq<ExternalModel> := [
    ExternalModel("llama-3.1-70b-versatile", "Llama 3.1 70B", "Groq", "https://api.groq.com/openai/v1"),
    ExternalModel("gemma2-9b-it", "Gemma 2 9B", "Groq", "https://api.groq.com/openai/v1"),
    ExternalModel("meta-llama/Llama-3.1-405B-Instruct-Turbo", "Llama 3.1 405B", "Together AI", "https://api.together.xyz/v1"),
    ExternalModel("mistralai/Mixtral-8x22B-Instruct-v0.1", "Mixtral 8x22B", "Together AI", "https://api.together.xyz/v1"),
    ExternalModel("accounts/fireworks/models/mixtral-8x22b-instruct", "Mixtral 8x22B", "Fireworks", "https://api.fireworks.ai/inference/v1"),
    ExternalModel("meta-llama/Meta-Llama-3.1-70B-Instruct", "Llama 3.1 70B", "DeepInfra", "https://api.deepinfra.com/v1/openai"),
    ExternalModel("gpt-4o", "GPT-4o", "OpenAI", "https://api.openai.com/v1"),
    ExternalModel("claude-3-5-sonnet-20240620", "Claude 3.5 Sonnet", "Anthropic", "https://openrouter.ai/api/v1")
  ]

  /** `models.find(m => key(m) === id)`: the position of the first entry with that key. */
  function Find<T>(models: seq<T>, id: string, key: T -> string): (r: Option<nat>)
    ensures r.None? <==> forall j :: 0 <= j < |models| ==> key(models[j]) != id
    ensures r.Some? ==> (r.value < |models| && key(models[r.value]) == id
                         && forall j :: 0 <= j < r.value ==> key(models[j]) != id)
  {
    if models == [] then None
    else if key(models[0]) == id then Some(0)
    else match Find(models[1..], id, key)
      case None => None
      case Some(k) => Some(k + 1)
  }

  function CloudflareId(m: CloudflareModel): string { m.id }
  function ExternalId(m: ExternalModel): string { m.id }

  /** `s.split('/').pop()`: the longest suffix of `s` without a '/'. */
  function LastSegment(s: string): (r: string)
    ensures '/' !in r
    ensures |r| <= |s| && r == s[|s| - |r|..]
    ensures |r| < |s| ==> s[|s| - |r| - 1] == '/'
  {
    if s == [] then []
    else if s[|s| - 1] == '/' then []
    else LastSegment(s[..|s| - 1]) + [s[|s| - 1]]
  }

  /** `getModelLabel(modelId)`: a catalog name, else the text after the last '/', else the id
      itself. The label is empty only for the empty id. */
  function GetModelLabel(modelId: string): (r: string)
    ensures r == "" <==> modelId == ""
  {
    CatalogEntriesNonEmpty();
    match Find(CloudflareModels, modelId, CloudflareId)
    case Some(i) => CloudflareModels[i].name
    case None =>
      match Find(ExternalModels, modelId, ExternalId)
      case Some(i) => ExternalModels[i].name
      case None => if LastSegment(modelId) != "" then LastSegment(modelId) else modelId
  }

  /** `isCloudflareModel(modelId)`: it holds exactly for ids with the "@cf/" prefix, since every
      catalog id carries it; the catalog test adds nothing. */
  predicate IsCloudflareModel(modelId: string): (b: bool)
    ensures b <==> StartsWith(modelId, "@cf/")
  {
    CloudflareIdsPrefixed();
    StartsWith(modelId, "@cf/") || exists j :: 0 <= j < |CloudflareModels| && CloudflareModels[j].id == modelId
  }

  /** Every catalog entry has a non-empty id and a non-empty name. */
  lemma CatalogEntriesNonEmpty()
    ensures forall j :: 0 <= j < |CloudflareModels| ==> CloudflareModels[j].id != "" && CloudflareModels[j].name != ""
    ensures forall j :: 0 <= j < |ExternalModels| ==> ExternalModels[j].id != "" && ExternalModels[j].name != ""
  {
  }

  /** No two Cloudflare catalog entries share an id. */
  lemma CloudflareIdsDistinct()
    ensures forall i, j :: 0 <= i < j < |CloudflareModels| ==> CloudflareModels[i].id != CloudflareModels[j].id
  {
    forall i, j | 0 <= i < j < |CloudflareModels| ensures CloudflareModels[i].id != CloudflareModels[j].id {
      assert CloudflareModels[i].id[4..] != CloudflareModels[j].id[4..];
    }
  }

  lemma ExternalIdsDistinct()
    ensures forall i, j :: 0 <= i < j < |ExternalModels| ==> ExternalModels[i].id != ExternalModels[j].id
  {
  }

  /** Every Cloudflare catalog id carries the "@cf/" prefix. */
  lemma CloudflareIdsPrefixed()
    ensures forall j :: 0 <= j < |CloudflareModels| ==> StartsWith(CloudflareModels[j].id, "@cf/")
  {
  }

  /** No id is in both catalogs. */
  lemma CatalogsDisjoint()
    ensures forall i, j :: 0 <= i < |ExternalModels| && 0 <= j < |CloudflareModels| ==>
      ExternalModels[i].id != CloudflareModels[j].id
  {
  }

  /** A Cloudflare catalog id is labelled with its catalog name. */
  lemma LabelOfCloudflareModel(i: nat)
    requires i < |CloudflareModels|
    ensures GetModelLabel(CloudflareModels[i].id) == CloudflareModels[i].name
  {
    CloudflareIdsDistinct();
  }

  /** An external catalog id is labelled with its catalog name. */
  lemma LabelOfExternalModel(i: nat)
    requires i < |ExternalModels|
    ensures GetModelLabel(ExternalModels[i].id) == ExternalModels[i].name
  {
    ExternalIdsDistinct();
    CatalogsDisjoint();
  }

  /** An uncatalogued id is labelled with its text after the last '/', or itself when that text is
      empty; in particular an uncatalogued id without '/' is its own label. */
  lemma LabelOfUncataloguedModel(id: string)
    requires forall j :: 0 <= j < |CloudflareModels| ==> CloudflareModels[j].id != id
    requires forall j :: 0 <= j < |ExternalModels| ==> ExternalModels[j].id != id
    ensures var tail := LastSegment(id);
      GetModelLabel(id) == (if tail != "" then tail else id)
    ensures '/' !in id ==> GetModelLabel(id) == id
  {
    if '/' !in id {
      NoSlashIsOwnLastSegment(id);
    }
  }

  lemma {:induction false} NoSlashIsOwnLastSegment(s: string)
    requires '/' !in s
    ensures LastSegment(s) == s
  {
    if s != [] {
      assert s[|s| - 1] in s;
      NoSlashIsOwnLastSegment(s[..|s| - 1]);
      assert s[..|s| - 1] + [s[|s| - 1]] == s;
    }
  }
}
