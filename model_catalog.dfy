/**
 * The model selector: the free and premium catalogues, selecting a model by
 * id, the fixed auto-selection and when the weekly-quota panel is shown.
 */
module ModelCatalog {
  import opened Wrappers
  import opened EgoTypes
  import opened EgoStore

  const FreeModels: seq<AIModel> := [
    AIModel("gpt-3.5", "GPT-3.5 Turbo", Free, 0, 0, None),
    AIModel("claude-instant", "Claude Instant", Free, 0, 0, None),
    AIModel("llama-7b", "Llama 2 7B", Free, 0, 0, None),
    AIModel("mistral-7b", "Mistral 7B", Free, 0, 0, None),
    AIModel("falcon-7b", "Falcon 7B", Free, 0, 0, None)
  ]

  const PremiumModels: seq<AIModel> := [
    AIModel("gpt-4", "GPT-4 Turbo", Premium, 3, 7, None),
    AIModel("claude-3-opus", "Claude 3 Opus", Premium, 1, 7, None),
    AIModel("gemini-pro", "Gemini Pro", Premium, 5, 7, None),
    AIModel("llama-70b", "Llama 2 70B", Premium, 2, 7, None),
    AIModel("claude-3-sonnet", "Claude 3 Sonnet", Premium, 0, 7, None)
  ]

  const AllModels: seq<AIModel> := FreeModels + PremiumModels

  /** `models.find(m => m.id === id)`: the first model with that id, if any. */
  function FindById(models: seq<AIModel>, id: string): (found: Option<AIModel>)
    ensures found.None? <==> forall i :: 0 <= i < |models| ==> models[i].id != id
    ensures found.Some? ==>
              exists i :: 0 <= i < |models| && models[i] == found.value && (forall j :: 0 <= j < i ==> models[j].id != id)
    ensures found.Some? ==> found.value.id == id
  {
    if models == [] then None
    else if models[0].id == id then Some(models[0])
    else
      var rest := FindById(models[1..], id);
      assert forall i :: 1 <= i < |models| ==> models[i] == models[1..][i - 1];
      if rest.Some? then
        var k :| 0 <= k < |models| - 1 && models[1..][k] == rest.value && (forall j :: 0 <= j < k ==> models[1..][j].id != id);
        assert models[k + 1] == rest.value;
        rest
      else rest
  }

  /** The catalogue: five models of each tier, ids all different, free models without quota, premium ones within 7. */
  lemma CatalogueFacts()
    ensures |FreeModels| == 5 && |PremiumModels| == 5 && |AllModels| == 10
    ensures forall i :: 0 <= i < |FreeModels| ==> FreeModels[i].tier == Free && FreeModels[i].quotaLimit == 0
    ensures forall i :: 0 <= i < |PremiumModels| ==>
      PremiumModels[i].tier == Premium && 0 <= PremiumModels[i].quotaUsed <= PremiumModels[i].quotaLimit == 7
    ensures forall i, j :: 0 <= i < j < |AllModels| ==> AllModels[i].id != AllModels[j].id
  {
    var ids := ["gpt-3.5", "claude-instant", "llama-7b", "mistral-7b", "falcon-7b",
                "gpt-4", "claude-3-opus", "gemini-pro", "llama-70b", "claude-3-sonnet"];
    assert forall i :: 0 <= i < 10 ==> AllModels[i].id == ids[i];
    assert forall i, j :: 0 <= i < j < 10 ==> ids[i] != ids[j];
  }

  /** Looking up the id of any catalogue model finds that very model. */
  lemma FindsEachCatalogueModel(k: nat)
    requires k < |AllModels|
    ensures FindById(AllModels, AllModels[k].id) == Some(AllModels[k])
  {
    CatalogueFacts();
    var found := FindById(AllModels, AllModels[k].id);
    var i :| 0 <= i < |AllModels| && AllModels[i] == found.value && (forall j :: 0 <= j < i ==> AllModels[j].id != AllModels[k].id);
    assert i == k;
  }

  /** The selector's change handler: a catalogue id selects that model, any other id selects nothing. */
  method SelectById(store: Store, value: string)
    modifies store
    ensures FindById(AllModels, value).Some? ==> store.selectedModel == FindById(AllModels, value)
    ensures FindById(AllModels, value).None? ==> store.selectedModel == old(store.selectedModel)
    ensures store.messages == old(store.messages) && store.customization == old(store.customization)
    ensures store.inputMode == old(store.inputMode) && store.isThinking == old(store.isThinking)
  {
    var model := FindById(AllModels, value);
    if model.Some? {
      store.SetSelectedModel(model.value);
    }
  }

  /** `handleAutoSelect`: always the first premium model, gpt-4. */
  method AutoSelect(store: Store)
    modifies store
    ensures store.selectedModel == Some(PremiumModels[0])
    ensures store.selectedModel.value.id == "gpt-4" && store.selectedModel.value.tier == Premium
    ensures store.messages == old(store.messages) && store.customization == old(store.customization)
    ensures store.inputMode == old(store.inputMode) && store.isThinking == old(store.isThinking)
  {
    store.SetSelectedModel(PremiumModels[0]);
  }

  /** The weekly-quota panel is shown when a model is selected and it is premium. */
  predicate ShowsQuotaPanel(selected: Option<AIModel>) {
    selected.Some? && selected.value.tier == Premium
  }

  /** Selecting a catalogue model shows the panel exactly for the premium half of the catalogue. */
  lemma QuotaPanelForSelection(k: nat)
    requires k < |AllModels|
    ensures ShowsQuotaPanel(FindById(AllModels, AllModels[k].id)) <==> k >= |FreeModels|
  {
    FindsEachCatalogueModel(k);
    CatalogueFacts();
    if k >= |FreeModels| {
      assert AllModels[k] == PremiumModels[k - |FreeModels|];
    } else {
      assert AllModels[k] == FreeModels[k];
    }
  }
}
