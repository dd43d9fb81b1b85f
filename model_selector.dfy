/**
  The selection-consistency rule of the chat model selector: a (provider, model) pair kept
  consistent with an externally supplied, ordered provider list and model catalog.

  The pure part (look-ups, the option lists, the disabled flag and the rendered view) is
  written as functions; the caller-owned selection that the component changes through its
  setters is the class `SelectionState`, whose methods are the effect body and the two
  change handlers.
 */
module ModelSelector {
  import opened Optional
  import opened ArrayOps

  /** An enabled provider; only its name is used. */
  datatype Provider = Provider(name: string)

  /** A catalog entry: its name (the value selected), its `label` (the text shown) and its owning provider's name. */
  datatype ModelInfo = ModelInfo(name: string, labelText: string, provider: string)

  /** The caller-owned selection: optional provider and optional model name. */
  datatype Selection = Selection(provider: Option<Provider>, model: Option<string>)

  /** One `<option>` of a dropdown: the value it submits and the text it shows. */
  datatype SelectOption = SelectOption(value: string, text: string)

  /** What the component renders. */
  datatype View =
    | NoProvidersNotice
    | Selectors(providerValue: string, providerOptions: seq<SelectOption>,
                modelValue: Option<string>, modelOptions: seq<SelectOption>,
                modelDisabled: bool)

  /** The loading token that means "the models of every provider are loading". */
  const AllProviders: string := "all"

  /** The single option shown while models load: empty value. */
  const LoadingPlaceholder: SelectOption := SelectOption("", "Loading...")

  // ---------------------------------------------------------------------------------
  // Look-ups

  /** The names of the enabled providers, one per provider, in list order. */
  function ProviderNames(providers: seq<Provider>): (names: seq<string>)
    ensures |names| == |providers|
    ensures forall i :: 0 <= i < |providers| ==> names[i] == providers[i].name
    ensures forall n :: n in names <==> exists p :: p in providers && p.name == n
  {
    var names := seq(|providers|, i requires 0 <= i < |providers| => providers[i].name);
    assert forall i :: 0 <= i < |providers| ==> names[i] == providers[i].name && providers[i] in providers;
    names
  }

  /** Whether some enabled provider carries `name`, tested on the list of provider names. */
  predicate Listed(providers: seq<Provider>, name: string)
    ensures Listed(providers, name) <==> exists i :: 0 <= i < |providers| && providers[i].name == name
  {
    assert forall i :: 0 <= i < |providers| ==> ProviderNames(providers)[i] == providers[i].name;
    name in ProviderNames(providers)
  }

  /** The selected provider's name, absent when no provider is selected. */
  function ProviderName(provider: Option<Provider>): (r: Option<string>)
    ensures r.None? <==> provider.None?
    ensures provider.Some? ==> r.value == provider.value.name
  {
    match provider
    case None => None
    case Some(p) => Some(p.name)
  }

  /** The first enabled provider named `name`, if any. */
  function LookupProvider(providers: seq<Provider>, name: string): (r: Option<Provider>)
    ensures r.Some? ==> r.value in providers && r.value.name == name
    ensures r.None? <==> forall p :: p in providers ==> p.name != name
  {
    Find(providers, (p: Provider) => p.name == name)
  }

  /** The first catalog entry of the provider named `name`, if any. */
  function FirstModelFor(models: seq<ModelInfo>, name: string): (r: Option<ModelInfo>)
    ensures r.Some? ==> r.value in models && r.value.provider == name
    ensures r.None? <==> forall m :: m in models ==> m.provider != name
  {
    Find(models, (m: ModelInfo) => m.provider == name)
  }

  /** Membership test and name look-up agree: a name is listed exactly when `find` finds it. */
  lemma ListedIffFound(providers: seq<Provider>, name: string)
    ensures Listed(providers, name) <==> LookupProvider(providers, name).Some?
    ensures LookupProvider(providers, name).Some? ==>
              LookupProvider(providers, name).value in providers &&
              LookupProvider(providers, name).value.name == name
  {
  }

  /** The model search returns the earliest catalog entry of the provider. */
  lemma FirstModelForIsFirst(models: seq<ModelInfo>, name: string, i: nat)
    requires i < |models| && models[i].provider == name
    requires forall j :: 0 <= j < i ==> models[j].provider != name
    ensures FirstModelFor(models, name) == Some(models[i])
  {
  }

  /** The model selection after a step that adopts the found model, if any. */
  function AdoptModel(found: Option<ModelInfo>, current: Option<string>): (r: Option<string>)
    ensures found.None? ==> r == current
    ensures found.Some? ==> r == Some(found.value.name)
  {
    match found
    case None => current
    case Some(m) => Some(m.name)
  }

  // ---------------------------------------------------------------------------------
  // The synchronizer (the effect body) and the two handlers, on values

  /**
    The selection after one pass of the synchronizer: over a non-empty list a set provider
    ends up listed, and the model is either kept or a catalog entry of the resulting provider.
   */
  function Synchronize(sel: Selection, providers: seq<Provider>, models: seq<ModelInfo>): (r: Selection)
    ensures r.provider.None? <==> sel.provider.None?
    ensures |providers| > 0 && sel.provider.Some? ==> Listed(providers, r.provider.value.name)
    ensures r.provider == sel.provider || (|providers| > 0 && r.provider == Some(providers[0]))
    ensures r.model == sel.model || (r.provider.Some? &&
            exists m :: m in models && m.provider == r.provider.value.name && r.model == Some(m.name))
  {
    assert |providers| > 0 ==> ProviderNames(providers)[0] == providers[0].name;
    if |providers| == 0 then sel
    else if sel.provider.Some? && !Listed(providers, sel.provider.value.name) then
      Selection(Some(providers[0]), AdoptModel(FirstModelFor(models, providers[0].name), sel.model))
    else sel
  }

  /**
    The selection after the provider dropdown reports `value`: the provider is kept or becomes
    a listed provider named `value`; the model is kept or becomes a catalog entry of `value`.
   */
  function SelectProvider(sel: Selection, providers: seq<Provider>, models: seq<ModelInfo>, value: string): (r: Selection)
    ensures r.provider == sel.provider || (r.provider.Some? && r.provider.value in providers && r.provider.value.name == value)
    ensures r.model == sel.model || exists m :: m in models && m.provider == value && r.model == Some(m.name)
  {
    var found := LookupProvider(providers, value);
    Selection(if found.Some? then found else sel.provider,
              AdoptModel(FirstModelFor(models, value), sel.model))
  }

  /** The selection after the model dropdown reports `value`: that model, the same provider. */
  function SelectModel(sel: Selection, value: string): (r: Selection)
    ensures r.model == Some(value) && r.provider == sel.provider
  {
    sel.(model := Some(value))
  }

  /** With no providers the synchronizer changes nothing. */
  lemma SyncEmptyListNoOp(sel: Selection, models: seq<ModelInfo>)
    ensures Synchronize(sel, [], models) == sel
  {
  }

  /** An unset provider, or one still listed, is never overridden. */
  lemma SyncKeepsUnsetOrListed(sel: Selection, providers: seq<Provider>, models: seq<ModelInfo>)
    requires sel.provider.None? || Listed(providers, sel.provider.value.name)
    ensures Synchronize(sel, providers, models) == sel
  {
  }

  /**
    A set provider that is no longer listed is replaced by the first listed one, and the model
    becomes the first catalog entry of that provider, or stays as it was when it has none.
   */
  lemma SyncRepairs(sel: Selection, providers: seq<Provider>, models: seq<ModelInfo>)
    requires |providers| > 0 && sel.provider.Some? && !Listed(providers, sel.provider.value.name)
    ensures Synchronize(sel, providers, models).provider == Some(providers[0])
    ensures (forall j :: 0 <= j < |models| ==> models[j].provider != providers[0].name) ==>
              Synchronize(sel, providers, models).model == sel.model
    ensures forall i :: 0 <= i < |models| && models[i].provider == providers[0].name &&
                        (forall j :: 0 <= j < i ==> models[j].provider != providers[0].name) ==>
              Synchronize(sel, providers, models).model == Some(models[i].name)
  {
  }

  /** A second pass with the same lists changes nothing. */
  lemma SyncIdempotent(sel: Selection, providers: seq<Provider>, models: seq<ModelInfo>)
    ensures var once := Synchronize(sel, providers, models);
            Synchronize(once, providers, models) == once
  {
  }

  /** Repair to the first provider when the catalog has no model for it keeps the old model. */
  lemma SyncRepairWithoutModelExample()
    ensures var sel := Selection(Some(Provider("C")), Some("old"));
            var providers := [Provider("A"), Provider("B")];
            var models := [ModelInfo("m1", "M1", "B")];
            Synchronize(sel, providers, models) == Selection(Some(Provider("A")), Some("old"))
  {
  }

  /** Choosing a provider picks its first catalog model. */
  lemma ChooseProviderExample()
    ensures var providers := [Provider("A"), Provider("B")];
            var models := [ModelInfo("m1", "M1", "B"), ModelInfo("m2", "M2", "B")];
            SelectProvider(Selection(Some(Provider("A")), None), providers, models, "B")
              == Selection(Some(Provider("B")), Some("m1"))
  {
  }

  /** Choosing a listed name selects the first provider of that name. */
  lemma ChooseListedProvider(sel: Selection, providers: seq<Provider>, models: seq<ModelInfo>, value: string)
    requires Listed(providers, value)
    ensures var r := SelectProvider(sel, providers, models, value);
            r.provider.Some? && r.provider.value in providers && r.provider.value.name == value
  {
  }

  /** Choosing an unlisted name leaves the provider as it was. */
  lemma ChooseUnlistedProvider(sel: Selection, providers: seq<Provider>, models: seq<ModelInfo>, value: string)
    requires !Listed(providers, value)
    ensures SelectProvider(sel, providers, models, value).provider == sel.provider
  {
    ListedIffFound(providers, value);
  }

  /**
    The model step of the provider handler keys on the chosen name alone: it is the first
    catalog entry with that provider, or the old model, whatever the provider list holds.
   */
  lemma ChooseProviderModelStep(sel: Selection, providers: seq<Provider>, others: seq<Provider>,
                                models: seq<ModelInfo>, value: string)
    ensures SelectProvider(sel, providers, models, value).model == SelectProvider(sel, others, models, value).model
    ensures (forall j :: 0 <= j < |models| ==> models[j].provider != value) ==>
              SelectProvider(sel, providers, models, value).model == sel.model
    ensures forall i :: 0 <= i < |models| && models[i].provider == value &&
                        (forall j :: 0 <= j < i ==> models[j].provider != value) ==>
              SelectProvider(sel, providers, models, value).model == Some(models[i].name)
  {
  }

  /** Choosing an offered provider yields a state the synchronizer leaves alone. */
  lemma ChooseOfferedThenSyncNoOp(sel: Selection, providers: seq<Provider>, models: seq<ModelInfo>, k: nat)
    requires k < |ProviderOptions(providers)|
    ensures var r := SelectProvider(sel, providers, models, ProviderOptions(providers)[k].value);
            Synchronize(r, providers, models) == r
  {
    var value := ProviderOptions(providers)[k].value;
    assert ProviderNames(providers)[k] == value;
    ChooseListedProvider(sel, providers, models, value);
  }

  // ---------------------------------------------------------------------------------
  // Option derivation

  /** One option per enabled provider, in list order, showing and submitting its name. */
  function ProviderOptions(providers: seq<Provider>): (r: seq<SelectOption>)
    ensures |r| == |providers|
    ensures forall o :: o in r ==> o.value == o.text && Listed(providers, o.value)
  {
    seq(|providers|, i requires 0 <= i < |providers| => SelectOption(providers[i].name, providers[i].name))
  }

  /** Each provider is offered once, in list order, and every offered value names a listed provider. */
  lemma ProviderOptionsAreTheList(providers: seq<Provider>)
    ensures |ProviderOptions(providers)| == |providers|
    ensures forall i :: 0 <= i < |providers| ==> ProviderOptions(providers)[i].value == providers[i].name
    ensures forall o :: o in ProviderOptions(providers) ==> LookupProvider(providers, o.value).Some?
  {
  }

  /**
    Whether the models shown for the selected provider are still loading: the token names
    every provider, or equals the selected provider's name. Token and name are compared as
    optional values, so an absent token matches an absent provider. The same test decides
    both the options shown and whether the model dropdown is disabled.
   */
  predicate IsLoading(modelLoading: Option<string>, provider: Option<Provider>)
    ensures modelLoading == Some(AllProviders) ==> IsLoading(modelLoading, provider)
    ensures modelLoading.None? ==> (IsLoading(modelLoading, provider) <==> provider.None?)
    ensures modelLoading.Some? && modelLoading.value != AllProviders ==>
              (IsLoading(modelLoading, provider) <==> provider.Some? && modelLoading.value == provider.value.name)
  {
    modelLoading == Some(AllProviders) || modelLoading == ProviderName(provider)
  }

  /** With neither a loading token nor a selected provider, the two absent values compare equal and the dropdown counts as loading. */
  lemma UnsetLoadingMatchesUnsetProvider()
    ensures IsLoading(None, None)
  {
  }

  /** Which catalog entries the model dropdown offers: those of the selected provider with a non-empty name. */
  function OfferedTo(provider: Option<Provider>): (offered: ModelInfo -> bool)
    ensures forall m :: offered(m) ==> m.name != "" && provider.Some? && m.provider == provider.value.name
    ensures provider.Some? ==> forall m: ModelInfo :: m.provider == provider.value.name && m.name != "" ==> offered(m)
  {
    (m: ModelInfo) => ProviderName(provider) == Some(m.provider) && m.name != ""
  }

  /** The option a catalog entry renders as: it submits the model's name and shows its label. */
  function ModelOption(m: ModelInfo): (o: SelectOption)
    ensures o.value == m.name && o.text == m.labelText
    ensures m.name != "" ==> o != LoadingPlaceholder
  {
    SelectOption(m.name, m.labelText)
  }

  /**
    The model dropdown's options: the loading placeholder alone while loading, otherwise the
    catalog entries of the selected provider with a non-empty name, in catalog order.
   */
  function ModelOptions(models: seq<ModelInfo>, provider: Option<Provider>, modelLoading: Option<string>): (r: seq<SelectOption>)
    ensures IsLoading(modelLoading, provider) ==> r == [LoadingPlaceholder]
    ensures !IsLoading(modelLoading, provider) ==>
              var idx := MatchIndices(models, OfferedTo(provider));
              |r| == |idx| && forall k :: 0 <= k < |r| ==> r[k] == ModelOption(models[idx[k]])
  {
    if IsLoading(modelLoading, provider) then [LoadingPlaceholder]
    else
      var offered := Filter(models, OfferedTo(provider));
      FilterIsMatchesInOrder(models, OfferedTo(provider));
      seq(|offered|, k requires 0 <= k < |offered| => ModelOption(offered[k]))
  }

  /**
    Outside loading, an option is offered exactly when some catalog entry of the selected
    provider with a non-empty name renders as it; no such option has an empty value.
   */
  lemma ModelOptionsExact(models: seq<ModelInfo>, provider: Option<Provider>, modelLoading: Option<string>)
    requires !IsLoading(modelLoading, provider)
    ensures forall o :: o in ModelOptions(models, provider, modelLoading) <==>
              exists i :: 0 <= i < |models| && OfferedTo(provider)(models[i]) && o == ModelOption(models[i])
    ensures forall o :: o in ModelOptions(models, provider, modelLoading) ==> o.value != ""
    ensures provider.None? ==> ModelOptions(models, provider, modelLoading) == []
  {
  }

  /** The options are the lone placeholder exactly while loading. */
  lemma PlaceholderIffLoading(models: seq<ModelInfo>, provider: Option<Provider>, modelLoading: Option<string>)
    ensures ModelOptions(models, provider, modelLoading) == [LoadingPlaceholder] <==> IsLoading(modelLoading, provider)
  {
  }

  /**
    A provider chosen from the options, whose first model has a non-empty name, leaves a
    model selection that the model dropdown offers once loading is over.
   */
  lemma ChosenModelIsOffered(sel: Selection, providers: seq<Provider>, models: seq<ModelInfo>,
                             value: string, modelLoading: Option<string>)
    requires Listed(providers, value)
    requires FirstModelFor(models, value).Some? && FirstModelFor(models, value).value.name != ""
    requires !IsLoading(modelLoading, SelectProvider(sel, providers, models, value).provider)
    ensures var r := SelectProvider(sel, providers, models, value);
            r.model.Some? &&
            exists o :: o in ModelOptions(models, r.provider, modelLoading) && o.value == r.model.value
  {
    var r := SelectProvider(sel, providers, models, value);
    ChooseListedProvider(sel, providers, models, value);
    var m := FirstModelFor(models, value).value;
    var i :| 0 <= i < |models| && models[i] == m && models[i].provider == value;
    assert OfferedTo(r.provider)(models[i]);
    ModelOptionsExact(models, r.provider, modelLoading);
    assert ModelOption(m) in ModelOptions(models, r.provider, modelLoading);
  }

  // ---------------------------------------------------------------------------------
  // The rendered view

  /** The component's output for the current selection, lists and loading token. */
  function Render(sel: Selection, providers: seq<Provider>, models: seq<ModelInfo>, modelLoading: Option<string>): (v: View)
    ensures v.NoProvidersNotice? <==> |providers| == 0
    ensures v.Selectors? ==> (v.modelDisabled <==> v.modelOptions == [LoadingPlaceholder])
    ensures v.Selectors? ==> v.providerValue == (if sel.provider.Some? then sel.provider.value.name else "")
    ensures v.Selectors? ==>
              && v.providerOptions == ProviderOptions(providers)
              && v.modelValue == sel.model
              && v.modelOptions == ModelOptions(models, sel.provider, modelLoading)
              && (v.modelDisabled <==> IsLoading(modelLoading, sel.provider))
  {
    if |providers| == 0 then NoProvidersNotice
    else
      var options := ModelOptions(models, sel.provider, modelLoading);
      PlaceholderIffLoading(models, sel.provider, modelLoading);
      Selectors(match ProviderName(sel.provider) case None => "" case Some(n) => n,
                ProviderOptions(providers), sel.model, options,
                IsLoading(modelLoading, sel.provider))
  }

  // ---------------------------------------------------------------------------------
  // The caller-owned selection, changed through its setters

  class SelectionState {
    var provider: Option<Provider>
    var model: Option<string>

    /** The selection as a value. */
    function Current(): Selection
      reads this
    {
      Selection(provider, model)
    }

    /** The selection the caller starts with. */
    constructor (provider: Option<Provider>, model: Option<string>)
      ensures Current() == Selection(provider, model)
    {
      this.provider := provider;
      this.model := model;
    }

    /** The effect body: repairs a provider that is set but no longer listed. */
    method Sync(providers: seq<Provider>, models: seq<ModelInfo>)
      modifies this
      ensures Current() == Synchronize(old(Current()), providers, models)
      ensures |providers| == 0 || old(provider).None? || Listed(providers, old(provider).value.name) ==>
                provider == old(provider) && model == old(model)
      ensures |providers| > 0 && old(provider).Some? ==>
                provider.Some? && Listed(providers, provider.value.name)
    {
      if |providers| == 0 {
        return;
      }
      if provider.Some? && !Listed(providers, provider.value.name) {
        var firstEnabled := providers[0];
        provider := Some(firstEnabled);
        var firstModel := FirstModelFor(models, firstEnabled.name);
        if firstModel.Some? {
          model := Some(firstModel.value.name);
        }
        assert ProviderNames(providers)[0] == firstEnabled.name;
      }
    }

    /** The provider dropdown's change handler. */
    method ChooseProvider(providers: seq<Provider>, models: seq<ModelInfo>, value: string)
      modifies this
      ensures Current() == SelectProvider(old(Current()), providers, models, value)
      ensures Listed(providers, value) ==> provider.Some? && provider.value.name == value
      ensures !Listed(providers, value) ==> provider == old(provider)
    {
      var newProvider := LookupProvider(providers, value);
      if newProvider.Some? {
        provider := newProvider;
      }
      var firstModel := FirstModelFor(models, value);
      if firstModel.Some? {
        model := Some(firstModel.value.name);
      }
      ListedIffFound(providers, value);
    }

    /** The model dropdown's change handler. */
    method ChooseModel(value: string)
      modifies this
      ensures Current() == SelectModel(old(Current()), value)
      ensures model == Some(value) && provider == old(provider)
    {
      model := Some(value);
    }
  }
}
