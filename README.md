# Model selector: selection consistency

A Dafny model of the provider/model selector of the chat UI
(`app/components/chat/ModelSelector.tsx`). The component shows two dependent dropdowns. One
picks an enabled provider. The other picks a model of that provider from a global catalog.
The component keeps the caller-owned pair (provider, model) consistent with the ordered
provider list and model list it is given:

- the **synchronizer** (the effect body) replaces a provider that is set but no longer
  listed by the first listed provider, and moves the model to that provider's first
  catalog entry when there is one;
- the **provider handler** looks the chosen name up in the provider list and, independently,
  moves the model to the first catalog entry whose provider is that name;
- the **model handler** sets the model to the chosen value;
- the **option derivation** lists the providers in order, and lists the selected provider's
  models with a non-empty name in catalog order. While models load (the loading token is
  `"all"` or equals the selected provider's name) it shows one empty-valued placeholder and
  disables the model dropdown instead.

Files:

- `optional.dfy`: `Option`, standing for a JavaScript value that may be `undefined`.
- `array_ops.dfy`: the array operations the component uses, `find` and `filter`, as recursive
  functions with their first-match and exact, order-preserving characterisations.
  `FindIndex` is the first-match position search underneath `Find`; the component does not
  call `findIndex` itself.
- `model_selector.dfy`: the entities (`Provider`, `ModelInfo`, `Selection`, `SelectOption`,
  `View`), the three operations on values (`Synchronize`, `SelectProvider`, `SelectModel`),
  the option lists and the rendered view as functions, and the class `SelectionState`. That
  class is the caller's selection, which the component changes through its setters. Its
  methods `Sync`, `ChooseProvider` and `ChooseModel` run the source's steps and are proved
  equal to the value-level operations. The lemmas state the properties.

Three points where the code's behaviour is easy to misread:

- The synchronizer repairs only a provider that is *set*. This follows the `provider &&` guard
  at line 35. An unset provider stays unset, so "the provider is listed" holds after a pass
  only when a provider was set (the contract of `Synchronize` says so).
- The loading test compares the optional token with the optional provider name. When neither
  is set the comparison `undefined === undefined` is true, so the dropdown shows the
  placeholder and is disabled (`UnsetLoadingMatchesUnsetProvider` with `Render`).
- The handlers and the synchronizer adopt a model found by `find`, which does not skip models
  with an empty name. The option filter does skip them. So the adopted model is offered only
  when its name is non-empty (`ChosenModelIsOffered` requires it).

## Model

| member | source | states |
|---|---|---|
| `ArrayOps.FindIndex` | app/components/chat/ModelSelector.tsx:71 | the position search underneath the `find` calls: a returned position holds a matching element and no earlier element matches; nothing is returned exactly when no element matches |
| `ArrayOps.Find` | app/components/chat/ModelSelector.tsx:40 | a returned element stands at a matching position before which nothing matches; nothing is returned exactly when no element matches |
| `ArrayOps.FindReturnsFirstMatch` | app/components/chat/ModelSelector.tsx:65 | if position i is the first match, `find` returns the element at i |
| `ArrayOps.Filter` | app/components/chat/ModelSelector.tsx:101 | the result is no longer than the input, holds only matching input elements, and holds every matching element |
| `ArrayOps.MatchIndices` | app/components/chat/ModelSelector.tsx:101 | strictly increasing positions, each in range and matching, covering every matching position, and empty when nothing matches |
| `ArrayOps.FilterIsMatchesInOrder` | app/components/chat/ModelSelector.tsx:100-101 | the k-th element kept by `filter` is the element at the k-th matching position, so order is preserved and nothing else is kept |
| `ModelSelector.ProviderNames` | app/components/chat/ModelSelector.tsx:35 | one name per provider, in list order; a name occurs exactly when some provider carries it |
| `ModelSelector.Listed` | app/components/chat/ModelSelector.tsx:35 | the name test on the mapped name list holds exactly when some provider in the list carries the name |
| `ModelSelector.ProviderName` | app/components/chat/ModelSelector.tsx:63 | absent exactly when no provider is selected, otherwise the selected provider's name |
| `ModelSelector.LookupProvider` | app/components/chat/ModelSelector.tsx:65 | a found provider is in the list and carries the name; nothing is found exactly when no provider carries it (first match: `FindReturnsFirstMatch`) |
| `ModelSelector.FirstModelFor` | app/components/chat/ModelSelector.tsx:40 | a found model is in the catalog and belongs to the named provider; nothing is found exactly when the provider has no catalog entry (first match: `FirstModelForIsFirst`) |
| `ModelSelector.AdoptModel` | app/components/chat/ModelSelector.tsx:42-44 | a found model replaces the selection by its name; no model found keeps the selection |
| `ModelSelector.Synchronize` | app/components/chat/ModelSelector.tsx:29-46 | a provider stays set or unset; over a non-empty list a set provider ends up listed; the provider is kept or becomes the first listed one; the model is kept or is the name of a catalog entry of the resulting provider (cases in `SyncEmptyListNoOp`, `SyncKeepsUnsetOrListed`, `SyncRepairs`, `SyncIdempotent`) |
| `ModelSelector.SelectProvider` | app/components/chat/ModelSelector.tsx:64-76 | the provider is kept or becomes a listed provider with the chosen name; the model is kept or is the name of a catalog entry of the chosen name (cases in `ChooseListedProvider`, `ChooseUnlistedProvider`, `ChooseProviderModelStep`) |
| `ModelSelector.SelectModel` | app/components/chat/ModelSelector.tsx:90 | the model becomes the chosen value and the provider is unchanged |
| `ModelSelector.ProviderOptions` | app/components/chat/ModelSelector.tsx:80-84 | one option per provider, each showing and submitting the name of a listed provider (order in `ProviderOptionsAreTheList`) |
| `ModelSelector.IsLoading` | app/components/chat/ModelSelector.tsx:92-95 | the token `"all"` always means loading; an absent token means loading exactly when no provider is selected; any other token means loading exactly when a provider is selected and the token is its name; `Render` uses it for both the placeholder and the disabled flag |
| `ModelSelector.OfferedTo` | app/components/chat/ModelSelector.tsx:101 | an entry is offered exactly when it belongs to the selected provider and has a non-empty name; with no provider nothing is offered |
| `ModelSelector.ModelOption` | app/components/chat/ModelSelector.tsx:102-105 | an entry's option submits its name and shows its label, and an entry with a non-empty name never renders as the loading placeholder |
| `ModelSelector.ListedIffFound` | app/components/chat/ModelSelector.tsx:35 | a name is in the mapped name list exactly when `find` by name finds a provider, and the one found is in the list and carries that name |
| `ModelSelector.FirstModelForIsFirst` | app/components/chat/ModelSelector.tsx:40 | the model search returns the earliest catalog entry of the provider |
| `ModelSelector.SyncEmptyListNoOp` | app/components/chat/ModelSelector.tsx:31-33 | with an empty provider list the synchronizer changes neither provider nor model |
| `ModelSelector.SyncKeepsUnsetOrListed` | app/components/chat/ModelSelector.tsx:35 | an unset provider, or one whose name is listed, leaves the selection unchanged |
| `ModelSelector.SyncRepairs` | app/components/chat/ModelSelector.tsx:35-44 | a set, unlisted provider becomes the first listed provider; the model becomes the name of that provider's first catalog entry, or stays when it has none |
| `ModelSelector.SyncIdempotent` | app/components/chat/ModelSelector.tsx:35-44 | a second pass with the same lists changes nothing |
| `ModelSelector.SyncRepairWithoutModelExample` | app/components/chat/ModelSelector.tsx:35-44 | providers [A, B], catalog [m1 of B], provider C: the provider becomes A and the model stays as it was |
| `ModelSelector.ChooseListedProvider` | app/components/chat/ModelSelector.tsx:65-69 | choosing a listed name selects a listed provider of that name |
| `ModelSelector.ChooseUnlistedProvider` | app/components/chat/ModelSelector.tsx:65-69 | choosing an unlisted name leaves the provider unchanged |
| `ModelSelector.ChooseProviderModelStep` | app/components/chat/ModelSelector.tsx:71-75 | the new model does not depend on the provider list; it is the first catalog entry of the chosen name, or the old model when there is none |
| `ModelSelector.ChooseProviderExample` | app/components/chat/ModelSelector.tsx:64-76 | choosing B with catalog [m1 of B, m2 of B] selects provider B and model m1 |
| `ModelSelector.ChooseOfferedThenSyncNoOp` | app/components/chat/ModelSelector.tsx:64-84 | after choosing any offered provider option, the synchronizer changes nothing |
| `ModelSelector.ProviderOptionsAreTheList` | app/components/chat/ModelSelector.tsx:80-84 | one option per provider, in list order, valued by its name; every offered value is found by the provider handler's look-up |
| `ModelSelector.UnsetLoadingMatchesUnsetProvider` | app/components/chat/ModelSelector.tsx:92 | with no loading token and no provider, the loading test holds, so by `Render`'s contract the model dropdown shows the placeholder and is disabled |
| `ModelSelector.ModelOptions` | app/components/chat/ModelSelector.tsx:95-107 | while loading, exactly the one placeholder; otherwise the k-th option is the k-th catalog entry of the selected provider with a non-empty name |
| `ModelSelector.ModelOptionsExact` | app/components/chat/ModelSelector.tsx:100-106 | outside loading an option is offered exactly when a catalog entry of the selected provider with a non-empty name renders as it; no offered value is empty; no provider means no options |
| `ModelSelector.PlaceholderIffLoading` | app/components/chat/ModelSelector.tsx:92-107 | the options are the lone placeholder exactly when the loading test holds |
| `ModelSelector.ChosenModelIsOffered` | app/components/chat/ModelSelector.tsx:71-101 | after choosing a listed provider whose first model has a non-empty name, the model dropdown offers the selected model once loading is over |
| `ModelSelector.Render` | app/components/chat/ModelSelector.tsx:48-108 | the "no providers" notice is shown exactly when the provider list is empty; otherwise the view carries the provider options, the selected model and the model options, the model dropdown is disabled exactly when the loading test holds and exactly when its options are the lone placeholder, and the provider dropdown's value is the provider's name or empty |
| `ModelSelector.SelectionState.constructor` | app/components/chat/ModelSelector.tsx:20-23 | the selection starts as the caller supplies it |
| `ModelSelector.SelectionState.Sync` | app/components/chat/ModelSelector.tsx:29-46 | the new selection is `Synchronize` of the old one; an empty list, unset provider or listed provider changes nothing; over a non-empty list a set provider ends up listed |
| `ModelSelector.SelectionState.ChooseProvider` | app/components/chat/ModelSelector.tsx:64-76 | the new selection is `SelectProvider` of the old one; a listed name becomes the provider's name, an unlisted one leaves the provider |
| `ModelSelector.SelectionState.ChooseModel` | app/components/chat/ModelSelector.tsx:90 | the model becomes the chosen value and the provider is unchanged |

## Left out

- Markup, class names, styles and the text of the "no providers" notice: presentation only. The
  notice is the `View` case `NoProvidersNotice`.
- React's effect scheduling, its dependency array, setter batching and re-render order. `Sync`
  is an explicit call. The two setter calls of a handler are applied together by one method.
- The `defaultValue` strings of both dropdowns. React ignores them when `value` is given.
- The unused `apiKeys` prop, and the `key` props used for React reconciliation.
- The optionality of `setProvider` and `setModel`. Both setters are treated as always present.
- The fields of the provider and model records other than `name`, `label` and `provider`. The
  record types are defined in files that are not part of this model. `label` is the field
  `labelText`, since `label` is a Dafny keyword.
