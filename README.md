# kubevirt-plugin: list composition, SSH-secret submission, golden-image OS options

A Dafny model of three small decision rules in the KubeVirt console plugin.

- **The virtual-machine list** (`VirtualMachinesList`). This part picks the listed VMs: only the demo VM while the guided tour runs. It applies the mode gate, which chooses between the standard filter engine's output and the reduced-scan rule. The reduced-scan rule keeps a VM that has a running instance in the correlation index, or a non-running VM when no node or IP query parameter is set. It then cuts the page window with JavaScript `slice` semantics. The model also covers the pagination state, as a class with the two updates the page makes (a pager change, and the reset when the toolbar changes a filter), and the `loaded`, empty-state and all-selected flags. It also covers the `namespace -> name` lookups that the table rows receive.
- **The SSH-secret dialog of a VM** (`VMSSHSecretModal`). This part computes the initial "apply key to project" flag. For a submission, it decides whether the per-namespace authorized-keys map is updated and to what. It also decides which one VM action follows: detach the secret, attach an existing secret, create a secret and then attach it, or nothing.
- **The golden-image OS picker of the upload form** (`UploadPVCFormGoldenImage`). This part gives each operating system's option label in a fixed priority: "data image already exists", then "template missing data image definition", then the name or id. It also builds the option list and the select value, and decides when the placeholder is disabled and which parts of the section are shown.

`wrappers.dfy` holds the `Option` type. It stands for a value the source reads as possibly `undefined`.

Note the polarity of the mode gate at `VirtualMachinesList.tsx:170`. The standard engine is used only when the feature is off or the pod is known dead (`isProxyPodAlive === false`). So the reduced-scan mode runs while the pod is alive and also while its health is undetermined (`SelectMode`). The node/IP condition of the reduced-scan rule, at `VirtualMachinesList.tsx:181`, is the mere presence of the `rowFilter-node` or `ip` query parameter, whatever its value (`KeptInReducedScan`).

## Model

| member | source | states |
|---|---|---|
| `VirtualMachinesList.Lookup` | src/views/virtualmachines/list/VirtualMachinesList.tsx:320-321 | the nested lookup yields the entity stored under `[ns][name]`, and is absent exactly when the mapper, the namespace level or the name level is missing |
| `VirtualMachinesList.ShownVMs` | src/views/virtualmachines/list/VirtualMachinesList.tsx:108 | while the tour runs the list is exactly `[tourGuideVM]`; otherwise it is the watched list unchanged |
| `VirtualMachinesList.KeptInReducedScan` | src/views/virtualmachines/list/VirtualMachinesList.tsx:180-181 | a VM with a running instance in the correlation index is always kept; with a `rowFilter-node` or `ip` parameter present, or with status `Running`, it is kept iff it has one; a VM without a status and without those parameters is kept |
| `VirtualMachinesList.ReducedScanMatches` | src/views/virtualmachines/list/VirtualMachinesList.tsx:177-184 | the reduced-scan result holds only VMs of the input that the rule keeps, and every kept VM as many times as the input holds it |
| `VirtualMachinesList.ReducedScanSelectsKeptPositions` | src/views/virtualmachines/list/VirtualMachinesList.tsx:177-184 | the reduced-scan filter keeps input order: it is exactly the selection of the positions the rule keeps |
| `VirtualMachinesList.ReducedScanIsSubsequence` | src/views/virtualmachines/list/VirtualMachinesList.tsx:177-184 | the reduced-scan result is a subsequence of `vmToShow` |
| `VirtualMachinesList.JsSlice` | src/views/virtualmachines/list/VirtualMachinesList.tsx:174-185 | the page is a contiguous run of `data`; for `0 <= start <= end` it is `data[min(start,n)..min(end,n)]`, at most `end - start` long, and empty when `start >= n` |
| `VirtualMachinesList.SecondPageOfThirteen` | src/views/virtualmachines/list/VirtualMachinesList.tsx:185 | with 13 matches, the window 10..20 yields the last three VMs; the end is clamped to 13 |
| `VirtualMachinesList.SelectMode` | src/views/virtualmachines/list/VirtualMachinesList.tsx:170 | standard mode iff the feature is off or the pod is known dead; a disabled feature always means standard; enabled with undetermined health means reduced-scan |
| `VirtualMachinesList.ComposeView` | src/views/virtualmachines/list/VirtualMachinesList.tsx:169-196 | standard mode passes the engine's two lists through; reduced-scan lists `vmToShow` unfiltered and its kept subsequence as data; the page is always the slice of data by the pagination window |
| `VirtualMachinesList.DataIsSubsequenceOfUnfiltered` | src/views/virtualmachines/list/VirtualMachinesList.tsx:169-185 | in both modes `data` is an order-preserving subsequence of `unfilteredData`, given that the engine's filtered output is one of its unfiltered output |
| `VirtualMachinesList.TourShowsOnlyGuideVM` | src/views/virtualmachines/list/VirtualMachinesList.tsx:108 | in reduced-scan mode during the tour, the unfiltered list is the demo VM, data is the demo VM iff the rule keeps it and empty otherwise, and the page holds at most one VM |
| `VirtualMachinesList.Loaded` | src/views/virtualmachines/list/VirtualMachinesList.tsx:220-226 | `loaded` holds iff the VMs, instances, migrations, single-node flag and columns are loaded and the feature flag is not loading; a loading feature flag alone makes it false |
| `VirtualMachinesList.LoadedIffEveryInputReady` | src/views/virtualmachines/list/VirtualMachinesList.tsx:220-226 | `loaded` holds iff every awaited input (VMs, instances, migrations, single-node flag, feature flag not loading, columns) is ready; any one not ready makes it false |
| `VirtualMachinesList.ShowEmptyState` | src/views/virtualmachines/list/VirtualMachinesList.tsx:228-235 | the empty state is shown iff loaded, nothing unfiltered, and not (pod alive and a filter selected); with the pod not alive, the filters are irrelevant |
| `VirtualMachinesList.EmptyStateHidesNoVM` | src/views/virtualmachines/list/VirtualMachinesList.tsx:228-235 | whenever the empty state is shown, the data list and the page are empty too, so no listed VM is hidden by it |
| `VirtualMachinesList.AllVMsSelected` | src/views/virtualmachines/list/VirtualMachinesList.tsx:232-233 | when the existing selected VMs are drawn from data, "all selected" (equal lengths) holds iff the selection is all of data, as a multiset |
| `VirtualMachinesList.PaginationState.constructor` | src/views/virtualmachines/list/VirtualMachinesList.tsx:151 | the state starts as the given initial pagination |
| `VirtualMachinesList.PaginationState.OnPageChange` | src/views/virtualmachines/list/VirtualMachinesList.tsx:203-210 | a page change stores exactly the supplied page, perPage, startIndex and endIndex |
| `VirtualMachinesList.PaginationState.OnFilterChange` | src/views/virtualmachines/list/VirtualMachinesList.tsx:278-286 | a filter change resets to page 1, startIndex 0 and endIndex equal to the previous perPage; perPage is unchanged; with a positive page size the result is a well-formed page window |
| `VirtualMachinesList.FilterResetShowsFirstPage` | src/views/virtualmachines/list/VirtualMachinesList.tsx:280-285 | after the reset, the page is the first `perPage` VMs of data, or all of them if there are fewer |
| `VMSSHSecretModal.AuthorizedKeyFor` | src/utils/components/VMSSHSecretModal/VMSSHSecretModal.tsx:36 | `authorizedSSHKeys?.[namespace]` is the namespace's entry (which may itself be `undefined`), and `undefined` when the map or the entry is missing |
| `VMSSHSecretModal.InitialApplyKeyToProject` | src/utils/components/VMSSHSecretModal/VMSSHSecretModal.tsx:36 | the initial `applyKeyToProject` holds iff the VM's secret name is set and non-empty, the map has an entry for the namespace, and that entry equals the name |
| `VMSSHSecretModal.WithAuthorizedKey` | src/utils/components/VMSSHSecretModal/VMSSHSecretModal.tsx:51 | the spread-copy map has the old keys plus the namespace; the namespace maps to the submitted secret name, even an unset one, and every other entry is unchanged |
| `VMSSHSecretModal.ChooseAction` | src/utils/components/VMSSHSecretModal/VMSSHSecretModal.tsx:54-79 | detach iff `none` is chosen and the initial option was not `none`; attach iff an existing secret is chosen whose name is set, non-empty and differs from the initial one, and then with that name; create-then-attach iff a new secret is chosen with a non-empty key and name, and then with that key and name in the VM's namespace; nothing otherwise |
| `VMSSHSecretModal.OnSubmit` | src/utils/components/VMSSHSecretModal/VMSSHSecretModal.tsx:42-80 | unchanged details do nothing; the key map is updated iff the details changed, the key is applied to the project and the namespace's entry is not `===` the submitted name (so `undefined` and `""` differ), and then to the spread copy; detach, attach-existing and create-then-attach each happen iff the details changed and their guard holds, with the submitted name and key |
| `VMSSHSecretModal.NoActionOtherwise` | src/utils/components/VMSSHSecretModal/VMSSHSecretModal.tsx:79 | when none of the three action guards holds, no VM action follows |
| `VMSSHSecretModal.ActionIgnoresAuthorizedKeys` | src/utils/components/VMSSHSecretModal/VMSSHSecretModal.tsx:54-77 | the chosen VM action does not depend on the authorized-keys map |
| `VMSSHSecretModal.UnsetNameAddsNoKey` | src/utils/components/VMSSHSecretModal/VMSSHSecretModal.tsx:50-52 | an unset secret name submitted for a namespace without an entry leaves the key map alone, since `undefined !== undefined` is false |
| `VMSSHSecretModal.KeyUpdateIsSettled` | src/utils/components/VMSSHSecretModal/VMSSHSecretModal.tsx:33-52 | after a key-map update, the same submission against the new map updates nothing, and a VM with that secret, when it is set and non-empty, opens with `applyKeyToProject` set |
| `UploadPVCFormGoldenImage.FindGoldenPvc` | src/views/cdi-upload-provider/upload-pvc-form/UploadPVCFormGoldenImage.tsx:66-68 | `find` returns a claim iff some claim matches the base image's name and namespace, and then it returns the first such claim |
| `UploadPVCFormGoldenImage.OsLabel` | src/views/cdi-upload-provider/upload-pvc-form/UploadPVCFormGoldenImage.tsx:65-82 | "already exists" iff a golden claim matches; otherwise "missing definition" iff the base image name is unset or empty; otherwise `name`, or `id` when `name` is empty; both special labels carry the name, or the id when the name is empty |
| `UploadPVCFormGoldenImage.Options` | src/views/cdi-upload-provider/upload-pvc-form/UploadPVCFormGoldenImage.tsx:59-85 | the options are one placeholder with value `""`, disabled iff an OS is selected, then one option per OS in input order, with its label and value `id` |
| `UploadPVCFormGoldenImage.SelectValue` | src/views/cdi-upload-provider/upload-pvc-form/UploadPVCFormGoldenImage.tsx:57 | the select value is the selected OS's id, or `""` when none is selected; it is empty iff none is selected or the id is empty |
| `UploadPVCFormGoldenImage.RenderGoldenImageForm` | src/views/cdi-upload-provider/upload-pvc-form/UploadPVCFormGoldenImage.tsx:57-113 | the select value is the selected OS's id, or `""` when none is selected; the options are exactly `Options` of the selection, the systems and the claims; only the placeholder can be disabled, and it is iff an OS is selected; the checkboxes appear iff an OS is selected; the alert appears iff `osImageExists` |
| `UploadPVCFormGoldenImage.SelectValueIsOffered` | src/views/cdi-upload-provider/upload-pvc-form/UploadPVCFormGoldenImage.tsx:57-85 | when the selected OS is one of the offered systems, the select value is the value of some option: of the placeholder, labelled "pick an operating system", when nothing is selected; otherwise of option `i+1` for every position `i` of the selected OS, which carries that OS's label |
| `UploadPVCFormGoldenImage.LabelIgnoresPvcOrder` | src/views/cdi-upload-provider/upload-pvc-form/UploadPVCFormGoldenImage.tsx:66-82 | an OS's label depends only on which golden claims exist, not on their order |

## Left out

- Resource watching, the feature flag, the proxy-pod health probe, the single-node check, signals and metrics. Their outputs are inputs of the model: lists, loaded flags, and the tri-state `ProxyPodHealth`.
- The standard filter engine (`useListPageFilter`), the construction of the filters (`useVMListFilters`) and of the correlation mappers (`convertIntoPVCMapper` and the instance and migration mappers). Their code is not part of this model, so `unfilterData`, `dataFilters` and the mappers are inputs. No tie-break for duplicate keys is modelled. Where a property needs the engine's output to be drawn from its input, the lemma states that as a precondition.
- The selected-filter list and the existing-selection hook. Only the number of selected filters and the list of existing selected VMs enter the model.
- Column and layout resolution. Only the columns' loaded flag enters the model.
- The initial pagination constants. They are given to `PaginationState`'s constructor.
- `getInitialSSHDetails`, whose code is not part of this model. The initial details are an input; only the `applyKeyToProject` formula it receives is modelled. `isEqualObject` is modelled as structural equality of the details record.
- The remote calls `detachVMSecret`, `updateVM` with `addSecretToVM`, and `createSSHSecret`, with their promises and failures. They are returned as a `VmAction`. "Create before attach" is carried by the `CreateSecretThenAttach` constructor, not by a model of promise sequencing.
- An unset OS `name` is modelled as `""`, since the source only reads it through `name || id`. The secret name and public key are `Option<string>`, so `undefined` and `""` stay apart, and `isEmpty` on them is "unset or `""`".
- `PaginationState.OnFilterChange`: only the toolbar's filter change resets the page. A filter change pushed from the tree view through the imperative handle (`VirtualMachinesList.tsx:158-165`) reaches the filter engine without a pagination reset; the model does not cover that path.
- Translation. Labels are `OptionLabel` constructors, not strings. The alert's text and the resource link inside it are not modelled beyond whether the alert is shown.
- React re-render timing and memoisation. Each derived value is a function of its inputs.
