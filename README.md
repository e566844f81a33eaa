# A verified model of four pieces of the ez engine and editor

This project is a Dafny model of four pieces of the ez engine and its editor, with proofs about that model:

- **Prefab instance maintenance of an editor document** (`DocumentPrefab.dfy`, class `DocumentPrefab.Document`):
  - updating every prefab instance from its prefab file;
  - reverting and unlinking selected instances;
  - replacing an object by a prefab;
  - the two lazy caches of prefab text and prefab graphs.

  The document is a class. Its fields are:
  - the file storage;
  - the metadata store (`meta`), a map from object guid to prefab asset, seed and base prefab text;
  - the two caches;
  - the command history (`history`), a log of transactions and commands;
  - the last status text.

  The object tree is a datatype, `ObjectNode`. The operations change it only by appending commands to the history: a remove, then an instantiate. Whoever executes the history changes the tree.

  `ezPrefabUtils::Merge` appears as the symbolic value `Merged(base, new, instance, seed)`, and `LoadGraph` as `LoadedGraph(text)`. What executing an instantiate command reports as its created root object (`createdRootOf`) and `CreatePrefabDocument` (`createPrefabDocument`) are parameters of the document.

  The update walk is specified by the function `Instances`, the instances in the order the walk handles them. The history a pass appends is `UpdateHistory` of that list. The lemmas say:
  - that the walk handles exactly the outermost instances below the start, each once when guids are distinct;
  - that nothing below an instance matters;
  - what each pair of commands holds.
- **`ezArrayMapBase`** (`ArrayMap.dfy`, class `ArrayMap.ArrayMapBase`):
  - a multimap stored as a sequence of key/value pairs plus a "sorted" flag;
  - sorted lazily by an insertion sort on key order;
  - searched by binary search;
  - removal either keeps the order or moves the last pair into the hole.

  Keys are `int`.
- **The texture asset's configuration logic** (`TextureAsset.dfy`, the data in `TextureAssetObjects.dfy`, path and number helpers in `StringUtils.dfy`):
  - classifying an image by its extension and file-name suffix;
  - the import modes offered for it;
  - what `Generate` writes into a new document for the chosen mode;
  - the complete TexConv command line `RunTexConv` builds, written as the step-by-step methods the source has and proved equal to a block-by-block specification function;
  - the render-target resolution and format switches;
  - `QueryAssetType`.
- **`ezMsaaResolvePass`** (`MsaaResolvePass.dfy`):
  - the constructor's initial state;
  - the validation and rewriting of the output texture description in `GetRenderTargetDescriptions`, which writes one slot of an `array`;
  - the null guard and the choice of resolve path in `Execute`.

`Wrappers.dfy` holds `Option` and `Result`.

The R1_G2 channel mapping passes `in1.y` as the green channel's source (TextureAsset.cpp:150). Every other read of one channel of an input is written with `.r` (RGB1_ABLACK's alpha is the constant `black`), and the multi-channel mappings pass `in0.rg`, `in0.rgb` or `in0.rgba`. The model keeps `in1.y` exactly as the source writes it. `ChannelMappingSources` treats it as a one-channel read of input 1.

## Model

| member | source | states |
|---|---|---|
| DocumentPrefab.InstancesFound | Code/Tools/ToolsFoundation/Document/Implementation/DocumentPrefab.cpp:222-249 | Soundness of the walk: every instance it handles has a valid prefab asset and carries its stored metadata. It lies strictly below the starting object, and its parent is at or below the starting object. InstancesComplete gives the converse. |
| DocumentPrefab.InstancesComplete | Code/Tools/ToolsFoundation/Document/Implementation/DocumentPrefab.cpp:222-249 | Completeness of the walk, both directions: a guid is among the handled instances if and only if it is an outermost instance below the start (`TopInstance`). That means it is reached through a chain of children none of which is an instance. |
| DocumentPrefab.InstancesDistinct | Code/Tools/ToolsFoundation/Document/Implementation/DocumentPrefab.cpp:222-249 | When no two objects of the tree share a guid, the walk handles each object at most once. |
| DocumentPrefab.PrunedInstances | Code/Tools/ToolsFoundation/Document/Implementation/DocumentPrefab.cpp:229-249 | Cutting away everything below each instance leaves the instances the walk handles unchanged. The walk never descends into an instance. |
| DocumentPrefab.AssetsOfAppend | Code/Tools/ToolsFoundation/Document/Implementation/DocumentPrefab.cpp:229-249 | The prefab assets of two lists of instances, one after the other, are the union of their assets. |
| DocumentPrefab.UpdateHistoryAppend | Code/Tools/ToolsFoundation/Document/Implementation/DocumentPrefab.cpp:229-249 | The commands for two lists of instances, one after the other, are the commands for the first list followed by those for the second. |
| DocumentPrefab.UpdateHistoryShape | Code/Tools/ToolsFoundation/Document/Implementation/DocumentPrefab.cpp:252-273 | An update adds exactly two commands per instance, in the order found: remove the instance's guid, then instantiate its own prefab asset with its own seed. The instantiated graph merges its base prefab text, the prefab's current text and the instance. The update adds no transaction markers in between. |
| DocumentPrefab.InstantiateCommandFields | Code/Tools/ToolsFoundation/Document/Implementation/DocumentPrefab.cpp:259-272 | The instantiate command keeps asset, seed and graph, and never allows a picked position. Its parent is nil exactly when the object's parent is the document root or nil, and otherwise it is the object's parent. |
| DocumentPrefab.RevertHistoryShape | Code/Tools/ToolsFoundation/Document/Implementation/DocumentPrefab.cpp:190-219 | Reverting a selection adds two commands for each linked object, in selection order: remove it, then instantiate its own prefab's current text with its own seed. Unlinked objects add nothing. |
| DocumentPrefab.RevertHistoryStep | Code/Tools/ToolsFoundation/Document/Implementation/DocumentPrefab.cpp:39-44 | The revert loop's step: the commands and the cached assets for the selection from position i on are those for object i, followed by those for the rest. |
| DocumentPrefab.UnlinkedMeta | Code/Tools/ToolsFoundation/Document/Implementation/DocumentPrefab.cpp:48-63 | After unlinking, each selected object has no prefab asset, no seed and no base prefab, with its other metadata kept. Every other object's metadata is unchanged, and no selected object is still an instance. |
| DocumentPrefab.Document.GetCachedPrefabDocument | Code/Tools/ToolsFoundation/Document/Implementation/DocumentPrefab.cpp:65-75 | The file is read only when the guid is not cached. An unreadable file gives the empty text, which is stored. A cached guid returns the stored text with the cache unchanged. Coherent caches stay coherent, and the returned text is then the file's current text. Nothing else changes. |
| DocumentPrefab.Document.GetCachedPrefabGraph | Code/Tools/ToolsFoundation/Document/Implementation/DocumentPrefab.cpp:77-97 | A cached graph is returned as it is. Otherwise an empty prefab text gives no graph and adds none. A non-empty text adds exactly one graph, the one loaded from that text, and returns it. Cache coherence is kept. |
| DocumentPrefab.Document.UpdatePrefabObject | Code/Tools/ToolsFoundation/Document/Implementation/DocumentPrefab.cpp:252-273 | It appends exactly the remove and instantiate pair for the merged graph, through the text cache, and changes nothing else. |
| DocumentPrefab.Document.UpdatePrefabsRecursive | Code/Tools/ToolsFoundation/Document/Implementation/DocumentPrefab.cpp:222-250 | The walk over the children copied before any update appends the update commands of exactly `Instances(node)`, in order. It caches exactly those instances' prefab texts, keeps the caches coherent and leaves metadata and graphs alone. |
| DocumentPrefab.Document.VisitChild | Code/Tools/ToolsFoundation/Document/Implementation/DocumentPrefab.cpp:231-248 | One turn of the walk on a child: an instance is updated, and any other child is walked in turn. |
| DocumentPrefab.Document.UpdatePrefabs | Code/Tools/ToolsFoundation/Document/Implementation/DocumentPrefab.cpp:13-26 | Both caches are emptied first, and the whole walk runs inside exactly one "Update Prefabs" transaction. The text cache then holds exactly the instances' assets, and the status reads "Prefabs have been updated". |
| DocumentPrefab.Document.RevertPrefab | Code/Tools/ToolsFoundation/Document/Implementation/DocumentPrefab.cpp:190-219 | An object without a valid prefab asset returns nil and adds no command. A linked object gets the remove and instantiate pair of its prefab's current text with its seed, and the method returns the created root. |
| DocumentPrefab.Document.RevertPrefabs | Code/Tools/ToolsFoundation/Document/Implementation/DocumentPrefab.cpp:28-46 | An empty selection changes nothing: no transaction and no cache clearing. Otherwise the caches are emptied and one "Revert Prefab" transaction holds the revert commands of the whole selection, in order. |
| DocumentPrefab.Document.UnlinkPrefabs | Code/Tools/ToolsFoundation/Document/Implementation/DocumentPrefab.cpp:48-63 | Only the metadata changes, to the unlinked store. No command is added and the caches stay. |
| DocumentPrefab.Document.ReplaceByPrefab | Code/Tools/ToolsFoundation/Document/Implementation/DocumentPrefab.cpp:169-188 | One "Replace by Prefab" transaction holds the remove and the instantiate of the prefab file's text with the given asset and seed. The method returns the created root. |
| DocumentPrefab.Document.CreatePrefabDocumentFromSelection | Code/Tools/ToolsFoundation/Document/Implementation/DocumentPrefab.cpp:99-118 | A selection that is not exactly one object fails with the source's message and changes nothing. A failed document creation returns its error and changes nothing. Otherwise the saved file is stored, and the object is replaced by the new prefab with the freshly created seed. |
| ArrayMap.PairOrderIsStrictWeak | Code/Engine/Foundation/Containers/ArrayMap.h:15-31 | The pair order (`PairLess`, keys only) is a strict weak order: irreflexive and transitive. Its incomparability is exactly pair equality, which ignores the value. `SortedByKey`, the insertion step and the binary search all compare through this order. |
| ArrayMap.HasKeyByMultiset | Code/Engine/Foundation/Containers/ArrayMap.h:54-59 | Whether a key is present depends only on the multiset of pairs, so sorting never changes what is found. |
| ArrayMap.SortedRemove | Code/Engine/Foundation/Containers/ArrayMap.h:79-84 | Cutting one pair out of a sorted array, keeping the order of the rest, leaves it sorted. |
| ArrayMap.SwapRemoveMultiset | Code/Engine/Foundation/Containers/ArrayMap.h:79-84 | Moving the last pair into slot i and dropping the last slot removes exactly the pair at i. |
| ArrayMap.InsertionSort | Code/Engine/Foundation/Containers/ArrayMap.h:54-55 | The result is sorted by key and is a permutation of the input. |
| ArrayMap.FindIndex | Code/Engine/Foundation/Containers/ArrayMap.h:57-59 | On a sorted array, the result is the invalid index exactly when no pair has the key. Otherwise it is an index of a pair with that key. |
| ArrayMap.ArrayMapBase.constructor | Code/Engine/Foundation/Containers/ArrayMap.h:33-34 | A new map is empty and sorted. |
| ArrayMap.ArrayMapBase.GetCount | Code/Engine/Foundation/Containers/ArrayMap.h:42-43 | The count is the number of stored pairs, duplicates included. |
| ArrayMap.ArrayMapBase.IsEmpty | Code/Engine/Foundation/Containers/ArrayMap.h:45-46 | True exactly when no pair is stored. |
| ArrayMap.ArrayMapBase.Clear | Code/Engine/Foundation/Containers/ArrayMap.h:48-49 | Afterwards no pair is stored (count 0, empty) and the map is sorted. |
| ArrayMap.ArrayMapBase.Insert | Code/Engine/Foundation/Containers/ArrayMap.h:51-52 | The new pair is always appended, even when the key is present, so the count grows by exactly one. The returned index holds it, and the map is marked unsorted. |
| ArrayMap.ArrayMapBase.Sort | Code/Engine/Foundation/Containers/ArrayMap.h:54-55 | Afterwards the map is sorted by key and holds the same multiset of pairs. A map already marked sorted is left as it is. |
| ArrayMap.ArrayMapBase.Find | Code/Engine/Foundation/Containers/ArrayMap.h:57-59 | It sorts, keeping the pairs, and a map already sorted is left exactly as it was. It returns the invalid index exactly when no pair has the key, and otherwise an index of one pair with that key. |
| ArrayMap.ArrayMapBase.Contains | Code/Engine/Foundation/Containers/ArrayMap.h:93-94 | True exactly when some stored pair has the key. The pairs are kept, and a map already sorted is left exactly as it was. |
| ArrayMap.ArrayMapBase.FindOrAdd | Code/Engine/Foundation/Containers/ArrayMap.h:70-71 | The returned index holds the key. An existing key adds nothing and reports that it existed. An absent key adds exactly one pair, with the key and the default value. On a map already sorted, an existing key leaves the data as it was, and an absent key appends its pair to that unchanged data. |
| ArrayMap.ArrayMapBase.Subscript | Code/Engine/Foundation/Containers/ArrayMap.h:73-74 | The same outcome as FindOrAdd, including the frame: a map already sorted keeps its data, with only a new pair appended when the key was absent. |
| ArrayMap.ArrayMapBase.RemoveAt | Code/Engine/Foundation/Containers/ArrayMap.h:79-84 | The pair at the index is removed and the count drops by one. On a sorted map with keepSorted the rest keeps its order and stays sorted. Otherwise the last pair fills the hole and the map is marked unsorted. |
| ArrayMap.ArrayMapBase.RemoveKeepingOrder | Code/Engine/Foundation/Containers/ArrayMap.h:79-84 | The order-keeping removal on a sorted map: the other pairs keep their order and the map stays sorted. |
| ArrayMap.ArrayMapBase.RemoveBySwap | Code/Engine/Foundation/Containers/ArrayMap.h:79-84 | The constant-time removal: the last pair moves into the hole and the map is marked unsorted. |
| ArrayMap.ArrayMapBase.Remove | Code/Engine/Foundation/Containers/ArrayMap.h:86-91 | Returns true exactly when a pair with the key existed, and then removes exactly one such pair, leaving the other duplicates. With keepSorted the map is left sorted. Otherwise nothing is removed. |
| MsaaResolvePass.ResolvedDescription | Code/Engine/RendererCore/Pipeline/Implementation/Passes/MsaaResolvePass.cpp:53-54 | The output description is the input's with only the sample count changed, to none. |
| MsaaResolvePass.MsaaResolvePass.constructor | Code/Engine/RendererCore/Pipeline/Implementation/Passes/MsaaResolvePass.cpp:20-30 | A new pass is not a depth pass and has sample count none. |
| MsaaResolvePass.MsaaResolvePass.GetRenderTargetDescriptions | Code/Engine/RendererCore/Pipeline/Implementation/Passes/MsaaResolvePass.cpp:36-65 | Succeeds exactly when the input is connected and multisampled. On failure, fields and outputs are unchanged. On success it records IsDepthFormat of the input format and the input's sample count, and writes the resolved description into the output pin's slot only. |
| MsaaResolvePass.MsaaResolvePass.Execute | Code/Engine/RendererCore/Pipeline/Implementation/Passes/MsaaResolvePass.cpp:67-106 | Nothing happens exactly when the input or the output connection is null. Otherwise a depth pass does the shader resolve with the stored sample count, and any other pass the texture resolve, from the input texture to the output texture. |
| StringUtils.FileNameIsComponent | Tools/EditorPluginAssets/TextureAsset/TextureAsset.cpp:409-411 | A file name taken from a path holds no path separator. It holds no dot when the path has no extension. |
| StringUtils.ChangeFileExtensionParts | Tools/EditorPluginAssets/TextureAsset/TextureAsset.cpp:413 | Changing to a plain extension keeps directory and file name, and the new path's extension is the one given. |
| StringUtils.ChangeFileNameParts | Tools/EditorPluginAssets/TextureAsset/TextureAsset.cpp:80-86 | Changing the file name keeps directory and extension, and the new path's file name is the one given. |
| StringUtils.DecimalRoundTrip | Tools/EditorPluginAssets/TextureAsset/TextureAsset.cpp:45 | Decimal text of a number reads back as that number. |
| StringUtils.HexRoundTrip | Tools/EditorPluginAssets/TextureAsset/TextureAsset.cpp:54-59 | Zero-padded upper-case hex text of width w of a value below 16^w reads back as the value. |
| TextureAsset.ClassifyTexture | Tools/EditorPluginAssets/TextureAsset/TextureAsset.cpp:415-450 | The type is HDR exactly when the path has the extension "hdr", whatever the name's suffix. |
| TextureAsset.FirstMatchNone | Tools/EditorPluginAssets/TextureAsset/TextureAsset.cpp:421-450 | In an else-if chain of groups, the result is Unknown exactly when no group matches. |
| TextureAsset.FirstMatchIsFirst | Tools/EditorPluginAssets/TextureAsset/TextureAsset.cpp:421-450 | In an else-if chain of distinct groups, the chosen group matches and no earlier group does. |
| TextureAsset.ClassifyTextureUnknown | Tools/EditorPluginAssets/TextureAsset/TextureAsset.cpp:415-450 | A non-hdr file is Unknown exactly when its name ends, ignoring case, with none of the suffixes of any group. |
| TextureAsset.ClassifyTextureFirstMatch | Tools/EditorPluginAssets/TextureAsset/TextureAsset.cpp:421-450 | A classified type's group matches the file name, and no group earlier in the order Diffuse, Normal, Roughness, AO, Height, Metalness, Linear does. |
| TextureAsset.ModeNameInjective | Tools/EditorPluginAssets/TextureAsset/TextureAsset.cpp:456-513 | Distinct types get distinct mode names, so dispatching on the name recovers the type. |
| TextureAsset.LowPriorityAlternatives | Tools/EditorPluginAssets/TextureAsset/TextureAsset.cpp:515-577 | The low-priority offers are exactly the types Diffuse, Linear, Normal, Metalness, Roughness, AO and Height other than the classified one. HDR and Unknown are never among them. |
| TextureAsset.LowPriorityCount | Tools/EditorPluginAssets/TextureAsset/TextureAsset.cpp:515-577 | Each alternative is offered once. There are seven low-priority offers, or six when the classified type is one of them. |
| TextureAsset.LowPriorityOffersAreOffers | Tools/EditorPluginAssets/TextureAsset/TextureAsset.cpp:515-577 | The seven `if (tt != x)` blocks together produce a low-priority offer for each alternative type, in order. |
| TextureAsset.AddImportModes | Tools/EditorPluginAssets/TextureAsset/TextureAsset.cpp:452-577 | The first mode appended is the classified type at default priority. The low-priority blocks follow, and every mode writes to the given output file. |
| TextureAsset.GetImportModes | Tools/EditorPluginAssets/TextureAsset/TextureAsset.cpp:406-578 | The modes appended are the classified type at default priority, followed by one low-priority offer per alternative type in order. All of them write to the input path with the document extension in place of the image's. |
| TextureAsset.ApplyImportMode | Tools/EditorPluginAssets/TextureAsset/TextureAsset.cpp:593-631 | Applying a mode changes only input 1, channel mapping, usage and filter; every other property is kept. |
| TextureAsset.Generate | Tools/EditorPluginAssets/TextureAsset/TextureAsset.cpp:580-635 | No document, and a document of another kind, give the source's two error messages. A texture document ends with the properties of the applied mode. |
| TextureAsset.ImportModeSettings | Tools/EditorPluginAssets/TextureAsset/TextureAsset.cpp:593-631 | For each mode offered, the image becomes input 1. The channel mapping is R1 exactly for AO, Height, Roughness and Metalness, and RGB1 otherwise. Usage is Diffuse, NormalMap or HDR exactly for those modes, and Other_Linear otherwise. The filter is LowestQuality for AO and LowQuality for the other single-channel modes, and is kept otherwise. |
| TextureAsset.LinearModeKeepsDefaults | Tools/EditorPluginAssets/TextureAsset/TextureAsset.cpp:610-612 | The Linear mode sets nothing beyond the RGB1 / Other_Linear defaults: any name that is no other mode's name gives the same properties as Linear. |
| TextureAsset.SplitHash | Tools/EditorPluginAssets/TextureAsset/TextureAsset.cpp:50-52 | The low and high 32-bit halves recombine to the hash, high * 2^32 + low. |
| TextureAsset.HashArgumentsRoundTrip | Tools/EditorPluginAssets/TextureAsset/TextureAsset.cpp:48-61 | The hash is written as "-assetHashLow" and "-assetHashHigh" followed by eight hex digits each, and reading those digits back gives the hash. |
| TextureAsset.LowResPathParts | Tools/EditorPluginAssets/TextureAsset/TextureAsset.cpp:78-87 | The low-resolution path keeps the target's directory and extension, and its file name is the target's followed by "-lowres". |
| TextureAsset.MipmapsFlagPresence | Tools/EditorPluginAssets/TextureAsset/TextureAsset.cpp:92-93 | "-mipmaps" is present exactly when mipmaps are enabled. |
| TextureAsset.CompressFlagPresence | Tools/EditorPluginAssets/TextureAsset/TextureAsset.cpp:95-96 | "-compress" is present exactly when compression is enabled. |
| TextureAsset.SrgbFlagPresence | Tools/EditorPluginAssets/TextureAsset/TextureAsset.cpp:98-99 | "-srgb" is present exactly when the texture is sRGB. |
| TextureAsset.HdrFlagPresence | Tools/EditorPluginAssets/TextureAsset/TextureAsset.cpp:101-102 | "-hdr" is present exactly when the texture is HDR. |
| TextureAsset.PremultipliedFlagPresence | Tools/EditorPluginAssets/TextureAsset/TextureAsset.cpp:104-105 | "-premulalpha" is present exactly when alpha is premultiplied. |
| TextureAsset.FlipFlagPresence | Tools/EditorPluginAssets/TextureAsset/TextureAsset.cpp:107-108 | "-flip_horz" is present exactly when horizontal flipping is enabled. |
| TextureAsset.AppendFlagArguments | Tools/EditorPluginAssets/TextureAsset/TextureAsset.cpp:92-108 | The flag lines append exactly the flag block, in the source's order. |
| TextureAsset.InputArgumentsFrom | Tools/EditorPluginAssets/TextureAsset/TextureAsset.cpp:117-127 | From input i on, the arguments are m pairs. The k-th pair is "-in" with the number i + k, followed by that input's absolute path, and each of those inputs has a file. The list ends at the last input or at the first one without a file. |
| TextureAsset.AppendInputArguments | Tools/EditorPluginAssets/TextureAsset/TextureAsset.cpp:117-127 | The input loop, which breaks at the first empty input, appends exactly the input pairs. |
| TextureAsset.InputArgumentsShape | Tools/EditorPluginAssets/TextureAsset/TextureAsset.cpp:117-127 | The input pairs are -in0, -in1, ... in order, each followed by that input's absolute path. They stop at the first input without a file or at the last input. |
| TextureAsset.ChannelMappingTargets | Tools/EditorPluginAssets/TextureAsset/TextureAsset.cpp:129-209 | For every mapping, the channel options write exactly the channels the enumerator names, each once and in r, g, b, a order. |
| TextureAsset.ChannelMappingOptions | Tools/EditorPluginAssets/TextureAsset/TextureAsset.cpp:129-209 | Every assignment's option is a "-" followed by at least one channel letter. |
| TextureAsset.ChannelMappingSources | Tools/EditorPluginAssets/TextureAsset/TextureAsset.cpp:129-209 | Every source is "black" or reads one of the inputs the enumerator names, as many channels as its option writes. |
| TextureAsset.ChannelMappingReadsNamedInputs | Tools/EditorPluginAssets/TextureAsset/TextureAsset.cpp:129-209 | Every input the enumerator names is read by some assignment. |
| TextureAsset.WriteOutputArguments | Tools/EditorPluginAssets/TextureAsset/TextureAsset.cpp:42-87 | The version, hash, output, optional thumbnail and low-resolution lines produce exactly the output block. |
| TextureAsset.AppendSettingsArguments | Tools/EditorPluginAssets/TextureAsset/TextureAsset.cpp:89-115 | The channel count, flags, maximum resolution, address modes and filter lines append exactly the settings block. |
| TextureAsset.RunTexConvArguments | Tools/EditorPluginAssets/TextureAsset/TextureAsset.cpp:34-209 | The argument list built line by line is the output block, the settings block, the input pairs and the channel-mapping table, in that order. |
| TextureAsset.RenderTargetResolution | Tools/EditorPluginAssets/TextureAsset/TextureAsset.cpp:277-313 | Every listed resolution has a size, and a value outside the enumerators has none. |
| TextureAsset.RenderTargetResolutionTable | Tools/EditorPluginAssets/TextureAsset/TextureAsset.cpp:277-313 | Fixed sizes are square with a side of 64, 128, 256, 512, 1024 or 2048. The console-variable sizes are (-1, 1) and (-1, 2). All fit the header's 16-bit fields, and no two enumerators share a size. |
| TextureAsset.RenderTargetFormatToGal | Tools/EditorPluginAssets/TextureAsset/TextureAsset.cpp:315-334 | The GAL format is Invalid exactly for a value outside the four listed formats. |
| TextureAsset.RenderTargetFormatInjective | Tools/EditorPluginAssets/TextureAsset/TextureAsset.cpp:315-334 | Distinct listed formats map to distinct GAL formats. |
| TextureAsset.QueryAssetType | Tools/EditorPluginAssets/TextureAsset/TextureAsset.cpp:366-374 | The type is "Render Target" exactly for a render target, and "Texture 2D" otherwise. |

## Left out

- Three-way merge, guid remapping, graph loading: `ezPrefabUtils::Merge`, `ReMapNodeGuids` and `LoadGraph` are not part of this model. They are left uninterpreted, as the symbolic values `Merged` and `LoadedGraph`.
- Prefab document creation: `CreatePrefabDocument` (the document manager, the object converter and saving) is a parameter of the document. Its result is the new guid and the saved text, or an error.
- Command execution: executing commands belongs to the command system. The history records the commands, and `createdRootOf` stands for the created root object an executed instantiate reports. The tree therefore stays the same value across an update pass. The walk's copy of the children taken before any update is that value.
- Guid to path: `GetDocumentPathFromGuid` asserts "not implemented" in the source. It is modelled as the `documentPaths` map, and an unknown guid gives the empty path.
- File access: reading a file becomes a lookup in `Storage.files`, and an unreadable file gives the empty text.
- Base prefab text: UpdatePrefabObject (DocumentPrefab.cpp:252-273) does not rewrite the instance's m_sBasePrefab. It only adds the remove/instantiate pair of commands, and that pair is all the model records.
- Locking and notification: the metadata read/modify locking and the PrefabFlag change notification are not modelled. UnlinkPrefabs is modelled as the three field writes on the metadata map.
- Status display: ShowDocumentStatus becomes the `documentStatus` field, and logging is left out.
- New seed: the fresh uuid that CreatePrefabDocumentFromSelection creates with `CreateNewUuid` (DocumentPrefab.cpp:108-109) is the input `seedGuid`. The model does not make it fresh or distinct from other guids.
- Selection: the selection is given as a sequence of object references (guid and parent guid). The top-level selection computation is outside the model.
- ArrayMap_inl.h is not part of this model. The behaviour of each ArrayMap operation follows the declarations' doc comments, and the sort is an insertion sort on key order.
- `ezArrayMapBase` members not modelled: GetKey, GetValue and operator[](index) (plain indexed reads), Reserve and Compact (capacity only), copy construction, assignment, ==/!=, the allocator and the derived ezArrayMap.
- ArrayMap keys and const-ness: keys are `int`. The `const` lookups that sort the `mutable` state appear as methods that modify the map.
- ArrayMap count limit: counts are bounded below 0xFFFFFFFF. Find's index is a natural number, with 0xFFFFFFFF as the invalid index.
- TexConv execution: running TexConv, the command-line log, the wait and its failure, thumbnail hashing and AppendThumbnailInfo are not modelled.
- Thumbnail path: GetThumbnailFilePath, its directory creation and GetAbsoluteInputFilePath become inputs of the argument builder.
- Render-target file: the header stream is not modelled: its version byte, the sRGB flag, the address-mode bytes, the float resolution scale and the write-failure status. Only the resolution and format tables are. An unlisted resolution, which asserts "not implemented" in the source, is `None`.
- InternalTransformAsset's else branch: the file-size check and the delete of the temporary file are not modelled.
- InitializeAfterLoading and the document constructor are not modelled.
- Derived properties: GetNumChannels, GetNumInputFiles, IsSRGB and IsHDR are computed outside this file and become the `DerivedProperties` input. The maximum resolution from the asset profile is an input.
- Filter value: the filter's numeric value is its position in the enumeration's declaration.
- Path helpers: HasExtension is the case-insensitive suffix test on "." + extension. IsNullOrEmpty is a length-0 test. Case folding is ASCII only.
- Generate's document: the created document is passed in as `CreatedDocument` (none, another kind, or a texture document). The out parameter and the property accessor are not modelled; only the resulting properties are.
- Generator constructor: the supported file types become the constant `SupportedFileTypes`.
- MSAA GPU work: shader loading in the constructor, render-target setup, shader binding, the draw, `ResolveTexture` and logging are GPU calls or output. Execute is modelled by which resolve it chooses and with which textures.
- Other source files: AssetActions.cpp, TextureAssetWindow.moc.h, XBoxController/Startup.cpp, KrautRenderData.h and CoreUtils/PCH.h are UI, device or plain data code outside this model.
