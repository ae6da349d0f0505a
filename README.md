# CodeBlock-Tabs, modelled in Dafny

CodeBlock-Tabs is an Obsidian plugin. In reading view, it turns runs of adjacent code blocks into one tabbed container:

- one tab per block, titled after the block's language, its `data-meta` title or a configurable default title;
- clicking a tab shows its pane and hides the others.

Some renderers are registered by other plugins, for example `dataview`. Their `block-language-…` blocks join tab groups only when their name is switched on in the `extraLang` setting. The plugin intercepts the host's `registerCodeBlockPostProcessor` and `unregisterCodeBlockPostProcessor` so that open notes are re-rendered when such a renderer comes or goes.

The model has six modules:

- `Wrappers`: the `Option` type.
- `Text`: the JavaScript string operations the plugin uses. This covers `trim`, `toLowerCase`, `includes`, `startsWith`, and `split(p).at(-1)` as "text after the last `p`".
- `Settings`: the settings value and its defaults, the default-title fallback, and the normalisation and validation of a new language name.
- `Blocks`: a rendered block as a value. This covers eligibility for grouping and the derivation of a tab's title.
- `Grouping`: the post-processor.
  - `Step` and `Run` are the pure specification of one call and of a render pass.
  - The `PostProcessor` class holds the closure's mutable state (`codeblockCount`, `lastEl`). `Process` is proved to update the fields exactly as `Step` says. `AddTab` is specified by `WithTab` and the derived title, and `Click` by which tab/pane pair is active afterwards.
  - The page is modelled as values. `page` lists every element handed to the processor, in delivery order. An element is either a block with its children, or a `tab-container` holding its tab strip and its content area.
- `CodeBlockTabs`: the classes that change state in place.
  - `Plugin` holds the settings and the log of rebuild requests.
  - `PreviewRenderer` holds the name→renderer map and the intercepted or restored entry points.
  - `SettingTab` holds the handlers behind the settings panel.
  - A rebuild request (`rebuildView`, which re-renders every markdown leaf) is logged together with the `extraLang` flags and the registered names at that moment. Because of that record, the contracts can say that the request made by `register` already sees the new renderer, and that the requests made by `unregister` and by the remove button still see the entry that is about to go.

Four behaviours of the code worth noting:

- A toggle requests a rebuild only when a renderer is registered for the name (main.ts:91, through main.ts:27-31), whether it switches the flag on or off.
- A `DIV` block's eligibility checks only the `extraLang` flag (main.ts:274), not whether a renderer is registered for the language.
- A skipped context (a `displayMode` property, or an embedded preview) returns without resetting the counter (main.ts:252-254).
- `codeblockCount` and `lastEl` live in the closure created once by `onload` (main.ts:200-201) and are never reset when a render pass starts. If the previous pass ended inside a run, the first eligible blocks of the next pass join that old container (`Grouping.StepGrows` from a counter of 2 or more). `Grouping.RunGroups`, `Grouping.RunShape` and `Grouping.LoneBlockUntouched` therefore start from a counter of 0, which is what the first pass, or any pass after an ineligible block, sees.

## Model

| member | source | states |
|---|---|---|
| Text.Trim | main.ts:48 | The result is the piece of the input left once the white space before it and after it is removed (JavaScript's white-space set): everything before and after it is white space, and it neither starts nor ends with white space. Input without white space is returned unchanged. |
| Text.TrimStart | main.ts:48 | The result is a suffix of the input; everything dropped is white space, and the result does not start with white space. |
| Text.TrimEnd | main.ts:48 | The result is a prefix of the input; everything dropped is white space, and the result does not end with white space. |
| Text.TrimOfTrimmed | main.ts:48 | Trimming an already trimmed string changes nothing. |
| Text.Lower | main.ts:65 | Lower-casing keeps the length, and each character becomes its lower-case form. |
| Text.LowerKeepsShape | main.ts:65 | Lower-casing keeps a string trimmed and keeps it free of white space (both directions), and applying it twice gives the same result as once. |
| Text.SplitEnd | main.ts:211 | The scan for the start of the last piece of `split` ends between the last separator it saw and the end of the string. |
| Text.AfterLast | main.ts:211 | `split(p).at(-1)` is a suffix of the input. |
| Text.SplitEndSeparated | main.ts:211 | The scan for the last `language-` stops either at the start or just after an occurrence of the separator. |
| Text.SplitEndFree | main.ts:211 | No occurrence of the separator starts at or after the position where the scan stops. |
| Text.AfterLastIsLastPiece | main.ts:211 | `split(p).at(-1)` is a suffix of the class that contains no `p`. It is the whole class exactly when the class contains no `p`, and otherwise it directly follows a `p`. |
| Blocks.FirstMatch | main.ts:209-211 | Finds the index of the first class that passes the filter (every earlier class fails it), or none when no class passes. |
| Blocks.ClassLang | main.ts:209-211 | A language is found if and only if some class contains `language-`, and the language found contains no `language-`. |
| Blocks.BlockLang | main.ts:267-269 | A plugin block's language is found if and only if some class starts with `block-language-`. |
| Blocks.ClassTitle | main.ts:209-213 | The class-derived title is either the default title or the non-empty language found in the classes. |
| Blocks.Eligible | main.ts:258-280 | An eligible block has exactly one child. |
| Blocks.EligibleCases | main.ts:258-280 | A single `PRE` child is always eligible and any other tag never is. A single `DIV` child is eligible if and only if its first `block-language-` class has a non-empty suffix whose lower-cased form is switched on in `extraLang`. Registration plays no part. |
| Blocks.TitlePriority | main.ts:209-223 | A non-empty `data-meta` that parses gives the parsed title. An absent, empty or unparsable one leaves the class-derived title. With no `language-` class the title is the default title. |
| Blocks.ClassTitleFromFirstLanguageClass | main.ts:209-213 | The class-derived title comes from the first class containing `language-`. It is the non-empty text after that class's last `language-`, or the default title when that text is empty. |
| Blocks.TitleNonEmpty | main.ts:213-219 | With a non-empty default title, and a parser that never yields an empty title, no tab is left blank. |
| Blocks.RustExample | main.ts:209-213 | `language-rust` with no metadata gives the title `rust`. |
| Blocks.DemoExample | main.ts:216-219 | Metadata `{'title':'Demo'}` overrides the class `language-python`. |
| Blocks.DefaultExample | main.ts:213 | With neither metadata nor a language class, the tab shows the current default title. |
| Settings.DefaultTitleFrom | main.ts:47-50 | The stored default title is the trimmed input, or `(x)` when the trimmed input is empty. It is never empty. |
| Settings.Enabled | main.ts:274 | A name with no entry in `extraLang` reads as switched off. |
| Settings.NormalizeName | main.ts:65 | The name key is the trimmed input lower-cased character by character: it has the trimmed input's length, no upper-case letter, and is itself trimmed. |
| Settings.ValidName | main.ts:66 | A name the add button accepts is already trimmed. |
| Settings.NormalizeIdempotent | main.ts:65 | Normalising an already normalised name gives it back unchanged. |
| Settings.AcceptedNames | main.ts:65-68 | The add button accepts the input if and only if its trimmed form is non-empty and has no white space. |
| Grouping.WithTab | main.ts:207-226 | `addTab` adds exactly one tab and one pane to the container. |
| Grouping.Opened | main.ts:292-296 | The container made from a run's first block has one tab and one pane, and both are active. |
| Grouping.AppendInactive | main.ts:297-299 | Appending an inactive tab/pane pair keeps exactly one pair active. |
| Grouping.Step | main.ts:251-301 | One call of the post-processor keeps the invariant: every container has two or more tabs and exactly one active pair, and the remembered element is a block with exactly one child after one eligible block and a container with `count` tabs after more. The call adds one element to the page. |
| Grouping.Run | main.ts:251-301 | A render pass keeps the invariant and adds one element per delivered block. |
| Grouping.StepOpens | main.ts:292-299 | The second eligible block turns the remembered block into a container. Its first tab and pane are active and come from the first block; the second tab and pane are inactive. The second block is left empty and nothing else changes. |
| Grouping.StepGrows | main.ts:297-300 | Each later eligible block appends one inactive tab/pane pair and leaves its own element empty. |
| Grouping.OfSnoc | main.ts:296-299 | The expected tab strip and content area grow by one entry per block, and only the first entry is active. |
| Grouping.RunShape | main.ts:282-301 | After k eligible blocks starting from count 0, count is k and the first block of the run is remembered. Earlier elements are unchanged. A single block is kept as it was, and with more blocks every block after the first is left empty. |
| Grouping.RunGroups | main.ts:287-301 | A run of k >= 2 eligible blocks makes its first block a container with k tabs in delivery order. Each tab is titled after its block, each pane holds its block's child, and only the first tab and pane are active. |
| Grouping.RunPairGroups | main.ts:287-299 | Two eligible blocks from a counter of 0 make the first one a container of two tabs, the first active. |
| Grouping.RunGrowsGroup | main.ts:297-300 | If the first k-1 blocks of a run have built the expected container, the k-th block extends it to the expected container of k tabs. |
| Grouping.SkipKeepsRun | main.ts:252-254 | A `displayMode` or embedded-preview context leaves the counter, the remembered block and every element alone. |
| Grouping.IneligibleEndsRun | main.ts:282-285 | An ineligible block resets the counter to 0 and rewrites no element. |
| Grouping.LoneBlockUntouched | main.ts:282-291 | An eligible block followed by an ineligible one stays as it was, and the counter ends at 0. |
| Grouping.PostProcessor.constructor | main.ts:200-201 | The counter starts at 0 with nothing delivered. |
| Grouping.PostProcessor.Process | main.ts:251-301 | The callback updates the fields exactly as `Step` specifies and keeps the invariant. |
| Grouping.PostProcessor.AddTab | main.ts:205-233 | `addTab` appends a tab with the derived title and a pane holding the node. The pair is active exactly when the counter is 1. |
| Grouping.PostProcessor.Click | main.ts:236-248 | After a click on tab k, tab k and pane k are the only active ones in their container. Every tab and pane keeps everything but its `active` flag, and all other elements are unchanged. |
| CodeBlockTabs.Merge | main.ts:133 | Each stored field replaces its default as a whole, and a missing field keeps the default. |
| CodeBlockTabs.Plugin.RebuildView | main.ts:123-130 | Logs exactly one rebuild request, carrying the current flags and registered names. |
| CodeBlockTabs.Plugin.LoadSettings | main.ts:132-135 | The settings become the merge of the stored settings over the defaults, followed by one rebuild request. |
| CodeBlockTabs.Plugin.OnLoad | main.ts:163-200 | Loads the settings (one rebuild), installs the interception without changing the registry, and starts a post-processor with counter 0. |
| CodeBlockTabs.Plugin.OnUnload | main.ts:138-160 | Restores the original entry points without changing the registry, then requests one rebuild. |
| CodeBlockTabs.PreviewRenderer.Patch | main.ts:172-194 | The plugin's versions of `register` and `unregister` are installed. |
| CodeBlockTabs.PreviewRenderer.Restore | main.ts:144-153 | The original versions are back, and the registry is unchanged. |
| CodeBlockTabs.PreviewRenderer.Register | main.ts:186-194 | A duplicate name fails with `DuplicateRegistration` and changes nothing. Otherwise the renderer is installed; while intercepted, exactly one rebuild follows if and only if the name's flag is on, and that request already sees the renderer. |
| CodeBlockTabs.PreviewRenderer.Unregister | main.ts:177-183 | The name is always removed, with no error when it is absent. While intercepted, exactly one rebuild is requested before the removal if and only if the name has a renderer and its flag is on. |
| CodeBlockTabs.SettingTab.constructor | main.ts:19-25 | The settings tab is bound to its plugin; it consults the host's registry through the plugin. |
| CodeBlockTabs.SettingTab.RebuildView | main.ts:27-31 | Requests one rebuild if and only if a renderer is registered for the name. |
| CodeBlockTabs.SettingTab.SetDefaultTitle | main.ts:47-50 | Stores the trimmed title, or `(x)`; the result is never empty and no rebuild is requested. |
| CodeBlockTabs.SettingTab.AddLang | main.ts:64-74 | An invalid normalised name changes nothing. Otherwise its flag is set to whether a renderer is registered, all other entries stay, and a rebuild follows if and only if one is registered. |
| CodeBlockTabs.SettingTab.Toggle | main.ts:87-91 | Stores the flag. In either direction, one rebuild follows if and only if a renderer is registered. |
| CodeBlockTabs.SettingTab.Remove | main.ts:97-104 | Deletes the entry and keeps every other one. Exactly one rebuild is requested if and only if the flag was on and a renderer is registered, and that request still sees the entry switched on. |
| CodeBlockTabs.RegisterThenUnregister | main.ts:177-194 | Registering a new name and then unregistering it restores the registry. With the flag on, each call requests one rebuild, and both requests see the renderer. |
| CodeBlockTabs.AddThenRemove | main.ts:64-104 | Adding a new name and then deleting it restores the settings. The two clicks request two rebuilds, or none, depending on whether a renderer is registered. |
| CodeBlockTabs.RegisterAfterUnload | main.ts:149-153 | After unload, `register` keeps the duplicate check but leaves the settings and the rebuild log unchanged. |
| CodeBlockTabs.UnregisterAfterUnload | main.ts:144-146 | After unload, `unregister` removes the name and requests no rebuild. |

## Left out

- Text.Lower: `toLowerCase` is modelled for the ASCII letters A-Z only. Other scripts' case mappings are not modelled.
- Flag lookups: `extraLang[name]` is read as "an own key whose value is true". The reads at main.ts:98, main.ts:178 and main.ts:191 would also see names inherited from `Object.prototype` (such as `constructor`), and that is not modelled.
- Title parsing: `JSON.parse(decodeURI(meta))` with `'` replaced by `"`, followed by `.title`, is a parameter `parse` that yields a title or fails. The conversion of a non-string `.title` to the tab's text lies inside that parameter.
- Storage: `loadData` and `saveData` are storage I/O. The loaded data is the `Stored` argument, and saving is not modelled.
- Settings panel widgets: `Notice`, `setIcon`, the `Setting` widgets, the registered/unregistered icons and the re-drawing of the panel by `display()` are user-interface output.
- Re-rendering: `iterateAllLeaves` and `leaf.rebuildView` make up the host's re-rendering. Each call is one entry in the rebuild log, and what the re-render then does is not modelled.
- `console.log` output is not modelled.
- Post-processor priority: the value `0x02070C0C` only orders this post-processor among the host's others.
- Node lists: `children` and `childNodes` are both modelled as a block's element children. A leading text node, which `appendChild(el.childNodes[0])` would move instead of the element, is not modelled.
- Embedded preview: the CSS `matchParent` selector test is the boolean `embedded` of the context, and the `displayMode` property test is the boolean `displayMode`.
- Monkey-patching: the reassignment of the host's methods is modelled only by its outcome, the `patchedBy` field.
- Default `extraLang` aliasing: `Object.assign` copies the default `extraLang` object by reference when nothing is stored, so later edits also change `DEFAULT_SETTINGS`. The model treats the settings as values.
- Saving before rebuilding: in the add button (main.ts:70-74) the flag is written, then `await saveSettings()` and `display()` run, and only then is `rebuildView(lang)` called. The model runs the write and the rebuild request as one uninterrupted step, so events arriving while the save is pending are not modelled.
- Loading before patching: `onload` awaits `loadSettings()` (main.ts:168) before installing the interception (main.ts:172-194). The model runs `OnLoad` as one step, so a renderer registered while the load is pending (it would go through the original `register` and request no rebuild) is not modelled.
