# wangEditor factory registry, modelled in Dafny

This project models the class-level state of the `wangEditor` factory class
(`packages/editor/src/wangEditorClass.ts`) and proves properties of it:

- four independent configuration slots (editor, simple editor, toolbar,
  simple toolbar), each updated by a shallow key-overriding merge
  (`{ ...slot, ...newConfig }`);
- an ordered, append-only plugin list;
- `createEditor` / `createToolbar`, which reject a falsy selector and otherwise
  layer the per-call config over the global slot the mode selects
  (`mode === 'simple'` picks the simple slot, any other mode and the default
  `'default'` pick the plain one) before calling into the core library.

Files:

- `wrappers.dfy` — `Option`, an optional value, and `Result` (a thrown error is `Failure`).
  What `None` stands for depends on the option property; see below.
- `config.dfy` — configuration objects as `map<string, V>` (key presence is
  "own property present"; a key whose value is `undefined` still overrides),
  the merge `Spread`, a reference definition `Resolve` of layered lookup
  (the last layer that has a key wins), `ApplyAll` for a history of setter
  calls, and lemmas relating them.
- `editor.dfy` — the class `WangEditor`. Its fields are the static fields. The
  Dafny constructor stands for the static initialisers. The setters and
  `RegisterPlugin` update their field in place. `CreateEditor` and
  `CreateToolbar` are functions that only read the state. They return either
  the error that would be thrown or the arguments that would be handed to
  `coreCreateEditor` / `coreCreateToolbar`.

Opaque things are type parameters: config values (`V`, `T`), plugins (`P`),
DOM elements (`E`), initial content nodes (`D`) and the editor passed to a
toolbar (`Ed`). A selector is `Query(string)` or `Element(e)`. It is falsy when
absent or `null`, or when it is the empty string; an element is always truthy.

What `None` stands for, per option property:

- `textareaSelector`, `toolbarSelector`: `undefined` or `null`. The falsiness test at
  wangEditorClass.ts:144 and 168 treats the two alike.
- `editor` of the toolbar option: `null`, which its type `IDomEditor | null` allows
  (wangEditorClass.ts:48). `CreateToolbar` passes it on unchanged.
- `config`, `mode`, `content`: an omitted (`undefined`) property.

Two details of the code that the model follows:

- The selector test is JavaScript falsiness (wangEditorClass.ts:144, 168), defined by
  `Editor.IsFalsy`. An empty selector string therefore fails just as a missing one does.
- The mode default `mode = 'default'` (wangEditorClass.ts:143, 167) is `Editor.ModeOf`.
  `EditorGlobalConfig` and `ToolbarGlobalConfig` select the slot through it.
- The effective config is exactly the per-call config spread over the selected
  slot (wangEditorClass.ts:152-155, 176-179). This file adds no further layer.

`Editor.LayeringScenario` and `Editor.PluginOrderScenario` are verified clients.
The first sets `{a: 1}` and then `{b: 2}` globally, creates an editor with `{a: 9}`,
and proves that the config passed on is `{a: 9, b: 2}`. The second proves that
plugins registered as `p1`, `p2` arrive as `[p1, p2]`. `Editor.SetEditorConfigAll`
calls `SetEditorConfig` once per element of a sequence and proves that the slot then
equals `Config.ApplyAll` of that sequence. So the lemmas about `ApplyAll` hold of the
real setter calls.

## Model

| member | source | states |
|---|---|---|
| Config.Spread | packages/editor/src/wangEditorClass.ts:71-74 | the merged object has exactly the keys of both; keys of the new object take its values; the other keys keep the old values |
| Config.Resolve | packages/editor/src/wangEditorClass.ts:152-155 | layered lookup: a key is present iff some layer has it, and its value comes from the last layer that has it |
| Config.ApplyAllResolves | packages/editor/src/wangEditorClass.ts:70-75 | after any sequence of setter calls, each key reads as the latest call naming it, else the initial slot |
| Config.ApplyAllIsOneCall | packages/editor/src/wangEditorClass.ts:70-75 | a sequence of setter calls equals one call with their configs merged in order (merges compose) |
| Config.EffectiveAfterHistory | packages/editor/src/wangEditorClass.ts:148-155 | the config passed on after a history of setter calls resolves each key from the per-call config, then the latest setter call, then the initial slot |
| Config.SpreadIdentity | packages/editor/src/wangEditorClass.ts:70-74 | merging the default `{}` leaves a slot unchanged (and `{}` is a left identity) |
| Config.SpreadIdempotent | packages/editor/src/wangEditorClass.ts:70-74 | merging the same object twice gives the result of merging it once |
| Config.SpreadAssociative | packages/editor/src/wangEditorClass.ts:70-74 | two successive merges equal one merge of the two objects merged together |
| Config.OverrideUnique | packages/editor/src/wangEditorClass.ts:71-74 | the key-level description of the merge determines its result uniquely |
| Editor.WangEditor.constructor | packages/editor/src/wangEditorClass.ts:69-101 | the static state starts with four empty slots and no plugins |
| Editor.WangEditor.NewInstance | packages/editor/src/wangEditorClass.ts:55-66 | constructing an instance always fails |
| Editor.WangEditor.SetEditorConfig | packages/editor/src/wangEditorClass.ts:70-75 | the editor slot becomes the old slot overridden by the argument; no other slot and not the plugin list changes; no argument leaves it unchanged |
| Editor.WangEditor.SetSimpleEditorConfig | packages/editor/src/wangEditorClass.ts:77-82 | the same for the simple editor slot only |
| Editor.WangEditor.SetToolbarConfig | packages/editor/src/wangEditorClass.ts:86-91 | the same for the toolbar slot only |
| Editor.WangEditor.SetSimpleToolbarConfig | packages/editor/src/wangEditorClass.ts:93-98 | the same for the simple toolbar slot only |
| Editor.WangEditor.RegisterPlugin | packages/editor/src/wangEditorClass.ts:101-104 | the plugin list becomes the old list with the plugin appended; length grows by one; a duplicate is kept; nothing else changes |
| Editor.CreateError.Message | packages/editor/src/wangEditorClass.ts:145-169 | the error text thrown by each factory: the textarea-selector text for `createEditor`, the toolbar-selector text for `createToolbar` |
| Editor.WangEditor.EditorGlobalConfig | packages/editor/src/wangEditorClass.ts:148 | mode `"simple"` selects the simple editor slot; any other mode, and an omitted mode, selects the editor slot |
| Editor.WangEditor.ToolbarGlobalConfig | packages/editor/src/wangEditorClass.ts:172 | mode `"simple"` selects the simple toolbar slot; any other mode, and an omitted mode, selects the toolbar slot |
| Editor.SetEditorConfigAll | packages/editor/src/wangEditorClass.ts:70-75 | a sequence of `setEditorConfig` calls leaves the editor slot equal to `ApplyAll` of the old slot and the calls, and changes nothing else |
| Editor.WangEditor.CreateEditor | packages/editor/src/wangEditorClass.ts:142-161 | fails with the textarea-selector error and its message iff the selector is falsy; otherwise passes the selector, the per-call config over the slot chosen by `mode === 'simple'`, the content (default empty) and the current plugins in order |
| Editor.WangEditor.CreateToolbar | packages/editor/src/wangEditorClass.ts:166-183 | fails with the toolbar-selector error and its message iff the selector is falsy; otherwise passes the editor, the selector and the per-call config over the slot chosen by `mode === 'simple'` |
| Editor.CreateEditorResolves | packages/editor/src/wangEditorClass.ts:148-155 | for a truthy selector, every key of the passed editor config resolves as the two layers [selected slot, per-call config] say |
| Editor.CreateToolbarResolves | packages/editor/src/wangEditorClass.ts:172-179 | the same for the passed toolbar config |
| Editor.SetEditorConfigTwice | packages/editor/src/wangEditorClass.ts:70-75 | calling the setter twice with the same config leaves the slot as one call does, and changes nothing else |

## Left out

- `registerMenu`, `registerRenderElem`, `registerRenderTextStyle`, `registerElemToHtml`,
  `registerTextToHtml`, `registerTextStyleToHtml` (wangEditorClass.ts:108-135): each only
  forwards to a registry of the core library, which is not part of this model.
- What `coreCreateEditor` and `coreCreateToolbar` do with their arguments, and the editor
  and toolbar objects they return. The core library is not part of this model; the model
  stops at the arguments.
- Aliasing of the plugin array. `registerPlugin` pushes onto the one static array
  (wangEditorClass.ts:103), and `createEditor` passes that same array object on
  (wangEditorClass.ts:157). A later registration therefore also changes the array an
  earlier editor received. In the model the arguments record holds a value snapshot
  of `plugins`, which later registrations do not change.
- `null` for `config`, `mode` or `content`. For these three, `None` is an omitted
  (`undefined`) property, the only case the TypeScript option types allow. For `config` and
  `mode`, `null` would behave as `None` does: spreading `null` adds nothing, and
  `null !== 'simple'`. For `content`, `null` would be passed on as `null`, because a
  destructuring default replaces only `undefined`. The model has no such case.
- The text of the constructor's error notice. `NewInstance` models only that construction fails.
- The order in which a JavaScript object enumerates its keys. Maps have no order, so
  the model captures which keys are present and their values, not their order.
- Inherited, non-enumerable, getter and symbol-keyed properties, which spread handles
  differently. Configs are plain objects of own string-keyed properties here.
- Static `this` bound to a subclass, and a caller reassigning the static fields directly.
  The model has exactly one state object, updated only through its methods.
- The type checks of TypeScript: which property names `IEditorConfig` / `IToolbarConfig`
  allow, and what a plugin function does to an editor.
- The table tooltip feature (`src/menus/table/bind-event/tooltip-event.ts`). It is DOM and
  selection glue over table operations that are not shown, so it is not part of this model.
