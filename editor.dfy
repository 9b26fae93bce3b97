/**
 * The `wangEditor` factory class: its class-level (static) configuration slots,
 * the plugin list, and the two factory operations that validate a selector and
 * assemble what is handed to the core library's `coreCreateEditor` and
 * `coreCreateToolbar`.
 *
 * Type parameters stand for what this file does not look inside:
 * `V` a value of an editor-config property, `T` a value of a toolbar-config
 * property, `P` a plugin, `E` a DOM element, `D` a node of the initial content,
 * `Ed` an editor instance.
 */
module Editor {
  import opened Wrappers
  import opened Config

  /** `string | DOMElement`: a selector string or an element object. */
  datatype Selector<E> = Query(query: string) | Element(element: E)

  /** JavaScript falsiness of a selector: absent, `null` or `""` (an object is always truthy). */
  predicate IsFalsy<E>(s: Option<Selector<E>>)
  {
    match s
    case None => true
    case Some(Query(q)) => q == ""
    case Some(Element(_)) => false
  }

  /** The errors the factory throws. */
  datatype CreateError =
    | TextareaSelectorMissing   // createEditor without a usable `textareaSelector`
    | ToolbarSelectorMissing    // createToolbar without a usable `toolbarSelector`
    | InstantiationUnsupported  // `new wangEditor()`, which v5 no longer supports
  {
    /** The message of the two factory errors (the constructor's long notice is not modelled). */
    function Message(): (m: string)
      requires !InstantiationUnsupported?
      ensures TextareaSelectorMissing? ==> m == "Cannot find 'textareaSelector' when create editor"
      ensures ToolbarSelectorMissing? ==> m == "Cannot find 'toolbarSelector' when create toolbar"
    {
      if TextareaSelectorMissing? then "Cannot find 'textareaSelector' when create editor"
      else "Cannot find 'toolbarSelector' when create toolbar"
    }
  }

  /** `ICreateEditorOption`; a `None` selector is `undefined` or `null`, any other `None` an omitted property. */
  datatype EditorOption<V, E, D> = EditorOption(
    textareaSelector: Option<Selector<E>>,
    config: Option<map<string, V>>,
    content: Option<seq<D>>,
    mode: Option<string>)

  /** The argument object passed to `coreCreateEditor`. */
  datatype EditorArgs<V, E, D, P> = EditorArgs(
    textareaSelector: Selector<E>,
    config: map<string, V>,
    content: seq<D>,
    plugins: seq<P>)

  /** `ICreateToolbarOption`; `editor` is `IDomEditor | null`, `None` for `null`; a `None` selector is
      `undefined` or `null`, any other `None` an omitted property. */
  datatype ToolbarOption<T, E, Ed> = ToolbarOption(
    editor: Option<Ed>,
    toolbarSelector: Option<Selector<E>>,
    config: Option<map<string, T>>,
    mode: Option<string>)

  /** The two arguments passed to `coreCreateToolbar`: the editor and the option object. */
  datatype ToolbarArgs<T, E, Ed> = ToolbarArgs(
    editor: Option<Ed>,
    toolbarSelector: Selector<E>,
    config: map<string, T>)

  /** The whole class-level state at one moment. */
  datatype Registry<V, T, P> = Registry(
    editorConfig: map<string, V>,
    simpleEditorConfig: map<string, V>,
    toolbarConfig: map<string, T>,
    simpleToolbarConfig: map<string, T>,
    plugins: seq<P>)

  /** The mode after destructuring with `mode = 'default'`. */
  function ModeOf(mode: Option<string>): string
  {
    mode.GetOr("default")
  }

  /**
   * The static side of `wangEditor`. JavaScript has one such state per loaded
   * module; here it is one object, and every static member is a member of it.
   */
  class WangEditor<V, T, P> {
    var editorConfig: map<string, V>
    var simpleEditorConfig: map<string, V>
    var toolbarConfig: map<string, T>
    var simpleToolbarConfig: map<string, T>
    var plugins: seq<P>

    ghost function Snapshot(): Registry<V, T, P>
      reads this
    {
      Registry(editorConfig, simpleEditorConfig, toolbarConfig, simpleToolbarConfig, plugins)
    }

    /** The static initialisers: four empty slots and no plugins. */
    constructor ()
      ensures Snapshot() == Registry(map[], map[], map[], map[], [])
    {
      editorConfig, simpleEditorConfig := map[], map[];
      toolbarConfig, simpleToolbarConfig := map[], map[];
      plugins := [];
    }

    /** `new wangEditor()`: construction always throws. */
    static function NewInstance(): (r: Result<(), CreateError>)
      ensures r.Failure? && r.error == InstantiationUnsupported
    {
      Failure(InstantiationUnsupported)
    }

    method SetEditorConfig(newConfig: map<string, V> := map[])
      modifies this`editorConfig
      ensures editorConfig == Spread(old(editorConfig), newConfig)
      ensures IsOverride(editorConfig, old(editorConfig), newConfig)
      ensures Snapshot() == old(Snapshot()).(editorConfig := editorConfig)
      ensures newConfig == map[] ==> editorConfig == old(editorConfig)
    {
      editorConfig := Spread(editorConfig, newConfig);
    }

    method SetSimpleEditorConfig(newConfig: map<string, V> := map[])
      modifies this`simpleEditorConfig
      ensures simpleEditorConfig == Spread(old(simpleEditorConfig), newConfig)
      ensures IsOverride(simpleEditorConfig, old(simpleEditorConfig), newConfig)
      ensures Snapshot() == old(Snapshot()).(simpleEditorConfig := simpleEditorConfig)
      ensures newConfig == map[] ==> simpleEditorConfig == old(simpleEditorConfig)
    {
      simpleEditorConfig := Spread(simpleEditorConfig, newConfig);
    }

    method SetToolbarConfig(newConfig: map<string, T> := map[])
      modifies this`toolbarConfig
      ensures toolbarConfig == Spread(old(toolbarConfig), newConfig)
      ensures IsOverride(toolbarConfig, old(toolbarConfig), newConfig)
      ensures Snapshot() == old(Snapshot()).(toolbarConfig := toolbarConfig)
      ensures newConfig == map[] ==> toolbarConfig == old(toolbarConfig)
    {
      toolbarConfig := Spread(toolbarConfig, newConfig);
    }

    method SetSimpleToolbarConfig(newConfig: map<string, T> := map[])
      modifies this`simpleToolbarConfig
      ensures simpleToolbarConfig == Spread(old(simpleToolbarConfig), newConfig)
      ensures IsOverride(simpleToolbarConfig, old(simpleToolbarConfig), newConfig)
      ensures Snapshot() == old(Snapshot()).(simpleToolbarConfig := simpleToolbarConfig)
      ensures newConfig == map[] ==> simpleToolbarConfig == old(simpleToolbarConfig)
    {
      simpleToolbarConfig := Spread(simpleToolbarConfig, newConfig);
    }

    /** Appends; nothing is reordered and a plugin registered twice is applied twice. */
    method RegisterPlugin(plugin: P)
      modifies this`plugins
      ensures plugins == old(plugins) + [plugin]
      ensures Snapshot() == old(Snapshot()).(plugins := plugins)
      ensures |plugins| == |old(plugins)| + 1
      ensures multiset(plugins)[plugin] == multiset(old(plugins))[plugin] + 1
    {
      plugins := plugins + [plugin];
    }

    /** The global editor slot the mode selects. */
    function EditorGlobalConfig(mode: Option<string>): (g: map<string, V>)
      reads this
      ensures mode == Some("simple") ==> g == simpleEditorConfig
      ensures mode != Some("simple") ==> g == editorConfig
    {
      if ModeOf(mode) == "simple" then simpleEditorConfig else editorConfig
    }

    /** The global toolbar slot the mode selects. */
    function ToolbarGlobalConfig(mode: Option<string>): (g: map<string, T>)
      reads this
      ensures mode == Some("simple") ==> g == simpleToolbarConfig
      ensures mode != Some("simple") ==> g == toolbarConfig
    {
      if ModeOf(mode) == "simple" then simpleToolbarConfig else toolbarConfig
    }

    /**
     * `createEditor` up to the call into the core library: the error it throws,
     * or the arguments it passes. Reads the class state and changes none of it.
     */
    function CreateEditor<E, D>(option: EditorOption<V, E, D>): (r: Result<EditorArgs<V, E, D, P>, CreateError>)
      reads this
      ensures r.Failure? <==> IsFalsy(option.textareaSelector)
      ensures r.Failure? ==> r.error == TextareaSelectorMissing
      ensures r.Failure? ==> r.error.Message() == "Cannot find 'textareaSelector' when create editor"
      ensures r.Success? ==> option.textareaSelector == Some(r.value.textareaSelector)
      ensures r.Success? && option.mode == Some("simple") ==>
        IsOverride(r.value.config, simpleEditorConfig, option.config.GetOr(map[]))
      ensures r.Success? && option.mode != Some("simple") ==>
        IsOverride(r.value.config, editorConfig, option.config.GetOr(map[]))
      ensures r.Success? ==> r.value.content == (if option.content.Some? then option.content.value else [])
      ensures r.Success? ==> r.value.plugins == plugins
    {
      if IsFalsy(option.textareaSelector) then Failure(TextareaSelectorMissing)
      else
        var globalConfig := EditorGlobalConfig(option.mode);
        Success(EditorArgs(
          option.textareaSelector.value,
          Spread(globalConfig, option.config.GetOr(map[])),
          option.content.GetOr([]),
          plugins))
    }

    /**
     * `createToolbar` up to the call into the core library: the error it throws,
     * or the arguments it passes. Reads the class state and changes none of it.
     */
    function CreateToolbar<E, Ed>(option: ToolbarOption<T, E, Ed>): (r: Result<ToolbarArgs<T, E, Ed>, CreateError>)
      reads this
      ensures r.Failure? <==> IsFalsy(option.toolbarSelector)
      ensures r.Failure? ==> r.error == ToolbarSelectorMissing
      ensures r.Failure? ==> r.error.Message() == "Cannot find 'toolbarSelector' when create toolbar"
      ensures r.Success? ==> option.toolbarSelector == Some(r.value.toolbarSelector)
      ensures r.Success? ==> r.value.editor == option.editor
      ensures r.Success? && option.mode == Some("simple") ==>
        IsOverride(r.value.config, simpleToolbarConfig, option.config.GetOr(map[]))
      ensures r.Success? && option.mode != Some("simple") ==>
        IsOverride(r.value.config, toolbarConfig, option.config.GetOr(map[]))
    {
      if IsFalsy(option.toolbarSelector) then Failure(ToolbarSelectorMissing)
      else
        var globalConfig := ToolbarGlobalConfig(option.mode);
        Success(ToolbarArgs(
          option.editor,
          option.toolbarSelector.value,
          Spread(globalConfig, option.config.GetOr(map[]))))
    }
  }

  /**
   * Every property of the editor config `createEditor` passes on reads as the
   * two-layer reference layering says: the per-call config over the mode's slot.
   */
  lemma CreateEditorResolves<V, T, P, E, D>(w: WangEditor<V, T, P>, option: EditorOption<V, E, D>, k: string)
    requires !IsFalsy(option.textareaSelector)
    ensures w.CreateEditor(option).Success?
    ensures Get(w.CreateEditor(option).value.config, k)
         == Resolve([w.EditorGlobalConfig(option.mode), option.config.GetOr(map[])], k)
  {
  }

  /** The same for the toolbar config `createToolbar` passes on. */
  lemma CreateToolbarResolves<V, T, P, E, Ed>(w: WangEditor<V, T, P>, option: ToolbarOption<T, E, Ed>, k: string)
    requires !IsFalsy(option.toolbarSelector)
    ensures w.CreateToolbar(option).Success?
    ensures Get(w.CreateToolbar(option).value.config, k)
         == Resolve([w.ToolbarGlobalConfig(option.mode), option.config.GetOr(map[])], k)
  {
  }

  /** Setting the same editor config twice leaves the slot as setting it once does. */
  method SetEditorConfigTwice<V, T, P>(w: WangEditor<V, T, P>, c: map<string, V>)
    modifies w
    ensures w.editorConfig == Spread(old(w.editorConfig), c)
    ensures w.Snapshot() == old(w.Snapshot()).(editorConfig := w.editorConfig)
  {
    w.SetEditorConfig(c);
    w.SetEditorConfig(c);
    SpreadIdempotent(old(w.editorConfig), c);
  }

  /** Setting the editor config once per element of `calls`, in order, is `ApplyAll` of the calls. */
  method SetEditorConfigAll<V, T, P>(w: WangEditor<V, T, P>, calls: seq<map<string, V>>)
    modifies w
    ensures w.editorConfig == ApplyAll(old(w.editorConfig), calls)
    ensures w.Snapshot() == old(w.Snapshot()).(editorConfig := w.editorConfig)
  {
    for i := 0 to |calls|
      invariant w.editorConfig == ApplyAll(old(w.editorConfig), calls[..i])
      invariant w.Snapshot() == old(w.Snapshot()).(editorConfig := w.editorConfig)
    {
      assert calls[..i + 1][..i] == calls[..i];
      w.SetEditorConfig(calls[i]);
    }
    assert calls[..|calls|] == calls;
  }

  /**
   * Two global settings, then a per-call override: the effective config is
   * `{a: 9, b: 2}`, and an empty selector is rejected in simple and in default mode.
   */
  method LayeringScenario()
  {
    var w := new WangEditor<int, int, string>();
    w.SetEditorConfig(map["a" := 1]);
    w.SetEditorConfig(map["b" := 2]);
    assert w.editorConfig == map["a" := 1, "b" := 2];
    var r := w.CreateEditor<string, string>(EditorOption(Some(Query("#editor")), Some(map["a" := 9]), None, None));
    OverrideUnique(r.value.config, map["a" := 9, "b" := 2], w.editorConfig, map["a" := 9]);
    assert r.value.config == map["a" := 9, "b" := 2];
    var bad := w.CreateEditor<string, string>(EditorOption(Some(Query("")), None, None, Some("simple")));
    assert bad.Failure?;
    var bad2 := w.CreateEditor<string, string>(EditorOption(Some(Query("")), None, None, None));
    assert bad2.Failure?;
  }

  /** Plugins registered as `p1`, `p2` reach the core library as `[p1, p2]`, with empty content. */
  method PluginOrderScenario()
  {
    var w := new WangEditor<int, int, string>();
    w.RegisterPlugin("p1");
    w.RegisterPlugin("p2");
    var r := w.CreateEditor<string, string>(EditorOption(Some(Query("#editor")), None, None, None));
    assert r.value.plugins == ["p1", "p2"];
    assert r.value.content == [];
  }
}
