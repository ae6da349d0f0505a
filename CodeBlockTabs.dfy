/**
  The plugin object, the host's renderer registry with the plugin's
  interception of `register`/`unregisterCodeBlockPostProcessor`, and the
  handlers of the settings tab.

  A rebuild request (`rebuildView`: every markdown leaf is re-rendered) is
  recorded as an entry of `Plugin.rebuilds` carrying what the re-render would
  see at that moment: the `extraLang` flags and the names that have a
  registered renderer.
 */
module CodeBlockTabs {
  import opened Wrappers
  import opened Settings
  import Grouping

  /** A renderer the host registered for a language; its code is not part of this model. */
  datatype Renderer = Renderer(id: nat)

  /** One rebuild request, with the flags and the registered names a re-render sees then. */
  datatype Rebuild = Rebuild(extraLang: map<string, bool>, registered: set<string>)

  /** The outcome of `registerCodeBlockPostProcessor`: done, or the error it throws. */
  datatype RegisterResult = Registered | DuplicateRegistration(name: string)

  /** The settings as read back from storage: each field may be missing. */
  datatype Stored = Stored(defaultTitle: Option<string>, extraLang: Option<map<string, bool>>)

  /** `Object.assign({}, DEFAULT_SETTINGS, stored)`: each stored field replaces the default one whole. */
  function Merge(stored: Stored): (r: Settings)
    ensures stored.extraLang.Some? ==> r.extraLang == stored.extraLang.value
    ensures stored.extraLang.None? ==> r.extraLang == DEFAULT_SETTINGS.extraLang
    ensures stored.defaultTitle.Some? ==> r.defaultTitle == stored.defaultTitle.value
    ensures stored.defaultTitle.None? ==> r.defaultTitle == DEFAULT_TITLE
  {
    Settings(stored.defaultTitle.GetOr(DEFAULT_SETTINGS.defaultTitle), stored.extraLang.GetOr(DEFAULT_SETTINGS.extraLang))
  }

  class Plugin {
    /** The host's `MarkdownPreviewRenderer`. */
    const host: PreviewRenderer
    var settings: Settings
    var rebuilds: seq<Rebuild>

    constructor (host: PreviewRenderer)
      ensures this.host == host && settings == DEFAULT_SETTINGS && rebuilds == []
    {
      this.host := host;
      settings := DEFAULT_SETTINGS;
      rebuilds := [];
    }

    /** `rebuildView`: one rebuild request. */
    method RebuildView()
      modifies this
      ensures settings == old(settings)
      ensures rebuilds == old(rebuilds) + [Rebuild(settings.extraLang, host.processors.Keys)]
    {
      rebuilds := rebuilds + [Rebuild(settings.extraLang, host.processors.Keys)];
    }

    /** `loadSettings`: stored settings merged over the defaults, then one rebuild. */
    method LoadSettings(stored: Stored)
      modifies this
      ensures settings == Merge(stored)
      ensures rebuilds == old(rebuilds) + [Rebuild(settings.extraLang, host.processors.Keys)]
    {
      settings := Merge(stored);
      RebuildView();
    }

    /**
      `onload`: the settings tab, the loaded settings, the intercepted registry,
      and a post-processor whose counter starts at 0.
     */
    method OnLoad(stored: Stored) returns (tab: SettingTab, processor: Grouping.PostProcessor)
      modifies this, host
      ensures tab.plugin == this && fresh(processor)
      ensures processor.Valid() && processor.count == 0 && processor.page == []
      ensures settings == Merge(stored)
      ensures rebuilds == old(rebuilds) + [Rebuild(settings.extraLang, host.processors.Keys)]
      ensures host.processors == old(host.processors) && host.patchedBy == this
    {
      tab := new SettingTab(this);
      LoadSettings(stored);
      host.Patch(this);
      processor := new Grouping.PostProcessor();
    }

    /** `onunload`: the registry's own entry points back, then one rebuild. */
    method OnUnload()
      modifies this, host
      ensures settings == old(settings)
      ensures host.processors == old(host.processors) && host.patchedBy == null
      ensures rebuilds == old(rebuilds) + [Rebuild(settings.extraLang, host.processors.Keys)]
    {
      host.Restore();
      RebuildView();
    }
  }

  /**
    `MarkdownPreviewRenderer`: the map from language names to renderers, and
    the plugin whose interception is installed (none once restored).
   */
  class PreviewRenderer {
    var processors: map<string, Renderer>
    var patchedBy: Plugin?

    ghost predicate Valid()
      reads this
    {
      patchedBy != null ==> patchedBy.host == this
    }

    constructor ()
      ensures Valid() && processors == map[] && patchedBy == null
    {
      processors := map[];
      patchedBy := null;
    }

    /** Installs the plugin's versions of `register` and `unregister`. */
    method Patch(plugin: Plugin)
      requires plugin.host == this
      modifies this
      ensures Valid() && patchedBy == plugin && processors == old(processors)
    {
      patchedBy := plugin;
    }

    /** Puts back versions with the same duplicate check and no rebuilds. */
    method Restore()
      modifies this
      ensures Valid() && patchedBy == null && processors == old(processors)
    {
      patchedBy := null;
    }

    /**
      `registerCodeBlockPostProcessor(name, renderer)`. A name that already has
      a renderer is refused and nothing changes. Otherwise the renderer is
      installed first; then, when intercepted, a rebuild is requested exactly
      when the name's flag is on, and the request already sees the renderer.
     */
    method Register(name: string, renderer: Renderer) returns (result: RegisterResult)
      requires Valid()
      modifies this, patchedBy
      ensures Valid() && patchedBy == old(patchedBy)
      ensures name in old(processors) ==> result == DuplicateRegistration(name) && processors == old(processors)
      ensures name !in old(processors) ==> result == Registered && processors == old(processors)[name := renderer]
      ensures patchedBy != null ==> patchedBy.settings == old(patchedBy.settings)
      ensures patchedBy != null ==>
        patchedBy.rebuilds == old(patchedBy.rebuilds) +
          (if result == Registered && Enabled(patchedBy.settings.extraLang, name)
           then [Rebuild(patchedBy.settings.extraLang, processors.Keys)] else [])
    {
      if name in processors {
        return DuplicateRegistration(name);
      }
      processors := processors[name := renderer];
      result := Registered;
      if patchedBy != null && Enabled(patchedBy.settings.extraLang, name) {
        patchedBy.RebuildView();
      }
    }

    /**
      `unregisterCodeBlockPostProcessor(name)`. When intercepted, a rebuild is
      requested before the removal exactly when the name has a renderer and its
      flag is on, so the request still sees the renderer. The name is then
      removed; an absent name is no error.
     */
    method Unregister(name: string)
      requires Valid()
      modifies this, patchedBy
      ensures Valid() && patchedBy == old(patchedBy)
      ensures processors == old(processors) - {name}
      ensures patchedBy != null ==> patchedBy.settings == old(patchedBy.settings)
      ensures patchedBy != null ==>
        patchedBy.rebuilds == old(patchedBy.rebuilds) +
          (if name in old(processors) && Enabled(patchedBy.settings.extraLang, name)
           then [Rebuild(patchedBy.settings.extraLang, old(processors).Keys)] else [])
    {
      if patchedBy != null && name in processors && Enabled(patchedBy.settings.extraLang, name) {
        patchedBy.RebuildView();
      }
      processors := processors - {name};
    }
  }

  /** `CBTSettingTab`: the handlers behind the settings panel's widgets. */
  class SettingTab {
    const plugin: Plugin

    constructor (plugin: Plugin)
      ensures this.plugin == plugin
    {
      this.plugin := plugin;
    }

    /** `rebuildView(lang)`: a rebuild only when a renderer is registered for `lang`. */
    method RebuildView(lang: string)
      modifies plugin
      ensures plugin.settings == old(plugin.settings)
      ensures plugin.rebuilds == old(plugin.rebuilds) +
        if lang in plugin.host.processors then [Rebuild(plugin.settings.extraLang, plugin.host.processors.Keys)] else []
    {
      if lang in plugin.host.processors {
        plugin.RebuildView();
      }
    }

    /** The default-title field changed: store the trimmed text, or "(x)" when it is blank; no rebuild. */
    method SetDefaultTitle(input: string)
      modifies plugin
      ensures plugin.settings == old(plugin.settings).(defaultTitle := DefaultTitleFrom(input))
      ensures plugin.settings.defaultTitle != []
      ensures plugin.rebuilds == old(plugin.rebuilds)
    {
      plugin.settings := plugin.settings.(defaultTitle := DefaultTitleFrom(input));
    }

    /**
      The "+" button with `input` in the name field. A normalised name that is
      empty or has white space is ignored. Otherwise its flag is set to whether
      a renderer is registered for it (other entries untouched), and a rebuild
      follows exactly when one is.
     */
    method AddLang(input: string)
      modifies plugin
      ensures var lang := NormalizeName(input);
        && (!ValidName(lang) ==> plugin.settings == old(plugin.settings) && plugin.rebuilds == old(plugin.rebuilds))
        && (ValidName(lang) ==>
              var registered := lang in plugin.host.processors;
              && plugin.settings == old(plugin.settings).(extraLang := old(plugin.settings.extraLang)[lang := registered])
              && plugin.rebuilds == old(plugin.rebuilds) +
                   if registered then [Rebuild(plugin.settings.extraLang, plugin.host.processors.Keys)] else [])
    {
      var lang := NormalizeName(input);
      if !ValidName(lang) {
        return;
      }
      plugin.settings := plugin.settings.(extraLang := plugin.settings.extraLang[lang := lang in plugin.host.processors]);
      RebuildView(lang);
    }

    /**
      The toggle of entry `lang` switched to `enable`: the flag is stored, and
      a rebuild follows when a renderer is registered, in either direction.
     */
    method Toggle(lang: string, enable: bool)
      modifies plugin
      ensures plugin.settings == old(plugin.settings).(extraLang := old(plugin.settings.extraLang)[lang := enable])
      ensures plugin.rebuilds == old(plugin.rebuilds) +
        if lang in plugin.host.processors then [Rebuild(plugin.settings.extraLang, plugin.host.processors.Keys)] else []
    {
      plugin.settings := plugin.settings.(extraLang := plugin.settings.extraLang[lang := enable]);
      RebuildView(lang);
    }

    /**
      The trash button of entry `lang`: when its flag is on and a renderer is
      registered, a rebuild is requested while the entry still exists; then the
      entry is deleted and every other entry stays.
     */
    method Remove(lang: string)
      modifies plugin
      ensures plugin.settings == old(plugin.settings).(extraLang := old(plugin.settings.extraLang) - {lang})
      ensures plugin.rebuilds == old(plugin.rebuilds) +
        if Enabled(old(plugin.settings.extraLang), lang) && lang in plugin.host.processors
        then [Rebuild(old(plugin.settings.extraLang), plugin.host.processors.Keys)] else []
    {
      if Enabled(plugin.settings.extraLang, lang) {
        RebuildView(lang);
      }
      plugin.settings := plugin.settings.(extraLang := plugin.settings.extraLang - {lang});
    }
  }

  /**
    Registering a new name and unregistering it again leaves the registry as
    it was. When intercepted and the name's flag is on, each of the two calls
    requests one rebuild, and both requests see the renderer registered.
   */
  method RegisterThenUnregister(registry: PreviewRenderer, name: string, renderer: Renderer)
    requires registry.Valid() && name !in registry.processors
    modifies registry, registry.patchedBy
    ensures registry.Valid() && registry.patchedBy == old(registry.patchedBy)
    ensures registry.processors == old(registry.processors)
    ensures var p := registry.patchedBy;
      p != null ==>
        && p.settings == old(p.settings)
        && p.rebuilds == old(p.rebuilds) +
             (if Enabled(p.settings.extraLang, name)
              then var seen := Rebuild(p.settings.extraLang, old(registry.processors).Keys + {name}); [seen, seen]
              else [])
  {
    var result := registry.Register(name, renderer);
    assert result == Registered;
    assert registry.processors.Keys == old(registry.processors).Keys + {name};
    registry.Unregister(name);
    assert registry.processors == old(registry.processors);
  }

  /**
    Adding a language that has no entry yet and deleting it again leaves the
    settings as they were. A rebuild is requested by each of the two clicks
    exactly when a renderer is registered for the name, and both requests see
    its flag on.
   */
  method AddThenRemove(tab: SettingTab, input: string)
    requires ValidName(NormalizeName(input)) && NormalizeName(input) !in tab.plugin.settings.extraLang
    modifies tab.plugin
    ensures tab.plugin.settings == old(tab.plugin.settings)
    ensures var lang := NormalizeName(input);
      var ext := old(tab.plugin.settings.extraLang)[lang := true];
      tab.plugin.rebuilds == old(tab.plugin.rebuilds) +
        (if lang in tab.plugin.host.processors
         then [Rebuild(ext, tab.plugin.host.processors.Keys), Rebuild(ext, tab.plugin.host.processors.Keys)]
         else [])
  {
    var lang := NormalizeName(input);
    tab.AddLang(input);
    tab.Remove(lang);
    assert tab.plugin.settings.extraLang == old(tab.plugin.settings.extraLang);
  }

  /**
    After unloading, registering keeps the duplicate check and unregistering
    still removes the name, but neither requests a rebuild nor touches the
    plugin's settings.
   */
  method RegisterAfterUnload(plugin: Plugin, name: string, renderer: Renderer) returns (result: RegisterResult)
    requires plugin.host.Valid() && plugin.host.patchedBy == null
    modifies plugin.host
    ensures name in old(plugin.host.processors) ==>
      result == DuplicateRegistration(name) && plugin.host.processors == old(plugin.host.processors)
    ensures name !in old(plugin.host.processors) ==>
      result == Registered && plugin.host.processors == old(plugin.host.processors)[name := renderer]
    ensures plugin.settings == old(plugin.settings) && plugin.rebuilds == old(plugin.rebuilds)
  {
    result := plugin.host.Register(name, renderer);
  }

  /** The unregister half of `RegisterAfterUnload`. */
  method UnregisterAfterUnload(plugin: Plugin, name: string)
    requires plugin.host.Valid() && plugin.host.patchedBy == null
    modifies plugin.host
    ensures plugin.host.processors == old(plugin.host.processors) - {name}
    ensures plugin.settings == old(plugin.settings) && plugin.rebuilds == old(plugin.rebuilds)
  {
    plugin.host.Unregister(name);
  }
}
