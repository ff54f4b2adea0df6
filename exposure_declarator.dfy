/** The declarations handed to the bundler in `defineConfig`: the
    compile-time constants, the module-federation options, the plugin list
    and the build options (page/vite.config.js, lines 37-64). Only the plain
    records are modelled, not what the bundler does with them. */
module ExposureDeclarator {
  import opened Wrappers
  import opened ConfigResolver
  import JsonString

  /** The options passed to the federation plugin. */
  datatype FederationOptions = FederationOptions(
    name: string,
    filename: string,
    exposes: map<string, string>,
    shared: seq<string>)

  /** The `define` block. `pluginName` is `None` when the configured display
      name is absent: `JSON.stringify(undefined)` yields `undefined`, not a
      string. */
  datatype DefineConstants = DefineConstants(pluginVersion: string, pluginName: Option<string>)

  /** The `build` block; `rollupInput` stands for the empty `input` object. */
  datatype BuildOptions = BuildOptions(
    target: string,
    minify: bool,
    cssCodeSplit: bool,
    outDir: string,
    assetsDir: string,
    rollupInput: map<string, string>)

  /** The entries of the `plugins` array. */
  datatype BundlerPlugin = Vue | Federation(options: FederationOptions) | ManifestGenerator(hookName: string)

  datatype ViteConfig = ViteConfig(
    define: DefineConstants,
    plugins: seq<BundlerPlugin>,
    build: BuildOptions)

  const RemoteEntry: string := "remoteEntry.js"
  const ExposedKey: string := "./Plugin"
  const ExposedModule: string := "./src/Plugin.vue"

  /** The federation options: the remote is published under the plugin's
      name; the entry filename, the single exposure and the shared list are
      fixed. */
  function Federate(cfg: PluginConfig): (f: FederationOptions)
    ensures f.name == cfg.name
    ensures f.filename == RemoteEntry
    ensures f.exposes.Keys == {ExposedKey} && f.exposes[ExposedKey] == ExposedModule
    ensures f.shared == ["vue"]
  {
    FederationOptions(cfg.name, RemoteEntry, map[ExposedKey := ExposedModule], ["vue"])
  }

  /** The federation options depend on the name alone: configurations agree
      on them exactly when they agree on the name. */
  lemma FederationDependsOnlyOnName(c1: PluginConfig, c2: PluginConfig)
    ensures Federate(c1) == Federate(c2) <==> c1.name == c2.name
  {
  }

  /** The compile-time constants. `__PLUGIN_VERSION__` is the JSON literal of
      the resolved version; `__PLUGIN_NAME__` is the JSON literal of the raw
      configured display name, with no fallback to the name. */
  function Defines(cfg: PluginConfig, version: string): (d: DefineConstants)
    ensures JsonString.Unquote(d.pluginVersion) == Some((version, []))
    ensures d.pluginName.Some? <==> cfg.displayName.Some?
    ensures d.pluginName.Some? ==>
      JsonString.Unquote(d.pluginName.value) == Some((cfg.displayName.value, []))
  {
    JsonString.EveryQuoteDecodes();
    var name := match cfg.displayName
      case None => None
      case Some(n) => Some(JsonString.Quote(n));
    DefineConstants(JsonString.Quote(version), name)
  }

  /** The `build` block: the bundle goes to `dist/<name>`. */
  function Build(cfg: PluginConfig): (b: BuildOptions)
    ensures |b.outDir| >= 5 && b.outDir[..5] == "dist/" && b.outDir[5..] == cfg.name
    ensures b.target == "esnext" && !b.minify && !b.cssCodeSplit
    ensures b.assetsDir == "" && b.rollupInput == map[]
  {
    BuildOptions("esnext", false, false, "dist/" + cfg.name, "", map[])
  }

  /** The whole configuration object, for the override `envVersion`: the
      plugins in order (the framework plugin, federation, the manifest hook),
      the resolved version as `__PLUGIN_VERSION__`, and the bundle in
      `dist/<name>`. */
  function Configure(cfg: PluginConfig, envVersion: Option<string>): (c: ViteConfig)
    ensures |c.plugins| == 3 && c.plugins[0] == Vue && c.plugins[2] == ManifestGenerator("generate-manifest")
    ensures c.plugins[1] == Federation(Federate(cfg)) && c.plugins[1].options.name == cfg.name
    ensures JsonString.Unquote(c.define.pluginVersion) == Some((ResolveVersion(envVersion, cfg), []))
    ensures c.define.pluginName.Some? <==> cfg.displayName.Some?
    ensures c.build.outDir == "dist/" + cfg.name
  {
    ViteConfig(
      Defines(cfg, ResolveVersion(envVersion, cfg)),
      [Vue, Federation(Federate(cfg)), ManifestGenerator("generate-manifest")],
      Build(cfg))
  }
}
