/** The plugin's static metadata and the version the build embeds
    (page/vite.config.js, lines 6-9). */
module ConfigResolver {
  import opened Wrappers
  import Js

  /** The record exported by `plugin.config.js`. `name` and `version` are
      always present; the other fields may be left out. */
  datatype PluginConfig = PluginConfig(
    name: string,
    displayName: Option<string>,
    description: Option<string>,
    version: string,
    icon: Option<string>,
    author: Option<string>,
    homepage: Option<string>)

  /** `process.env.PLUGIN_VERSION || pluginConfig.version`, with the
      environment variable passed in as `envVersion`: an override that is set
      and non-empty wins, an unset or empty one falls back to the configured
      version. No format check is made. */
  function ResolveVersion(envVersion: Option<string>, cfg: PluginConfig): (v: string)
    ensures envVersion.Some? && envVersion.value != "" ==> v == envVersion.value
    ensures envVersion.None? || envVersion.value == "" ==> v == cfg.version
    ensures v == "" <==> (cfg.version == "" && !Js.Truthy(envVersion))
  {
    Js.OrElse(envVersion, cfg.version)
  }

  /** An empty override behaves exactly like an absent one. */
  lemma EmptyOverrideIsAbsent(cfg: PluginConfig)
    ensures ResolveVersion(Some(""), cfg) == ResolveVersion(None, cfg) == cfg.version
  {
  }
}
