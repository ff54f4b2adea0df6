/** The build as two phases: the configuration handed to the bundler, and the
    `closeBundle` hook that runs after the bundle is written. Both read the
    same resolved version and the same name (page/vite.config.js, lines 8-9),
    and the lemmas here relate what each phase produces. */
module Pipeline {
  import opened Wrappers
  import Js
  import opened ConfigResolver
  import opened ManifestSynthesizer
  import ExposureDeclarator
  import OutputWriter
  import JsonString

  /** The manifest directory string is the bundle's `outDir` string, and the
      manifest path is that string followed by `/manifest.json`. */
  lemma ManifestBesideBundle(cfg: PluginConfig, envVersion: Option<string>)
    ensures OutputWriter.ManifestDir(cfg) == ExposureDeclarator.Configure(cfg, envVersion).build.outDir
    ensures OutputWriter.ManifestPath(cfg) ==
      ExposureDeclarator.Configure(cfg, envVersion).build.outDir + "/manifest.json"
  {
  }

  /** The version in the written manifest is the one the component sees as
      `__PLUGIN_VERSION__`, and the remote is published under the manifest's
      name. */
  lemma IdentityAgrees(cfg: PluginConfig, envVersion: Option<string>, files: map<string, string>)
    ensures
      var written := OutputWriter.CloseBundle(cfg, envVersion, files, None);
      var vite := ExposureDeclarator.Configure(cfg, envVersion);
      && written.Written?
      && OutputWriter.ManifestPath(cfg) in written.files
      && Decode(written.files[OutputWriter.ManifestPath(cfg)]).Some?
      && JsonString.Unquote(vite.define.pluginVersion) ==
           Some((Decode(written.files[OutputWriter.ManifestPath(cfg)]).value.version, []))
      && vite.plugins[1].options.name == Decode(written.files[OutputWriter.ManifestPath(cfg)]).value.name
  {
  }

  /** `__PLUGIN_NAME__` is built from the raw display name, with no fallback:
      it agrees with the manifest's display name when the configured one is
      non-empty, holds `""` when it is empty (while the manifest falls back to
      the name), and is undefined when it is absent. */
  lemma DisplayNameConstant(cfg: PluginConfig, envVersion: Option<string>)
    ensures
      var vite := ExposureDeclarator.Configure(cfg, envVersion);
      var m := Synthesize(cfg, ResolveVersion(envVersion, cfg));
      && (Js.Truthy(cfg.displayName) ==>
            JsonString.Unquote(vite.define.pluginName.value) == Some((m.displayName, [])))
      && (cfg.displayName == Some("") ==>
            JsonString.Unquote(vite.define.pluginName.value) == Some(("", [])) && m.displayName == cfg.name)
      && (cfg.displayName.None? ==> vite.define.pluginName.None? && m.displayName == cfg.name)
  {
  }

  /** A failed write is reported as a value carrying the cause. Before the
      file is opened nothing changes; after it, only manifest.json changes,
      and it holds a prefix of the text a successful build writes. */
  lemma WriteFailureIsContained(cfg: PluginConfig, envVersion: Option<string>,
                                files: map<string, string>, failure: OutputWriter.IoFailure)
    ensures
      var failed := OutputWriter.CloseBundle(cfg, envVersion, files, Some(failure));
      var path := OutputWriter.ManifestPath(cfg);
      var full := OutputWriter.CloseBundle(cfg, envVersion, files, None).files[path];
      && failed.WriteFailed? && failed.cause == failure.cause
      && (failure.BeforeOpen? ==> failed.files == files)
      && (failure.AfterOpen? ==>
            && failed.files.Keys == files.Keys + {path}
            && failed.files[path] <= full
            && (forall p :: p in files && p != path ==> failed.files[p] == files[p]))
  {
  }

  /** A second build with the same inputs rewrites manifest.json with the same
      text, so the files after it are the files after the first. */
  lemma RebuildIsIdempotent(cfg: PluginConfig, envVersion: Option<string>, files: map<string, string>)
    ensures
      var once := OutputWriter.CloseBundle(cfg, envVersion, files, None).files;
      OutputWriter.CloseBundle(cfg, envVersion, once, None).files == once
  {
  }
}
