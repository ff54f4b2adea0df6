/** The `closeBundle` hook: it runs once the bundle is written, builds the
    manifest and writes it into the bundle's directory, and reports a failure
    without failing the build (page/vite.config.js, lines 11-35). The
    filesystem is a map from relative path to contents, and whether the
    write fails is an input. */
module OutputWriter {
  import opened Wrappers
  import opened ConfigResolver
  import opened ManifestSynthesizer

  /** The error `mkdirSync` or `writeFileSync` raises. `BeforeOpen` is a
      failure before manifest.json is opened (the directory cannot be created,
      the file cannot be opened): the file is not touched. `AfterOpen` is a
      failure once `writeFileSync` has opened the file for writing, which
      empties it, and has written the first `written` characters of the text. */
  datatype IoFailure =
    | BeforeOpen(cause: string)
    | AfterOpen(cause: string, written: nat)

  /** The outcome of the hook: either the files after the write, or the
      caught cause together with the files the failure left. Neither ends
      the build. */
  datatype WriteResult =
    | Written(files: map<string, string>)
    | WriteFailed(cause: string, files: map<string, string>)

  const ManifestFile: string := "manifest.json"

  /** The directory the manifest goes to, `dist/<name>`. */
  function ManifestDir(cfg: PluginConfig): (d: string)
    ensures |d| >= 5 && d[..5] == "dist/" && d[5..] == cfg.name
  {
    "dist/" + cfg.name
  }

  /** The manifest file inside that directory. */
  function ManifestPath(cfg: PluginConfig): (p: string)
    ensures |p| == |ManifestDir(cfg)| + 14
    ensures p[..|ManifestDir(cfg)|] == ManifestDir(cfg) && p[|ManifestDir(cfg)|..] == "/manifest.json"
  {
    ManifestDir(cfg) + "/" + ManifestFile
  }

  /** Directories that differ by plugin name are different. */
  lemma ManifestDirInjective(c1: PluginConfig, c2: PluginConfig)
    ensures ManifestDir(c1) == ManifestDir(c2) <==> c1.name == c2.name
  {
    if ManifestDir(c1) == ManifestDir(c2) {
      assert ManifestDir(c1)[5..] == ManifestDir(c2)[5..];
    }
  }

  /** The text the hook writes: the serialised manifest for the resolved
      version, which reads back as that manifest. */
  function ManifestText(cfg: PluginConfig, envVersion: Option<string>): (t: string)
    ensures Decode(t) == Some(Synthesize(cfg, ResolveVersion(envVersion, cfg)))
  {
    RoundTrip(Synthesize(cfg, ResolveVersion(envVersion, cfg)));
    Serialize(Synthesize(cfg, ResolveVersion(envVersion, cfg)))
  }

  /** `mkdirSync` then `writeFileSync(path, text)` inside the try block, with
      `ioError` the failure they raise, if any. Only `path` can change. */
  function WriteFile(files: map<string, string>, path: string, text: string,
                     ioError: Option<IoFailure>): (r: WriteResult)
    ensures ioError.None? <==> r.Written?
    ensures r.WriteFailed? ==> r.cause == ioError.value.cause
    ensures ioError.Some? && ioError.value.BeforeOpen? ==> r.files == files
    ensures (ioError.None? || ioError.value.AfterOpen?) ==> r.files.Keys == files.Keys + {path}
    ensures r.Written? ==> r.files[path] == text
    ensures ioError.Some? && ioError.value.AfterOpen? ==> r.files[path] <= text
    ensures forall p :: p in files && p != path ==> p in r.files && r.files[p] == files[p]
  {
    match ioError
    case None => Written(files[path := text])
    case Some(BeforeOpen(e)) => WriteFailed(e, files)
    case Some(AfterOpen(e, n)) => WriteFailed(e, files[path := text[..if n < |text| then n else |text|]])
  }

  /** The `closeBundle` hook with the environment override `envVersion`, the
      current files and `ioError`, the failure the directory creation or the
      write would raise (`None` when both succeed). A successful write adds
      or overwrites manifest.json with exactly the serialised manifest, which
      decodes to the manifest. A failure before the file is opened leaves the
      files as they were; one after it leaves manifest.json holding a prefix
      of that text, possibly empty. No other file changes in any case. */
  function CloseBundle(cfg: PluginConfig, envVersion: Option<string>,
                       files: map<string, string>, ioError: Option<IoFailure>): (r: WriteResult)
    ensures ioError.None? <==> r.Written?
    ensures r.WriteFailed? ==> r.cause == ioError.value.cause
    ensures ioError.Some? && ioError.value.BeforeOpen? ==> r.files == files
    ensures (ioError.None? || ioError.value.AfterOpen?) ==> r.files.Keys == files.Keys + {ManifestPath(cfg)}
    ensures r.Written? ==>
      r.files[ManifestPath(cfg)] == Serialize(Synthesize(cfg, ResolveVersion(envVersion, cfg)))
    ensures r.Written? ==>
      Decode(r.files[ManifestPath(cfg)]) == Some(Synthesize(cfg, ResolveVersion(envVersion, cfg)))
    ensures ioError.Some? && ioError.value.AfterOpen? ==>
      r.files[ManifestPath(cfg)] <= Serialize(Synthesize(cfg, ResolveVersion(envVersion, cfg)))
    ensures forall p :: p in files && p != ManifestPath(cfg) ==> p in r.files && r.files[p] == files[p]
  {
    WriteFile(files, ManifestPath(cfg), ManifestText(cfg, envVersion), ioError)
  }
}
