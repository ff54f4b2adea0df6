/** The manifest record built in the `closeBundle` hook and its text, as
    written by `JSON.stringify(manifest, null, 2)` (page/vite.config.js,
    lines 16-24 and 28). */
module ManifestSynthesizer {
  import opened Wrappers
  import Js
  import opened ConfigResolver
  import JsonObject

  datatype Manifest = Manifest(
    name: string,
    displayName: string,
    description: string,
    version: string,
    icon: string,
    author: string,
    homepage: string)

  /** The keys of the manifest object, in the order of the object literal. */
  const ManifestKeys: seq<string> :=
    ["name", "displayName", "description", "version", "icon", "author", "homepage"]

  /** The manifest literal: `name` and `version` pass through, `displayName`
      falls back to `name`, and the four remaining fields fall back to `""`.
      Because the code uses `||`, an empty string counts as absent. */
  function Synthesize(cfg: PluginConfig, version: string): (m: Manifest)
    ensures m.name == cfg.name
    ensures m.version == version
    ensures Js.Truthy(cfg.displayName) ==> m.displayName == cfg.displayName.value
    ensures !Js.Truthy(cfg.displayName) ==> m.displayName == cfg.name
    ensures Js.Truthy(cfg.description) ==> m.description == cfg.description.value
    ensures !Js.Truthy(cfg.description) ==> m.description == ""
    ensures Js.Truthy(cfg.icon) ==> m.icon == cfg.icon.value
    ensures !Js.Truthy(cfg.icon) ==> m.icon == ""
    ensures Js.Truthy(cfg.author) ==> m.author == cfg.author.value
    ensures !Js.Truthy(cfg.author) ==> m.author == ""
    ensures Js.Truthy(cfg.homepage) ==> m.homepage == cfg.homepage.value
    ensures !Js.Truthy(cfg.homepage) ==> m.homepage == ""
  {
    Manifest(
      name := cfg.name,
      displayName := Js.OrElse(cfg.displayName, cfg.name),
      description := Js.OrElse(cfg.description, ""),
      version := version,
      icon := Js.OrElse(cfg.icon, ""),
      author := Js.OrElse(cfg.author, ""),
      homepage := Js.OrElse(cfg.homepage, ""))
  }

  /** The display name is empty only when both the configured display name
      and the name are. */
  lemma DisplayNameEmpty(cfg: PluginConfig, version: string)
    ensures Synthesize(cfg, version).displayName == "" <==>
      (cfg.name == "" && !Js.Truthy(cfg.displayName))
  {
  }

  /** Only the truthiness and value of an optional field matter: an empty
      string and an absent field give the same manifest. */
  lemma EmptyFieldsAreAbsent(cfg: PluginConfig, version: string)
    ensures Synthesize(cfg, version) == Synthesize(cfg.(
      displayName := if Js.Truthy(cfg.displayName) then cfg.displayName else None,
      description := if Js.Truthy(cfg.description) then cfg.description else None,
      icon := if Js.Truthy(cfg.icon) then cfg.icon else None,
      author := if Js.Truthy(cfg.author) then cfg.author else None,
      homepage := if Js.Truthy(cfg.homepage) then cfg.homepage else None), version)
  {
  }

  /** The manifest's own properties, in insertion order. */
  function Fields(m: Manifest): (fs: seq<JsonObject.Field>)
    ensures JsonObject.Keys(fs) == ManifestKeys
  {
    [ JsonObject.Field("name", m.name),
      JsonObject.Field("displayName", m.displayName),
      JsonObject.Field("description", m.description),
      JsonObject.Field("version", m.version),
      JsonObject.Field("icon", m.icon),
      JsonObject.Field("author", m.author),
      JsonObject.Field("homepage", m.homepage) ]
  }

  /** Reads a manifest back from its fields; the seven keys must appear in
      order and nothing else may. */
  function FromFields(fs: seq<JsonObject.Field>): (r: Option<Manifest>)
    ensures r.Some? <==> JsonObject.Keys(fs) == ManifestKeys
    ensures r.Some? ==> Fields(r.value) == fs
  {
    if JsonObject.Keys(fs) == ManifestKeys then
      Some(Manifest(fs[0].value, fs[1].value, fs[2].value, fs[3].value,
                    fs[4].value, fs[5].value, fs[6].value))
    else None
  }

  /** The text of manifest.json: a JSON object holding exactly the seven
      properties, in the fixed order, with the manifest's values. */
  function Serialize(m: Manifest): (t: string)
    ensures JsonObject.Parse(t) == Some(Fields(m))
  {
    JsonObject.RoundTrip(Fields(m));
    JsonObject.Stringify(Fields(m))
  }

  /** Reads manifest.json text back into a manifest. The text is accepted
      exactly when it is an object whose keys are the seven manifest keys in
      order, and the manifest then has that object's values. */
  function Decode(text: string): (r: Option<Manifest>)
    ensures r.Some? <==>
      (JsonObject.Parse(text).Some? && JsonObject.Keys(JsonObject.Parse(text).value) == ManifestKeys)
    ensures r.Some? ==> Some(Fields(r.value)) == JsonObject.Parse(text)
  {
    match JsonObject.Parse(text)
    case None => None
    case Some(fs) => FromFields(fs)
  }

  /** Decoding the serialised manifest recovers every field, whatever quotes,
      backslashes or control characters the values hold. */
  lemma RoundTrip(m: Manifest)
    ensures Decode(Serialize(m)) == Some(m)
  {
  }

  /** Two manifests are written as byte-identical text exactly when they are
      equal; together with `Synthesize` being a function of its inputs, equal
      inputs give byte-identical manifest.json contents. */
  lemma SerializeInjective(m1: Manifest, m2: Manifest)
    ensures Serialize(m1) == Serialize(m2) <==> m1 == m2
  {
    if Serialize(m1) == Serialize(m2) {
      RoundTrip(m1);
      RoundTrip(m2);
    }
  }
}
