# Plugin packaging pipeline of the SR-IOV driver page

This project models the build configuration of the driver's web page plugin. The plugin is a single Vue component. It is published as a module-federation remote, together with a `manifest.json` that describes it to the host page. The model is written in Dafny and covers:

- **Version resolution.** The `PLUGIN_VERSION` environment variable overrides the configured version when it is set and non-empty. An unset or empty variable falls back to the configured version, as JavaScript's `||` does. The environment is a parameter (`envVersion`).
- **Manifest synthesis.** Seven string fields are built from `plugin.config.js`. `displayName` falls back to `name`. `description`, `icon`, `author` and `homepage` fall back to `""`. An empty string counts as absent.
- **Serialisation.** `JSON.stringify(manifest, null, 2)` is modelled for a flat object of strings: `{`, one two-space-indented `"key": "value"` line per field separated by `,` and a line break, then `}`. Strings are escaped as in the QuoteJSONString operation of ECMA-262. Decoders for that text (string literals as in section 7 of RFC 8259, and the object layout) are the partners of the round-trip lemmas.
- **Bundler declarations.** These are the `define` constants, the federation options (public name, `remoteEntry.js`, the single `./Plugin` exposure, shared `["vue"]`), the plugin list and the `build` block with `outDir` `dist/<name>`.
- **The `closeBundle` hook.** It writes manifest.json into `dist/<name>/`. The filesystem is a map from relative path to contents. The failure the directory creation or the write raises, if any, is an input. A failure is a value and never stops the build.

Modules: `Wrappers` (Option), `Js` (`||` on optional strings), `JsonString`, `JsonObject`, `ConfigResolver`, `ManifestSynthesizer`, `ExposureDeclarator`, `OutputWriter`, `Pipeline` (lemmas across both build phases) and `Scenarios` (concrete builds).

Three behaviours of the code that are easy to miss:

- The code has no check for a missing `name`, so `name` and `version` are required strings and there is no halt.
- manifest.json is pretty-printed with a two-space indent, one property per line.
- `__PLUGIN_NAME__` is the JSON text of the raw `displayName`, with no fallback to `name`. When `displayName` is absent it is `undefined`, modelled as `None`.

## Model

| member | source | states |
|---|---|---|
| Js.OrElse | page/vite.config.js:8 | JavaScript's or-operator on an optional string: the value when it is present and non-empty, else the fallback; empty exactly when both are falsy/empty |
| ConfigResolver.ResolveVersion | page/vite.config.js:8 | a set, non-empty override wins; an unset or empty one gives the configured version; the result is empty only when the configured version is and there is no truthy override |
| ConfigResolver.EmptyOverrideIsAbsent | page/vite.config.js:8 | an empty override resolves exactly like an absent one, to the configured version |
| JsonString.EscapeChar | page/vite.config.js:28 | each character's escape: plain characters are copied, `"` and `\` and controls are escaped and start with a backslash, never with a quote |
| JsonString.Hex4 | page/vite.config.js:28 | the digits of a `\u` escape are exactly four characters (their value is stated by Hex4RoundTrip) |
| JsonString.Hex4RoundTrip | page/vite.config.js:28 | the four lower-case hex digits of a `\u` escape read back as the code unit |
| JsonString.EscapeBody | page/vite.config.js:28 | escaping never shortens a string, and leaves its length unchanged exactly when no character needs escaping |
| JsonString.Quote | page/vite.config.js:28 | a JSON string literal: starts and ends with a quote |
| JsonString.DecodeChar | page/vite.config.js:28 | decoding one character or escape consumes input, rejecting raw controls, unknown escapes and surrogate escapes |
| JsonString.UnquoteBody | page/vite.config.js:28 | decoding a literal's body up to the closing quote consumes input |
| JsonString.Unquote | page/vite.config.js:28 | decoding a string literal consumes input |
| JsonString.UnicodeEscapeRoundTrip | page/vite.config.js:28 | the `\u` escape of a control character decodes to that character, leaving the following text |
| JsonString.EscapeCharRoundTrip | page/vite.config.js:28 | every character's escape decodes to that character, leaving the following text |
| JsonString.UnquoteBodyRoundTrip | page/vite.config.js:28 | the escaped body of any string followed by a quote decodes to that string and the remaining text |
| JsonString.QuoteRoundTrip | page/vite.config.js:28 | decoding `Quote(s) + rest` gives `s` and leaves `rest` |
| JsonString.QuoteDecodes | page/vite.config.js:39-40 | the literal on its own decodes to the string with nothing left |
| JsonString.EveryQuoteDecodes | page/vite.config.js:39-40 | the same, for every string at once |
| JsonString.QuoteInjective | page/vite.config.js:28 | two strings have the same literal exactly when they are equal |
| JsonString.EscapeBodyAppend | page/vite.config.js:28 | escaping is applied character by character: it distributes over concatenation |
| JsonString.PlainIsUnescaped | page/vite.config.js:28 | text without quotes, backslashes or controls is copied unchanged |
| JsonString.EscapeBodyHasNoControl | page/vite.config.js:28 | escaped text holds no character below U+0020 |
| JsonString.QuoteHasNoControl | page/vite.config.js:28 | a quoted string holds no raw control character |
| JsonObject.Keys | page/vite.config.js:16-24 | the keys of the fields, in order and one per field |
| JsonObject.Member | page/vite.config.js:28 | a property line opens with the two-space indent and a quote and ends with a quote |
| JsonObject.MemberIsOneLine | page/vite.config.js:28 | a property line holds no control character, so no line break |
| JsonObject.MembersLineBreaks | page/vite.config.js:28 | the property lines that `Members` writes for `n` fields hold exactly `n - 1` line breaks, one after each separating comma, so each property takes one line |
| JsonObject.Stringify | page/vite.config.js:28 | an empty object is `{}`; otherwise the text opens with `{` and a line break and closes with a line break and `}` |
| JsonObject.ParseValue | page/vite.config.js:28 | decoding the colon, the space and the value literal after a key consumes input |
| JsonObject.ParseMember | page/vite.config.js:28 | decoding one property line consumes input |
| JsonObject.ParseMembers | page/vite.config.js:28 | a decoded object body has at least one field |
| JsonObject.Parse | page/vite.config.js:28 | the text decodes to no fields exactly when it is `{}`; text decoding to some fields opens with `{` and a line break |
| JsonObject.ParseValueRoundTrip | page/vite.config.js:28 | a colon, a space and a value literal decode to that value, leaving the following text |
| JsonObject.ParseIndented | page/vite.config.js:28 | an indented key literal followed by a well-formed value part decodes as that key and value |
| JsonObject.ParseMemberRoundTrip | page/vite.config.js:28 | a property line decodes to its key and value, leaving the following text |
| JsonObject.ParseMembersStep | page/vite.config.js:28 | a line, a comma and a line break, then more lines: decodes as that field followed by the rest |
| JsonObject.ParseMembersRoundTrip | page/vite.config.js:28 | the property lines of any non-empty field list plus the closing decode to that list |
| JsonObject.RoundTrip | page/vite.config.js:28 | parsing the stringified text of any field list recovers every key and value in order |
| JsonObject.StringifyInjective | page/vite.config.js:28 | two field lists give the same text exactly when they are equal |
| ManifestSynthesizer.Synthesize | page/vite.config.js:16-24 | name and version pass through; displayName is the configured one when truthy, else name; the other four are the configured value when truthy, else `""` |
| ManifestSynthesizer.DisplayNameEmpty | page/vite.config.js:18 | the display name is empty exactly when the name is empty and the configured display name is falsy |
| ManifestSynthesizer.EmptyFieldsAreAbsent | page/vite.config.js:18-23 | an optional field set to `""` gives the same manifest as one left out |
| ManifestSynthesizer.Fields | page/vite.config.js:16-24 | the properties have the keys name, displayName, description, version, icon, author, homepage, in that order |
| ManifestSynthesizer.FromFields | page/vite.config.js:16-24 | a field list is read as a manifest exactly when its keys are those seven in order, and it then gives back those fields |
| ManifestSynthesizer.Serialize | page/vite.config.js:16-28 | the manifest text parses as a JSON object with exactly the seven properties, in the fixed order, with the manifest's values |
| ManifestSynthesizer.Decode | page/vite.config.js:28 | text is read as a manifest exactly when it parses as an object whose keys are the seven manifest keys in order, and the manifest's fields are then that object's properties |
| ManifestSynthesizer.RoundTrip | page/vite.config.js:28 | decoding the manifest text recovers every field, including quotes, backslashes and control characters |
| ManifestSynthesizer.SerializeInjective | page/vite.config.js:16-28 | two manifests give byte-identical text exactly when they are equal |
| ExposureDeclarator.Federate | page/vite.config.js:44-51 | public name is the plugin name; entry `remoteEntry.js`; exactly one exposure `./Plugin` to `./src/Plugin.vue`; shared is exactly `["vue"]` |
| ExposureDeclarator.FederationDependsOnlyOnName | page/vite.config.js:44-51 | two configurations give the same federation options exactly when their names agree; nothing else, and not the version, affects them |
| ExposureDeclarator.Defines | page/vite.config.js:38-41 | `__PLUGIN_VERSION__` decodes to the resolved version; `__PLUGIN_NAME__` is defined exactly when displayName is present and decodes to the raw displayName |
| ExposureDeclarator.Build | page/vite.config.js:54-63 | the bundle goes to `dist/` followed by the name; target esnext, no minification, no CSS split, empty assets directory, empty input |
| ExposureDeclarator.Configure | page/vite.config.js:37-64 | three plugins in order (Vue, federation under the plugin's name, the manifest hook); the version constant decodes to the resolved version; the bundle goes to `dist/<name>` |
| OutputWriter.ManifestDir | page/vite.config.js:14 | the manifest directory is `dist/` followed by the name |
| OutputWriter.ManifestPath | page/vite.config.js:28 | the manifest file is that directory followed by `/manifest.json` |
| OutputWriter.ManifestDirInjective | page/vite.config.js:14 | different plugin names give different directory strings |
| OutputWriter.ManifestText | page/vite.config.js:16-28 | the text written reads back as the manifest synthesized for the resolved version |
| OutputWriter.WriteFile | page/vite.config.js:26-33 | `mkdirSync` then `writeFileSync` in a try block: success stores the text at the path; a failure before the file is opened leaves the files as they were; one after it leaves the path holding a prefix of the text, possibly empty; the cause is returned; no other path changes |
| OutputWriter.CloseBundle | page/vite.config.js:13-33 | success adds or overwrites manifest.json with exactly the serialised manifest, which decodes to the synthesized manifest; a failure is returned with its cause, leaving manifest.json untouched when it happens before the file is opened and holding a prefix of the text, possibly empty, when it happens after; every other file is unchanged |
| Pipeline.ManifestBesideBundle | page/vite.config.js:14-58 | the manifest directory string is the bundle's `outDir` string, and the manifest path is that string plus `/manifest.json` |
| Pipeline.IdentityAgrees | page/vite.config.js:8-45 | the version in the written manifest is the one `__PLUGIN_VERSION__` decodes to; the remote's public name is the manifest's name |
| Pipeline.DisplayNameConstant | page/vite.config.js:18-40 | `__PLUGIN_NAME__` agrees with the manifest's display name when the configured one is truthy; it is `""` when that is empty while the manifest falls back to the name; it is undefined when absent |
| Pipeline.WriteFailureIsContained | page/vite.config.js:26-33 | a failed write is reported as a value carrying the cause; before the file is opened nothing changes; after it only manifest.json changes, to a prefix of what a successful build writes |
| Pipeline.RebuildIsIdempotent | page/vite.config.js:26-28 | rebuilding with the same inputs leaves the files as the first build left them |
| Scenarios.PlainMember | page/vite.config.js:28 | a field without characters to escape is written as two spaces, `"key": "value"` |
| Scenarios.ChartWidgetManifest | page/vite.config.js:16-28 | `{name: "chart-widget", version: "1.2.0"}` with no override gives name and displayName `chart-widget`, version `1.2.0`, the rest empty, and its text decodes to that |
| Scenarios.ChartWidgetOverride | page/vite.config.js:8-20 | the override `2.0.0-rc1` changes the version field and nothing else |
| Scenarios.EscapedQuoteAndBackslash | page/vite.config.js:28 | `hi"\` is written with `\"` and `\\` |
| Scenarios.EscapedLineBreak | page/vite.config.js:28 | a line break is written `\n` |
| Scenarios.EscapedControl | page/vite.config.js:28 | U+0001 and U+001F are written `\u0001` and `\u001f` |

## Left out

- `mkdirSync` and `writeFileSync` (page/vite.config.js:27-28): these are filesystem I/O. They become a map update plus an injected failure, either before manifest.json is opened (the file is untouched) or after it (the file holds the first characters of the text). Directories are not tracked, and the partial write is counted in characters, not in UTF-8 bytes.
- The `console.log`/`console.error` messages (page/vite.config.js:29-32): these are console output. The success message prints the raw `displayName`, so it can print `undefined`. That is not modelled.
- `plugin.config.js` and `process.env.PLUGIN_VERSION` (page/vite.config.js:6, 8): these are module loading and environment reads. They are inputs, `PluginConfig` and `envVersion`. plugin.config.js itself is not part of this model.
- `path.resolve` against `__dirname` (page/vite.config.js:14, 28): this is host path resolution. Paths are relative strings joined with `/`. Normalisation is not modelled, so names such as `a`, `a/`, `./a` and `b/../a` (or `""` and `.`) give different directory strings here but the same directory on disk. Nor is the different base: line 14 resolves against the config file's directory, while Vite resolves `outDir` against its root, so the two directories coincide only when the root is that directory.
- Vite, `@vitejs/plugin-vue` and `@originjs/vite-plugin-federation` (page/vite.config.js:1-3, 43-44): these are foreign libraries. Only the records passed to them are modelled, and the Vue plugin is a bare `Vue` entry.
- A halt when `name` is missing: the code has no such check, and `name` is a required string here.
- Values that are not strings in the config, and JSON.stringify's escaping of lone surrogates: Dafny's `char` is a Unicode scalar value, so no string can hold a lone surrogate. The decoder rejects `\u` escapes of surrogates, so surrogate-pair escapes, which the escaper never produces, are not decoded.
- Scenarios.ChartWidgetManifest: states the sample manifest's record and that its text decodes to it, not the literal 200-character text. The layout of each line is stated generally by Scenarios.PlainMember and JsonObject.RoundTrip.
