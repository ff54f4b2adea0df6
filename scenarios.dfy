/** Concrete builds: the manifest text for a minimal configuration with and
    without an environment override, and the escaping of awkward values. */
module Scenarios {
  import opened Wrappers
  import opened ConfigResolver
  import opened ManifestSynthesizer
  import JsonString
  import JsonObject

  const ChartWidget: PluginConfig :=
    PluginConfig("chart-widget", None, None, "1.2.0", None, None, None)

  /** The property line of a field whose key and value need no escaping:
      the two-space indent, the quoted key, a colon and a space, and the
      quoted value. */
  lemma PlainMember(k: string, v: string)
    requires JsonString.AllPlain(k) && JsonString.AllPlain(v)
    ensures JsonObject.Member(JsonObject.Field(k, v)) == "  \"" + k + "\": \"" + v + "\""
  {
    JsonString.PlainIsUnescaped(k);
    JsonString.PlainIsUnescaped(v);
  }

  /** Without an override, the display name falls back to the name, the four
      optional fields are empty, and the text written reads back as exactly
      that manifest. */
  lemma ChartWidgetManifest()
    ensures Synthesize(ChartWidget, ResolveVersion(None, ChartWidget)) ==
      Manifest("chart-widget", "chart-widget", "", "1.2.0", "", "", "")
    ensures Decode(Serialize(Synthesize(ChartWidget, ResolveVersion(None, ChartWidget)))) ==
      Some(Manifest("chart-widget", "chart-widget", "", "1.2.0", "", "", ""))
  {
    RoundTrip(Synthesize(ChartWidget, ResolveVersion(None, ChartWidget)));
  }

  /** An override changes the version field and nothing else. */
  lemma ChartWidgetOverride()
    ensures Synthesize(ChartWidget, ResolveVersion(Some("2.0.0-rc1"), ChartWidget)) ==
      Synthesize(ChartWidget, ResolveVersion(None, ChartWidget)).(version := "2.0.0-rc1")
  {
  }

  /** Quotes, backslashes, line breaks and other control characters are
      escaped as QuoteJSONString escapes them. */
  lemma EscapedQuoteAndBackslash()
    ensures JsonString.Quote("hi\"\\") == "\"hi\\\"\\\\\""
  {
    assert JsonString.EscapeBody("\\") == "\\\\";
    assert JsonString.EscapeBody("\"\\") == "\\\"\\\\";
    assert JsonString.EscapeBody("i\"\\") == "i\\\"\\\\";
    assert JsonString.EscapeBody("hi\"\\") == "hi\\\"\\\\";
  }

  lemma EscapedLineBreak()
    ensures JsonString.Quote("a\nb") == "\"a\\nb\""
  {
    assert JsonString.EscapeBody("b") == "b";
    assert JsonString.EscapeBody("\nb") == "\\nb";
    assert JsonString.EscapeBody("a\nb") == "a\\nb";
  }

  /** Control characters without a short escape become `\u` and four
      lower-case hexadecimal digits. */
  lemma EscapedControl()
    ensures JsonString.Quote([0x01 as char, 0x1F as char]) == "\"\\u0001\\u001f\""
  {
    assert JsonString.EscapeBody([0x1F as char]) == "\\u001f";
    assert JsonString.EscapeBody([0x01 as char, 0x1F as char]) == "\\u0001\\u001f";
  }
}
