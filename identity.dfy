/** The identity-file check and the JSON-LD schema extraction of the audit
    pipeline: which manifest announces the site to agents, how many
    structured-data blocks the page carries, and the sample shown of the
    first one. */
module Identity {
  import opened Text
  import opened RuleTable

  const SampleLimit := 500

  /** Manifest tags in precedence order: the AI plugin file, the web app
      manifest, a `<link rel="manifest">` in the markup. */
  const ManifestTags := ["Found (AI Plugin)", "Found (Web Manifest)", "Found (Linked in HTML)"]

  /** The manifest verdict, an if/elif chain over the two probe status codes
      and the markup link; it is the first-match-wins rule table over the
      three signals in precedence order. */
  function ManifestStatus(pluginStatus: int, webManifestStatus: int, linked: bool): (r: string)
    ensures r == FirstMatch(ManifestTags, [pluginStatus == 200, webManifestStatus == 200, linked], "Missing")
  {
    if pluginStatus == 200 then "Found (AI Plugin)"
    else if webManifestStatus == 200 then "Found (Web Manifest)"
    else if linked then "Found (Linked in HTML)"
    else "Missing"
  }

  /** A manifest is reported found exactly when one of the three signals is
      present, and "Missing" otherwise. */
  lemma ManifestFoundIff(pluginStatus: int, webManifestStatus: int, linked: bool)
    ensures var r := ManifestStatus(pluginStatus, webManifestStatus, linked);
      (Contains(r, "Found") <==> pluginStatus == 200 || webManifestStatus == 200 || linked)
      && (r == "Missing" <==> !(pluginStatus == 200 || webManifestStatus == 200 || linked))
  {
    var r := ManifestStatus(pluginStatus, webManifestStatus, linked);
    if pluginStatus == 200 || webManifestStatus == 200 || linked {
      assert "Found" <= r;
    } else {
      NotContainsWithoutFirstChar(r, "Found");
    }
  }

  /** A 200 AI plugin file wins over everything; the markup link only
      decides when neither probe returned 200. */
  lemma ManifestPrecedence(pluginStatus: int, webManifestStatus: int, linked: bool)
    ensures pluginStatus == 200 ==> ManifestStatus(pluginStatus, webManifestStatus, linked) == ManifestTags[0]
    ensures ManifestStatus(pluginStatus, webManifestStatus, linked) == ManifestTags[2]
        <==> pluginStatus != 200 && webManifestStatus != 200 && linked
  {
    var fires := [pluginStatus == 200, webManifestStatus == 200, linked];
    if pluginStatus == 200 {
      FirstMatchPrecedence(ManifestTags, fires, "Missing", 0);
    }
  }

  /** `schema_count`: the number of JSON-LD blocks. */
  function SchemaCount(blocks: seq<string>): (n: nat)
    ensures n == 0 <==> blocks == []
  {
    |blocks|
  }

  /** `schema_sample`: the first 500 characters of the first JSON-LD block,
      or "None" when the page has none. The sample never exceeds the limit,
      and a first block within the limit is shown whole. */
  function SchemaSample(blocks: seq<string>): (r: string)
    ensures blocks == [] ==> r == "None"
    ensures blocks != [] ==> r <= blocks[0] && |r| <= SampleLimit
    ensures blocks != [] && |blocks[0]| <= SampleLimit ==> r == blocks[0]
    ensures blocks != [] && |blocks[0]| > SampleLimit ==> |r| == SampleLimit
  {
    if blocks == [] then "None" else Truncate(blocks[0], SampleLimit)
  }
}
