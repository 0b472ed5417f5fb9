/** The audit pipeline (`perform_audit`, up to the recommendation rules):
    fingerprint the stack, classify the gates, extract the JSON-LD blocks,
    check the identity files, compile the record and derive the advice. */
module Auditor {
  import opened Text
  import opened RuleTable
  import opened Inputs
  import opened TechStack
  import opened Gates
  import opened Identity
  import opened Record
  import opened Recommendations
  import opened Scoring

  /** The sitemap probes in probe order. */
  function SitemapProbes(probes: Probes): (r: seq<Fetch>)
    ensures |r| == 4
  {
    [probes.sitemap, probes.sitemaps, probes.sitemapIndex, probes.wpSitemap]
  }

  /** The record the pipeline compiles for one homepage and its probes. */
  function AuditOf(url: string, page: PageFacts, probes: Probes): (a: AuditRecord)
    ensures HasGates(a)
  {
    AuditRecord(
      url,
      StackString(page),
      GateStatuses(probes.robots, SitemapProbes(probes), probes.aiTxt),
      SchemaCount(page.jsonLd),
      SchemaSample(page.jsonLd),
      ManifestStatus(probes.pluginStatus, probes.webManifestStatus, page.manifestLinked))
  }

  /** `perform_audit` from the fingerprint to the recommendations. */
  method PerformAudit(url: string, page: PageFacts, probes: Probes) returns (audit: AuditRecord, recs: seq<string>)
    ensures audit == AuditOf(url, page, probes)
    ensures recs == Recommended(audit)
  {
    var stack := DetectTechStack(page);
    var gates := CheckSecurityGates(probes.robots, probes.sitemap, probes.sitemaps,
                                    probes.sitemapIndex, probes.wpSitemap, probes.aiTxt);
    assert gates == GateStatuses(probes.robots, SitemapProbes(probes), probes.aiTxt);

    var schemas := page.jsonLd;
    var sample := SchemaSample(schemas);
    var manifest := ManifestStatus(probes.pluginStatus, probes.webManifestStatus, page.manifestLinked);

    audit := AuditRecord(url, stack, gates, |schemas|, sample, manifest);
    recs := GenerateRecommendations(audit);
  }

  /** The five scoring buckets in terms of what the site served: robots.txt
      answered 200; it did so without mentioning both "GPTBot" and
      "Disallow"; no sitemap probe failed and one answered 200; the page
      carries JSON-LD; ai.txt answered 200 or some identity signal is present. */
  lemma BucketsOfAudit(url: string, page: PageFacts, probes: Probes)
    ensures var b, r, sm := Buckets(AuditOf(url, page, probes)), probes.robots, SitemapProbes(probes);
      |b| == 5
      && (b[0] <==> IsOk(r))
      && (b[1] <==> IsOk(r) && !(Contains(r.text, "GPTBot") && Contains(r.text, "Disallow")))
      && (b[2] <==> (forall i :: 0 <= i < 4 ==> sm[i].Response?) && exists i :: 0 <= i < 4 && IsOk(sm[i]))
      && (b[3] <==> page.jsonLd != [])
      && (b[4] <==> IsOk(probes.aiTxt) || probes.pluginStatus == 200 || probes.webManifestStatus == 200 || page.manifestLinked)
  {
    GatesOfAudit(url, page, probes);
    BucketsOfRecord(AuditOf(url, page, probes), probes.robots, SitemapProbes(probes), probes.aiTxt,
                    probes.pluginStatus, probes.webManifestStatus, page.manifestLinked);
  }

  /** The buckets of any record whose statuses came from the classifier and
      the identity check. */
  lemma BucketsOfRecord(a: AuditRecord, r: Fetch, sm: seq<Fetch>, aiTxt: Fetch, plugin: int, web: int, linked: bool)
    requires |sm| == 4 && HasGates(a)
    requires a.gates[RobotsKey] == RobotsGate(r) && a.gates[AiAccessKey] == AiAccessGate(r)
    requires a.gates[SitemapKey] == SitemapGate(sm) && a.gates[AiTxtKey] == AiTxtGate(aiTxt)
    requires a.manifest == ManifestStatus(plugin, web, linked)
    ensures Buckets(a)[0] <==> IsOk(r)
    ensures Buckets(a)[1] <==> IsOk(r) && !(Contains(r.text, "GPTBot") && Contains(r.text, "Disallow"))
    ensures Buckets(a)[2] <==> (forall i :: 0 <= i < 4 ==> sm[i].Response?) && exists i :: 0 <= i < 4 && IsOk(sm[i])
    ensures Buckets(a)[3] <==> a.schemaCount > 0
    ensures Buckets(a)[4] <==> IsOk(aiTxt) || plugin == 200 || web == 200 || linked
  {
    RobotsBucket(a, r);
    AccessBucket(a, r);
    SitemapBucket(a, sm);
    IdentityBucket(a, aiTxt, plugin, web, linked);
  }

  /** The last bucket of a record whose ai.txt status came from the
      classifier and whose manifest status came from the identity check. */
  lemma IdentityBucket(a: AuditRecord, aiTxt: Fetch, plugin: int, web: int, linked: bool)
    requires HasGates(a) && a.gates[AiTxtKey] == AiTxtGate(aiTxt) && a.manifest == ManifestStatus(plugin, web, linked)
    ensures Buckets(a)[4] <==> IsOk(aiTxt) || plugin == 200 || web == 200 || linked
  {
    AiTxtBucketOnGate(aiTxt);
    ManifestFoundIff(plugin, web, linked);
  }

  /** Each gate of the record is the classifier's verdict on its own probes. */
  lemma GatesOfAudit(url: string, page: PageFacts, probes: Probes)
    ensures var a := AuditOf(url, page, probes);
      a.gates[RobotsKey] == RobotsGate(probes.robots)
      && a.gates[AiAccessKey] == AiAccessGate(probes.robots)
      && a.gates[SitemapKey] == SitemapGate(SitemapProbes(probes))
      && a.gates[AiTxtKey] == AiTxtGate(probes.aiTxt)
      && a.manifest == ManifestStatus(probes.pluginStatus, probes.webManifestStatus, page.manifestLinked)
      && a.schemaCount == |page.jsonLd|
  {
  }

  /** The whitelist advice is given exactly when robots.txt answered 200
      and mentions both "GPTBot" and "Disallow". */
  lemma WhitelistAdviceIff(url: string, page: PageFacts, probes: Probes)
    ensures Whitelist in Recommended(AuditOf(url, page, probes))
        <==> IsOk(probes.robots) && Contains(probes.robots.text, "GPTBot") && Contains(probes.robots.text, "Disallow")
  {
    GatesOfAudit(url, page, probes);
    WhitelistAdvice(AuditOf(url, page, probes), probes.robots);
  }

  /** A site that serves nothing but its homepage, with no recognisable
      stack, no JSON-LD and no manifest link: every probe answers 404. */
  function BareSite(): (PageFacts, Probes)
  {
    var gone := Response(404, "");
    (PageFacts("", None, map[], [], false), Probes(gone, gone, gone, gone, gone, gone, 404, 404))
  }

  /** The record the bare site is expected to produce. */
  function BareRecord(url: string): AuditRecord
  {
    AuditRecord(url, Unknown,
      map[RobotsKey := "Missing", AiAccessKey := Uncontrolled, SitemapKey := "Missing", AiTxtKey := "Missing"],
      0, "None", "Missing")
  }

  /** The bare site is reported with the sentinel stack, every gate
      "Missing" except agent access, which is uncontrolled, no manifest and
      no schema sample. */
  lemma BareSiteRecord(url: string)
    ensures AuditOf(url, BareSite().0, BareSite().1) == BareRecord(url)
  {
    var (page, probes) := BareSite();
    NotContainsWithoutFirstChar("None", "WordPress");
    PickedNone(LabelTable(page.headers), Signals(page), CheckCount);
    SitemapMissingIff(SitemapProbes(probes));
    assert GateStatuses(probes.robots, SitemapProbes(probes), probes.aiTxt) == BareRecord(url).gates;
  }

  /** A site that serves none of the probed files with 200, carries no
      JSON-LD and links no manifest scores nothing. */
  lemma NothingServedScoresNothing(url: string, page: PageFacts, probes: Probes)
    requires !IsOk(probes.robots) && !IsOk(probes.aiTxt)
    requires forall i :: 0 <= i < 4 ==> !IsOk(SitemapProbes(probes)[i])
    requires page.jsonLd == [] && probes.pluginStatus != 200 && probes.webManifestStatus != 200 && !page.manifestLinked
    ensures Passed(AuditOf(url, page, probes)) == 0
  {
    GatesOfAudit(url, page, probes);
    NothingServedRecord(AuditOf(url, page, probes), probes.robots, SitemapProbes(probes), probes.aiTxt,
                        probes.pluginStatus, probes.webManifestStatus, page.manifestLinked);
  }

  lemma NothingServedRecord(a: AuditRecord, r: Fetch, sm: seq<Fetch>, aiTxt: Fetch, plugin: int, web: int, linked: bool)
    requires |sm| == 4 && HasGates(a)
    requires a.gates[RobotsKey] == RobotsGate(r) && a.gates[AiAccessKey] == AiAccessGate(r)
    requires a.gates[SitemapKey] == SitemapGate(sm) && a.gates[AiTxtKey] == AiTxtGate(aiTxt)
    requires a.manifest == ManifestStatus(plugin, web, linked)
    requires !IsOk(r) && !IsOk(aiTxt) && forall i :: 0 <= i < 4 ==> !IsOk(sm[i])
    requires a.schemaCount == 0 && plugin != 200 && web != 200 && !linked
    ensures Passed(a) == 0
  {
    AccessBucketOnGate(r);
    SitemapBucketOnGate(sm);
    AiTxtBucketOnGate(aiTxt);
    ManifestFoundIff(plugin, web, linked);
    NothingPasses(a);
  }

  /** A site without JSON-LD, without a Next.js stack and without a blocking
      robots.txt, whose ai.txt probe answered with a status other than 200,
      gets exactly the schema advice and then the ai.txt advice. */
  lemma SchemaAndAiTxtAdviceForSite(url: string, page: PageFacts, probes: Probes)
    requires !(IsOk(probes.robots) && Contains(probes.robots.text, "GPTBot") && Contains(probes.robots.text, "Disallow"))
    requires probes.aiTxt.Response? && probes.aiTxt.status != 200
    requires page.jsonLd == [] && !Contains(StackString(page), "Next.js")
    ensures Recommended(AuditOf(url, page, probes)) == [AddSchema, AddAiTxt]
  {
    var a := AuditOf(url, page, probes);
    GatesOfAudit(url, page, probes);
    WhitelistRuleOnGate(probes.robots);
    AiTxtRuleOnGate(probes.aiTxt);
    SchemaAndAiTxtAdviceOnly(a);
  }

  /** The bare site scores nothing. */
  lemma BareSiteScore(url: string)
    ensures Passed(AuditOf(url, BareSite().0, BareSite().1)) == 0
  {
    var (page, probes) := BareSite();
    NothingServedScoresNothing(url, page, probes);
  }

  /** The bare site's stack string does not name Next.js. */
  lemma BareSiteNotNextJs()
    ensures !Contains(StackString(BareSite().0), "Next.js")
  {
    var page := BareSite().0;
    NotContainsWithoutFirstChar("None", "WordPress");
    PickedNone(LabelTable(page.headers), Signals(page), CheckCount);
    NoLabelsNotNextJs(page);
  }

  /** The bare site gets the schema advice and then the ai.txt advice. */
  lemma BareSiteAdvice(url: string)
    ensures Recommended(AuditOf(url, BareSite().0, BareSite().1)) == [AddSchema, AddAiTxt]
  {
    BareSiteNotNextJs();
    SchemaAndAiTxtAdviceForSite(url, BareSite().0, BareSite().1);
  }
}
