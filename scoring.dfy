/** The dashboard's reading of an audit record: the readiness score
    (`calculate_score`), the colour of the score figure (`get_score_color`),
    the banner chosen by score band, and the pass/fail/warn card of each
    gate (`get_status_visual`). */
module Scoring {
  import opened Text
  import opened RuleTable
  import opened Inputs
  import opened Gates
  import opened Record

  const BucketPoints := 20
  const BucketCount := 5

  /** Whether each of the five scoring buckets passes, in scoring order:
      robots.txt found (exact match), agent access allowed, a sitemap found,
      at least one JSON-LD block, and ai.txt or a manifest found. */
  function Buckets(a: AuditRecord): (passes: seq<bool>)
    requires HasGates(a)
    ensures |passes| == BucketCount
  {
    [ a.gates[RobotsKey] == "Found",
      Contains(a.gates[AiAccessKey], "Allowed"),
      Contains(a.gates[SitemapKey], "Found"),
      a.schemaCount > 0,
      Contains(a.gates[AiTxtKey], "Found") || Contains(a.manifest, "Found") ]
  }

  /** The number of buckets that pass. */
  function Passed(a: AuditRecord): (n: nat)
    requires HasGates(a)
    ensures n <= BucketCount
  {
    CountFiredBounded(Buckets(a), BucketCount);
    CountFired(Buckets(a), BucketCount)
  }

  /** `calculate_score`: 20 points per passing bucket, added bucket by bucket. */
  method CalculateScore(a: AuditRecord) returns (score: int)
    requires HasGates(a)
    ensures score == BucketPoints * Passed(a)
    ensures 0 <= score <= 100 && score % BucketPoints == 0
  {
    score := 0;
    ghost var passes := Buckets(a);
    assert passes == [a.gates[RobotsKey] == "Found", Contains(a.gates[AiAccessKey], "Allowed"),
      Contains(a.gates[SitemapKey], "Found"), a.schemaCount > 0,
      Contains(a.gates[AiTxtKey], "Found") || Contains(a.manifest, "Found")];
    if a.gates[RobotsKey] == "Found" {
      score := score + 20;
    }
    assert score == 20 * CountFired(passes, 1);
    if Contains(a.gates[AiAccessKey], "Allowed") {
      score := score + 20;
    }
    assert score == 20 * CountFired(passes, 2);
    if Contains(a.gates[SitemapKey], "Found") {
      score := score + 20;
    }
    assert score == 20 * CountFired(passes, 3);
    if a.schemaCount > 0 {
      score := score + 20;
    }
    assert score == 20 * CountFired(passes, 4);
    if Contains(a.gates[AiTxtKey], "Found") || Contains(a.manifest, "Found") {
      score := score + 20;
    }
    assert score == 20 * CountFired(passes, 5);
  }

  /** Every bucket is worth exactly 20 points, whatever the others do: a
      record that passes one more bucket and agrees on the rest scores 20
      more. */
  lemma BucketWorthTwenty(a: AuditRecord, b: AuditRecord, i: nat)
    requires HasGates(a) && HasGates(b) && i < BucketCount
    requires !Buckets(a)[i] && Buckets(b) == Buckets(a)[i := true]
    ensures BucketPoints * Passed(b) == BucketPoints * Passed(a) + 20
  {
    CountFiredRaise(Buckets(a), i, BucketCount);
  }

  /** The score is monotone: passing at least the buckets of another record
      scores at least as much. */
  lemma ScoreMonotone(a: AuditRecord, b: AuditRecord)
    requires HasGates(a) && HasGates(b)
    requires forall i :: 0 <= i < BucketCount && Buckets(a)[i] ==> Buckets(b)[i]
    ensures Passed(a) <= Passed(b)
  {
    CountFiredMonotone(Buckets(a), Buckets(b), BucketCount);
  }

  /** ai.txt and the manifest share one bucket: a found manifest adds 20
      points exactly when ai.txt was not found, and nothing otherwise. */
  lemma ManifestBonusOnlyWithoutAiTxt(a: AuditRecord, m: string)
    requires HasGates(a) && Contains(m, "Found") && !Contains(a.manifest, "Found")
    ensures Passed(a.(manifest := m)) == Passed(a) + (if Contains(a.gates[AiTxtKey], "Found") then 0 else 1)
  {
    var b := a.(manifest := m);
    if !Contains(a.gates[AiTxtKey], "Found") {
      assert Buckets(b) == Buckets(a)[4 := true];
      CountFiredRaise(Buckets(a), 4, BucketCount);
    } else {
      assert Buckets(b) == Buckets(a);
    }
  }

  /** The agent-access bucket passes exactly when robots.txt answered 200
      without mentioning both "GPTBot" and "Disallow". */
  lemma AccessBucketOnGate(robots: Fetch)
    ensures Contains(AiAccessGate(robots), "Allowed")
        <==> IsOk(robots) && !(Contains(robots.text, "GPTBot") && Contains(robots.text, "Disallow"))
  {
    var g := AiAccessGate(robots);
    if g != Allowed {
      NotContainsWithoutFirstChar(g, "Allowed");
    }
  }

  /** The sitemap bucket passes exactly when no sitemap probe failed and at
      least one answered 200. */
  lemma SitemapBucketOnGate(probes: seq<Fetch>)
    requires |probes| == 4
    ensures Contains(SitemapGate(probes), "Found")
        <==> (forall i :: 0 <= i < 4 ==> probes[i].Response?) && exists i :: 0 <= i < 4 && IsOk(probes[i])
  {
    var g := SitemapGate(probes);
    SitemapErrorIff(probes);
    SitemapMissingIff(probes);
    if g == SitemapError || g == "Missing" {
      NotContainsWithoutFirstChar(g, "Found");
    } else {
      SitemapFirstMatchIsTagOrMissing(probes);
      assert "Found" <= g;
    }
  }

  /** The ai.txt half of the last bucket passes exactly when ai.txt answered 200. */
  lemma AiTxtBucketOnGate(aiTxt: Fetch)
    ensures Contains(AiTxtGate(aiTxt), "Found") <==> IsOk(aiTxt)
  {
    var g := AiTxtGate(aiTxt);
    if IsOk(aiTxt) {
      assert "Found" <= g;
    } else {
      NotContainsWithoutFirstChar(g, "Found");
    }
  }

  /** The robots.txt bucket of a record whose robots.txt status came from
      the classifier. */
  lemma RobotsBucket(a: AuditRecord, robots: Fetch)
    requires HasGates(a) && a.gates[RobotsKey] == RobotsGate(robots)
    ensures Buckets(a)[0] <==> IsOk(robots)
  {
    RobotsVerdicts(robots);
  }

  /** The agent-access bucket of a record whose verdict came from the classifier. */
  lemma AccessBucket(a: AuditRecord, robots: Fetch)
    requires HasGates(a) && a.gates[AiAccessKey] == AiAccessGate(robots)
    ensures Buckets(a)[1]
        <==> IsOk(robots) && !(Contains(robots.text, "GPTBot") && Contains(robots.text, "Disallow"))
  {
    AccessBucketOnGate(robots);
  }

  /** The sitemap bucket of a record whose sitemap status came from the classifier. */
  lemma SitemapBucket(a: AuditRecord, probes: seq<Fetch>)
    requires |probes| == 4 && HasGates(a) && a.gates[SitemapKey] == SitemapGate(probes)
    ensures Buckets(a)[2]
        <==> (forall i :: 0 <= i < 4 ==> probes[i].Response?) && exists i :: 0 <= i < 4 && IsOk(probes[i])
  {
    SitemapBucketOnGate(probes);
  }

  /** A record that passes no bucket scores nothing. */
  lemma NothingPasses(a: AuditRecord)
    requires HasGates(a) && a.gates[RobotsKey] != "Found"
    requires !Contains(a.gates[AiAccessKey], "Allowed") && !Contains(a.gates[SitemapKey], "Found")
    requires a.schemaCount == 0 && !Contains(a.gates[AiTxtKey], "Found") && !Contains(a.manifest, "Found")
    ensures Passed(a) == 0
  {
    CountFiredNone(Buckets(a), BucketCount);
  }

  /** Colours of the score figure, from the lowest band to the highest. */
  const Palette := ["#d90429", "#ef233c", "#ff8c00", "#ffb703", "#008000"]

  /** The band of a score: how many of the thresholds 20, 40, 60 and 80 it
      exceeds. */
  function Band(score: int): (b: nat)
    ensures b < |Palette|
  {
    (if score > 20 then 1 else 0) + (if score > 40 then 1 else 0)
      + (if score > 60 then 1 else 0) + (if score > 80 then 1 else 0)
  }

  /** `get_score_color`: the palette entry of the score's band. */
  function ScoreColor(score: int): (r: string)
    ensures r == Palette[Band(score)]
  {
    if score <= 20 then "#d90429"
    else if score <= 40 then "#ef233c"
    else if score <= 60 then "#ff8c00"
    else if score <= 80 then "#ffb703"
    else "#008000"
  }

  /** A higher score never falls in a lower band. */
  lemma BandMonotone(s: int, t: int)
    requires s <= t
    ensures Band(s) <= Band(t)
  {
  }

  /** On computed scores the colour steps once per passing bucket, except
      that no bucket and one bucket share the deepest red. */
  lemma ColorByPassedBuckets(a: AuditRecord)
    requires HasGates(a)
    ensures ScoreColor(BucketPoints * Passed(a)) == Palette[if Passed(a) == 0 then 0 else Passed(a) - 1]
  {
  }

  /** The banner shown beside the score. */
  datatype Banner = HighRisk | PartialReadiness | FullyDiscoverable

  /** The banner for a score: below 50, below 80, or from 80 up. */
  function ScoreBanner(score: int): (b: Banner)
    ensures score <= 0 ==> b == HighRisk
    ensures score >= 100 ==> b == FullyDiscoverable
  {
    if score < 50 then HighRisk
    else if score < 80 then PartialReadiness
    else FullyDiscoverable
  }

  /** The text of each banner. */
  function BannerText(b: Banner): (r: string)
    ensures b == HighRisk ==> FailIcon <= r
    ensures b == PartialReadiness ==> WarnIcon <= r
    ensures b == FullyDiscoverable ==> PassIcon <= r
  {
    match b
    case HighRisk => FailIcon + " High Risk: Your digital presence is invisible to AI Agents/LLMs."
    case PartialReadiness => WarnIcon + " Partial Readiness: Agents can 'see' you, but cannot effectively 'act'."
    case FullyDiscoverable => PassIcon + " Congratulations: Fully Discoverable and Retrievable by AI Agents/LLMs"
  }

  /** On computed scores: at most two passing buckets is high risk, exactly
      three is partial readiness, four or five is fully discoverable. */
  lemma BannerByPassedBuckets(a: AuditRecord)
    requires HasGates(a)
    ensures ScoreBanner(BucketPoints * Passed(a))
         == if Passed(a) <= 2 then HighRisk
            else if Passed(a) == 3 then PartialReadiness
            else FullyDiscoverable
  {
  }

  const PassIcon := "\U{2705}"
  const FailIcon := "\U{274C}"
  const WarnIcon := "\U{26A0}\U{FE0F}"

  /** One gate card: icon, state word and description. */
  datatype Card = Card(icon: string, state: string, desc: string)

  /** `get_status_visual`: PASS for a status mentioning "Found" or "Allowed",
      FAIL for one mentioning "Missing" but neither of those, WARN for
      anything else; each state has its own icon. */
  function StatusVisual(status: string): (c: Card)
    ensures c.state in {"PASS", "FAIL", "WARN"}
    ensures c.state == "PASS" <==> Contains(status, "Found") || Contains(status, "Allowed")
    ensures c.state == "FAIL"
        <==> !(Contains(status, "Found") || Contains(status, "Allowed")) && Contains(status, "Missing")
    ensures c.state == "FAIL" ==> c.desc == "Missing"
    ensures c.state != "FAIL" ==> c.desc == status
    ensures c.icon == if c.state == "PASS" then PassIcon else if c.state == "FAIL" then FailIcon else WarnIcon
  {
    if Contains(status, "Found") || Contains(status, "Allowed") then Card(PassIcon, "PASS", status)
    else if Contains(status, "Missing") then Card(FailIcon, "FAIL", "Missing")
    else Card(WarnIcon, "WARN", status)
  }

  /** The robots.txt card: PASS on 200, FAIL on another status, WARN when
      the request failed; it passes exactly when the robots.txt bucket does. */
  lemma RobotsCard(robots: Fetch)
    ensures StatusVisual(RobotsGate(robots)).state
         == if IsOk(robots) then "PASS" else if robots.Response? then "FAIL" else "WARN"
  {
    var g := RobotsGate(robots);
    if !IsOk(robots) {
      NotContainsWithoutFirstChar(g, "Found");
      NotContainsWithoutFirstChar(g, "Allowed");
    }
    if robots.Failed? {
      NotContainsWithoutFirstChar(g, "Missing");
    }
  }

  /** A status that mentions none of "Found", "Allowed" and "Missing" shows
      WARN, with the warning icon and the status itself as description. */
  lemma WarnCard(status: string)
    requires !Contains(status, "Found") && !Contains(status, "Allowed") && !Contains(status, "Missing")
    ensures StatusVisual(status) == Card(WarnIcon, "WARN", status)
  {
  }

  /** A status without the letters 'F', 'A' and 'M' mentions none of
      "Found", "Allowed" and "Missing". */
  lemma NoStatusWords(status: string)
    requires 'F' !in status && 'A' !in status && 'M' !in status
    ensures !Contains(status, "Found") && !Contains(status, "Allowed") && !Contains(status, "Missing")
  {
    NotContainsWithoutFirstChar(status, "Found");
    NotContainsWithoutFirstChar(status, "Allowed");
    NotContainsWithoutFirstChar(status, "Missing");
  }

  /** Of the agent-access verdicts only "Allowed" passes; the others warn. */
  lemma AccessVerdictCard(v: string)
    requires v == Allowed || v == Blocked || v == Uncontrolled || v == "Unknown"
    ensures StatusVisual(v).state == if v == Allowed then "PASS" else "WARN"
  {
    if v == Blocked {
      BlockedWarns();
    } else if v == Uncontrolled {
      NoStatusWords(Uncontrolled);
      WarnCard(Uncontrolled);
    } else if v == "Unknown" {
      NoStatusWords("Unknown");
      WarnCard("Unknown");
    }
  }

  lemma BlockedWarns()
    ensures StatusVisual(Blocked).state == "WARN"
  {
    NoStatusWords(Blocked);
    WarnCard(Blocked);
  }

  /** The agent-access card never shows FAIL: it passes exactly when the
      agent-access bucket does, and a blocking robots.txt shows only WARN. */
  lemma AccessCard(robots: Fetch)
    ensures StatusVisual(AiAccessGate(robots)).state
         == if AiAccessGate(robots) == Allowed then "PASS" else "WARN"
  {
    AccessVerdictCard(AiAccessGate(robots));
  }

  /** Of the sitemap statuses the found variants pass, "Missing" fails and
      "Error checking" warns. */
  lemma SitemapStatusCard(v: string)
    requires v in SitemapTags || v == "Missing" || v == SitemapError
    ensures StatusVisual(v).state
         == if v == SitemapError then "WARN" else if v == "Missing" then "FAIL" else "PASS"
  {
    if v == SitemapError {
      NoStatusWords(v);
      WarnCard(v);
    } else if v == "Missing" {
      NotContainsWithoutFirstChar(v, "Found");
      NotContainsWithoutFirstChar(v, "Allowed");
    } else {
      assert "Found" <= v;
    }
  }

  /** The sitemap card: PASS for any found variant, FAIL when all four
      probes answered without 200, WARN when any probe failed. */
  lemma SitemapCard(probes: seq<Fetch>)
    requires |probes| == 4
    ensures StatusVisual(SitemapGate(probes)).state
         == if SitemapGate(probes) == SitemapError then "WARN"
            else if SitemapGate(probes) == "Missing" then "FAIL"
            else "PASS"
  {
    SitemapFirstMatchIsTagOrMissing(probes);
    SitemapStatusCard(SitemapGate(probes));
  }

  /** The ai.txt card: PASS on 200, FAIL on another status, WARN when the
      request failed. */
  lemma AiTxtCard(aiTxt: Fetch)
    ensures StatusVisual(AiTxtGate(aiTxt)).state
         == if IsOk(aiTxt) then "PASS" else if aiTxt.Response? then "FAIL" else "WARN"
  {
    var g := AiTxtGate(aiTxt);
    if IsOk(aiTxt) {
      assert "Found" <= g;
    } else {
      NotContainsWithoutFirstChar(g, "Found");
      NotContainsWithoutFirstChar(g, "Allowed");
      if aiTxt.Failed? {
        NotContainsWithoutFirstChar(g, "Missing");
      }
    }
  }
}
