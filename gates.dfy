/** The gate classifier (`check_security_gates`): turns the outcomes of the
    robots.txt, sitemap and ai.txt probes into a four-key status dictionary. */
module Gates {
  import opened Text
  import opened RuleTable
  import opened Inputs

  const RobotsKey := "robots.txt"
  const AiAccessKey := "ai_access"
  const SitemapKey := "sitemap.xml"
  const AiTxtKey := "ai.txt"
  const GateKeys: set<string> := {RobotsKey, AiAccessKey, SitemapKey, AiTxtKey}

  const Blocked := "BLOCKED (Critical Issue)"
  const Allowed := "Allowed"
  const Uncontrolled := "Uncontrolled (Risky)"
  const SitemapError := "Error checking"
  const AiTxtFound := "Found (Future Proof!)"

  /** Sitemap tags in probe order: sitemap.xml, sitemaps.xml,
      sitemap_index.xml, wp-sitemap.xml. */
  const SitemapTags := ["Found (Standard)", "Found (sitemaps.xml)", "Found (sitemap_index.xml)", "Found (wp-sitemap.xml)"]

  /** The robots.txt status: one of three words. */
  function RobotsGate(robots: Fetch): (r: string)
    ensures r == "Found" || r == "Missing" || r == "Error"
  {
    match robots
    case Failed => "Error"
    case Response(status, _) => if status == 200 then "Found" else "Missing"
  }

  /** The agent-access verdict: a plain co-occurrence test of "GPTBot" and
      "Disallow" anywhere in a 200 robots.txt body. */
  function AiAccessGate(robots: Fetch): (r: string)
    ensures r == Blocked || r == Allowed || r == Uncontrolled || r == "Unknown"
    ensures r == Blocked || r == Allowed <==> IsOk(robots)
  {
    match robots
    case Failed => "Unknown"
    case Response(status, text) =>
      if status != 200 then Uncontrolled
      else if Contains(text, "GPTBot") && Contains(text, "Disallow") then Blocked
      else Allowed
  }

  /** For each sitemap probe, whether it returned 200. */
  function OkFlags(probes: seq<Fetch>): (oks: seq<bool>)
    ensures |oks| == |probes|
    ensures forall i :: 0 <= i < |probes| ==> oks[i] == IsOk(probes[i])
  {
    seq(|probes|, i requires 0 <= i < |probes| => IsOk(probes[i]))
  }

  /** Any failed probe spoils the whole sitemap check; otherwise the first
      variant that returned 200 names the result. */
  function SitemapGate(probes: seq<Fetch>): (r: string)
    requires |probes| == 4
    ensures r == SitemapError || r == "Missing" || r in SitemapTags
  {
    SitemapFirstMatchIsTagOrMissing(probes);
    if exists i :: 0 <= i < 4 && probes[i].Failed? then SitemapError
    else FirstMatch(SitemapTags, OkFlags(probes), "Missing")
  }

  /** The ai.txt status: one of three values. */
  function AiTxtGate(aiTxt: Fetch): (r: string)
    ensures r == AiTxtFound || r == "Missing" || r == "Error"
  {
    match aiTxt
    case Failed => "Error"
    case Response(status, _) => if status == 200 then AiTxtFound else "Missing"
  }

  /** The gates dictionary as a value. */
  function GateStatuses(robots: Fetch, sitemaps: seq<Fetch>, aiTxt: Fetch): (gates: map<string, string>)
    requires |sitemaps| == 4
    ensures gates.Keys == GateKeys
  {
    map[RobotsKey := RobotsGate(robots), AiAccessKey := AiAccessGate(robots),
        SitemapKey := SitemapGate(sitemaps), AiTxtKey := AiTxtGate(aiTxt)]
  }

  /** `check_security_gates`: fills the dictionary in three independent
      steps. Each key depends only on its own probes, so a failure in one
      step leaves the other keys as they would otherwise be. */
  method CheckSecurityGates(robots: Fetch, s1: Fetch, s2: Fetch, s3: Fetch, s4: Fetch, aiTxt: Fetch)
    returns (gates: map<string, string>)
    ensures gates.Keys == GateKeys
    ensures gates[RobotsKey] == RobotsGate(robots)
    ensures gates[AiAccessKey] == AiAccessGate(robots)
    ensures gates[SitemapKey] == SitemapGate([s1, s2, s3, s4])
    ensures gates[AiTxtKey] == AiTxtGate(aiTxt)
  {
    gates := map[];

    // 1. robots.txt
    match robots {
      case Failed =>
        gates := gates[RobotsKey := "Error"][AiAccessKey := "Unknown"];
      case Response(status, text) =>
        if status == 200 {
          gates := gates[RobotsKey := "Found"];
          if Contains(text, "GPTBot") && Contains(text, "Disallow") {
            gates := gates[AiAccessKey := Blocked];
          } else {
            gates := gates[AiAccessKey := Allowed];
          }
        } else {
          gates := gates[RobotsKey := "Missing"][AiAccessKey := Uncontrolled];
        }
    }

    assert gates.Keys == {RobotsKey, AiAccessKey};
    assert gates[RobotsKey] == RobotsGate(robots) && gates[AiAccessKey] == AiAccessGate(robots);

    // 2. sitemap: the four requests share one error handler
    if s1.Failed? || s2.Failed? || s3.Failed? || s4.Failed? {
      gates := gates[SitemapKey := SitemapError];
    } else if s1.status == 200 {
      gates := gates[SitemapKey := "Found (Standard)"];
    } else if s2.status == 200 {
      gates := gates[SitemapKey := "Found (sitemaps.xml)"];
    } else if s3.status == 200 {
      gates := gates[SitemapKey := "Found (sitemap_index.xml)"];
    } else if s4.status == 200 {
      gates := gates[SitemapKey := "Found (wp-sitemap.xml)"];
    } else {
      gates := gates[SitemapKey := "Missing"];
    }
    SitemapGateCases(s1, s2, s3, s4);
    assert gates.Keys == {RobotsKey, AiAccessKey, SitemapKey};

    // 3. ai.txt
    match aiTxt {
      case Failed =>
        gates := gates[AiTxtKey := "Error"];
      case Response(status, _) =>
        gates := gates[AiTxtKey := if status == 200 then AiTxtFound else "Missing"];
    }
  }

  /** The sitemap gate for four given probes, case by case in probe order. */
  lemma SitemapGateCases(s1: Fetch, s2: Fetch, s3: Fetch, s4: Fetch)
    ensures SitemapGate([s1, s2, s3, s4])
         == if s1.Failed? || s2.Failed? || s3.Failed? || s4.Failed? then SitemapError
            else if s1.status == 200 then SitemapTags[0]
            else if s2.status == 200 then SitemapTags[1]
            else if s3.status == 200 then SitemapTags[2]
            else if s4.status == 200 then SitemapTags[3]
            else "Missing"
  {
    var probes := [s1, s2, s3, s4];
    var oks := OkFlags(probes);
    if s1.Failed? || s2.Failed? || s3.Failed? || s4.Failed? {
      assert probes[0].Failed? || probes[1].Failed? || probes[2].Failed? || probes[3].Failed?;
    } else {
      assert forall i :: 0 <= i < 4 ==> probes[i] in {s1, s2, s3, s4};
      if s1.status == 200 {
        FirstMatchPrecedence(SitemapTags, oks, "Missing", 0);
      } else if s2.status == 200 {
        FirstMatchPrecedence(SitemapTags, oks, "Missing", 1);
      } else if s3.status == 200 {
        FirstMatchPrecedence(SitemapTags, oks, "Missing", 2);
      } else if s4.status == 200 {
        FirstMatchPrecedence(SitemapTags, oks, "Missing", 3);
      } else {
        FirstMatchNone(SitemapTags, oks, "Missing");
      }
    }
  }

  /** The three steps are independent: each key's value depends only on
      its own probes, so a failure in one step never changes another key. */
  lemma GatesIndependent(robots: Fetch, sitemaps: seq<Fetch>, aiTxt: Fetch,
                         robots': Fetch, sitemaps': seq<Fetch>, aiTxt': Fetch)
    requires |sitemaps| == 4 && |sitemaps'| == 4
    ensures var g, g' := GateStatuses(robots, sitemaps, aiTxt), GateStatuses(robots', sitemaps', aiTxt');
      g.Keys == g'.Keys == GateKeys
      && (robots == robots' ==> g[RobotsKey] == g'[RobotsKey] && g[AiAccessKey] == g'[AiAccessKey])
      && (sitemaps == sitemaps' ==> g[SitemapKey] == g'[SitemapKey])
      && (aiTxt == aiTxt' ==> g[AiTxtKey] == g'[AiTxtKey])
  {
  }

  /** The robots.txt step: "Found", "Missing" or "Error" by outcome, and the
      four agent-access verdicts with exactly when each is given. */
  lemma RobotsVerdicts(robots: Fetch)
    ensures RobotsGate(robots) == "Found" <==> IsOk(robots)
    ensures RobotsGate(robots) == "Missing" <==> robots.Response? && robots.status != 200
    ensures RobotsGate(robots) == "Error" <==> robots.Failed?
    ensures AiAccessGate(robots) == Blocked
        <==> IsOk(robots) && Contains(robots.text, "GPTBot") && Contains(robots.text, "Disallow")
    ensures AiAccessGate(robots) == Allowed
        <==> IsOk(robots) && !(Contains(robots.text, "GPTBot") && Contains(robots.text, "Disallow"))
    ensures AiAccessGate(robots) == Uncontrolled <==> robots.Response? && robots.status != 200
    ensures AiAccessGate(robots) == "Unknown" <==> robots.Failed?
  {
  }

  /** The ai.txt step: found on 200, "Missing" on any other status, "Error"
      when the request failed. */
  lemma AiTxtVerdicts(aiTxt: Fetch)
    ensures AiTxtGate(aiTxt) == AiTxtFound <==> IsOk(aiTxt)
    ensures AiTxtGate(aiTxt) == "Missing" <==> aiTxt.Response? && aiTxt.status != 200
    ensures AiTxtGate(aiTxt) == "Error" <==> aiTxt.Failed?
  {
  }

  /** Worked robots.txt outcome: a GPTBot block. */
  lemma BlockingRobotsExample()
    ensures AiAccessGate(Response(200, "User-agent: GPTBot\nDisallow: /")) == Blocked
  {
    ContainsInside("User-agent: ", "GPTBot", "\nDisallow: /");
    assert "User-agent: " + "GPTBot" + "\nDisallow: /" == "User-agent: GPTBot\nDisallow: /";
    ContainsInside("User-agent: GPTBot\n", "Disallow", ": /");
    assert "User-agent: GPTBot\n" + "Disallow" + ": /" == "User-agent: GPTBot\nDisallow: /";
  }

  /** Worked robots.txt outcome: an allow-all file. */
  lemma AllowAllRobotsExample()
    ensures AiAccessGate(Response(200, "User-agent: *\nAllow: /")) == Allowed
  {
    NotContainsWithoutFirstChar("User-agent: *\nAllow: /", "GPTBot");
  }

  /** Worked robots.txt outcomes: a 404 and a failed fetch. */
  lemma AbsentRobotsExamples()
    ensures RobotsGate(Response(404, "")) == "Missing" && AiAccessGate(Response(404, "")) == Uncontrolled
    ensures RobotsGate(Failed) == "Error" && AiAccessGate(Failed) == "Unknown"
  {
  }

  /** The verdict is not scoped to the GPTBot group: any 200 body that
      mentions "Disallow" somewhere and "GPTBot" somewhere later is reported
      as blocking, for example a file that disallows another crawler and
      then allows GPTBot in its own group. */
  lemma AiAccessIgnoresGroups(pre: string, mid: string, post: string)
    ensures AiAccessGate(Response(200, pre + "Disallow" + mid + "GPTBot" + post)) == Blocked
  {
    var text := pre + "Disallow" + mid + "GPTBot" + post;
    ContainsInside(pre, "Disallow", mid + "GPTBot" + post);
    assert pre + "Disallow" + (mid + "GPTBot" + post) == text;
    ContainsInside(pre + "Disallow" + mid, "GPTBot", post);
  }

  /** "Error checking" exactly when any of the four sitemap probes failed,
      whatever the others returned. */
  lemma SitemapErrorIff(probes: seq<Fetch>)
    requires |probes| == 4
    ensures SitemapGate(probes) == SitemapError <==> exists i :: 0 <= i < 4 && probes[i].Failed?
  {
    if !exists i :: 0 <= i < 4 && probes[i].Failed? {
      SitemapFirstMatchIsTagOrMissing(probes);
    }
  }

  lemma SitemapFirstMatchIsTagOrMissing(probes: seq<Fetch>)
    requires |probes| == 4
    ensures FirstMatch(SitemapTags, OkFlags(probes), "Missing") in SitemapTags + ["Missing"]
  {
    var oks := OkFlags(probes);
    if i :| 0 <= i < 4 && oks[i] {
      var first := FirstTrue(oks, i);
      FirstMatchPrecedence(SitemapTags, oks, "Missing", first);
    } else {
      FirstMatchNone(SitemapTags, oks, "Missing");
    }
  }

  /** The smallest index at or below `i` whose flag is set. */
  function FirstTrue(flags: seq<bool>, i: nat): (first: nat)
    requires i < |flags| && flags[i]
    ensures first <= i && flags[first]
    ensures forall j :: 0 <= j < first ==> !flags[j]
  {
    if exists j :: 0 <= j < i && flags[j] then
      var j :| 0 <= j < i && flags[j];
      FirstTrue(flags, j)
    else i
  }

  /** First 200 wins: variant `k` names the result exactly when no probe
      failed, probe `k` returned 200 and no earlier probe did. */
  lemma SitemapFoundIff(probes: seq<Fetch>, k: nat)
    requires |probes| == 4 && k < 4
    ensures SitemapGate(probes) == SitemapTags[k]
        <==> (forall i :: 0 <= i < 4 ==> probes[i].Response?)
             && IsOk(probes[k]) && forall j :: 0 <= j < k ==> !IsOk(probes[j])
  {
    var oks := OkFlags(probes);
    if exists i :: 0 <= i < 4 && probes[i].Failed? {
    } else if i :| 0 <= i < 4 && oks[i] {
      var first := FirstTrue(oks, i);
      FirstMatchPrecedence(SitemapTags, oks, "Missing", first);
      assert SitemapGate(probes) == SitemapTags[first];
    } else {
      FirstMatchNone(SitemapTags, oks, "Missing");
    }
  }

  /** "Missing" exactly when all four probes answered and none with 200. */
  lemma SitemapMissingIff(probes: seq<Fetch>)
    requires |probes| == 4
    ensures SitemapGate(probes) == "Missing"
        <==> forall i :: 0 <= i < 4 ==> probes[i].Response? && probes[i].status != 200
  {
    var oks := OkFlags(probes);
    if exists i :: 0 <= i < 4 && probes[i].Failed? {
    } else if i :| 0 <= i < 4 && oks[i] {
      var first := FirstTrue(oks, i);
      FirstMatchPrecedence(SitemapTags, oks, "Missing", first);
    } else {
      FirstMatchNone(SitemapTags, oks, "Missing");
    }
  }
}
