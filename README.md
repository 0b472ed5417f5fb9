# Agent-readiness audit rules in Dafny

This project models the rule engine of the AI agent-readiness auditor. The
auditor fetches a homepage and a handful of well-known files (robots.txt,
four sitemap variants, ai.txt, the AI plugin manifest and the web app
manifest) and turns what it finds into a structured verdict:

- a technology-stack fingerprint;
- a dictionary of gate statuses;
- a JSON-LD schema count and sample;
- a manifest status;
- hard-coded remediation advice;
- on the dashboard, a readiness score out of 100, its colour, a banner chosen by score band, and a pass/fail/warn card per gate.

Network responses and parsed markup are inputs (`Inputs.Fetch`,
`Inputs.PageFacts`, `Inputs.Probes`), and everything downstream is modelled.

Modules:

- `Text` models Python's `in` on strings (`Contains`), `", ".join` and slicing.
- `RuleTable` models the two rule-table shapes the code uses:
  - "every rule that fires appends its effect, in order" (`Pick`), used for the stack fingerprints and the advice;
  - "first match wins" (`FirstMatch`), used for the sitemap variants and the manifest.
- `TechStack` models `detect_tech_stack`.
- `Gates` models `check_security_gates`.
- `Identity` models the manifest check and the schema extraction.
- `Record` models the audit record.
- `Recommendations` models `generate_recommendations`.
- `Scoring` models `calculate_score`, `get_score_color`, the score banner and `get_status_visual`.
- `Auditor` models `perform_audit` from the fingerprint up to the advice, and states end-to-end properties.

The three functions in the source that append to a list or fill a dictionary step by step are modelled as methods:

- `DetectTechStack`;
- `CheckSecurityGates`;
- `GenerateRecommendations`.

`CalculateScore` adds to a counter step by step and is a method as well. Each of these methods is proved equal to a specification function, and the properties are proved about that function.

Behaviour of the code worth noting:

- The server-rendering advice tests whether the joined stack string contains "Next.js". It does not test for the label "Next.js (React)". An `X-Powered-By: Next.js` header alone also passes that substring test (see `TechStack.PoweredByNextJsNamesNextJs`); the advice then fires when the page has no JSON-LD.
- The whitelist advice tests for the upper-case substring "BLOCKED". The gate classifier writes that substring in "BLOCKED (Critical Issue)".
- An all-404 site with an empty page gets exactly two pieces of advice: the schema advice, then the ai.txt advice. See `Auditor.BareSiteAdvice`.
- A network error does not always become a gate status. The homepage fetch (app.py:130) and the two identity probes (app.py:158-159) have no local handler, so their failure aborts the audit. The two identity probes are modelled as status codes only.
- Within the sitemap step, one failed probe turns the gate into "Error checking", even when another probe answered 200.

## Model

| member | source | states |
|---|---|---|
| TechStack.GeneratorText | app.py:25 | a present generator tag is read as its text; a missing one reads as "None", which never mentions WordPress |
| TechStack.Signals | app.py:25-39 | the seven fingerprint conditions in check order, one per label |
| TechStack.StackString | app.py:21-42 | the sentinel when no label was collected; otherwise every collected label occurs in the string |
| TechStack.DetectTechStack | app.py:19-42 | the stack string built label by label equals the joined labels of the checks that fired, or "Custom/Unknown Stack" |
| TechStack.LabelsDistinct | app.py:24-40 | no label is emitted twice, and every emitted label is an entry of the label table |
| TechStack.LabelEmittedIffCheckFires | app.py:25-40 | each check's label is in the list exactly when that check fires |
| TechStack.LabelsInCheckOrder | app.py:25-40 | labels of firing checks appear in check order, at the position given by the number of earlier firing checks |
| TechStack.NoLabelsNotNextJs | app.py:42 | a page on which no check fired has a stack string without "Next.js" |
| TechStack.UnknownIffNoCheckFired | app.py:42 | the sentinel is returned exactly when none of the seven checks fired |
| TechStack.WordPressThenShopify | app.py:25-28 | markup with "wp-content" and "cdn.shopify.com" starts the stack with WordPress then Shopify |
| TechStack.NextJsCheckNamesNextJs | app.py:31-32 | a `__NEXT_DATA__` page puts "Next.js" into the stack string |
| TechStack.PoweredByNextJsNamesNextJs | app.py:39-40 | an X-Powered-By header of "Next.js" alone yields "Server: Next.js", which contains "Next.js" |
| Gates.GateStatuses | app.py:47-98 | the gates dictionary has exactly the four keys |
| Gates.RobotsGate | app.py:50-63 | the robots.txt status is one of Found, Missing and Error |
| Gates.AiAccessGate | app.py:50-63 | the agent-access verdict is one of the four verdicts, and BLOCKED or Allowed exactly when robots.txt answered 200 |
| Gates.SitemapGate | app.py:66-90 | the sitemap status is "Error checking", "Missing" or one of the four variant tags |
| Gates.AiTxtGate | app.py:93-98 | the ai.txt status is one of the found tag, Missing and Error |
| Gates.CheckSecurityGates | app.py:44-100 | the dictionary has exactly the four keys, each equal to its own step's verdict on its own probes |
| Gates.SitemapGateCases | app.py:66-90 | the sitemap verdict is the if/elif chain over the four probes, after the shared error handler |
| Gates.GatesIndependent | app.py:44-100 | each key depends only on its own probes; a failure in one step leaves the other keys unchanged |
| Gates.RobotsVerdicts | app.py:49-63 | robots.txt is Found, Missing or Error by outcome; agent access is BLOCKED, Allowed, Uncontrolled or Unknown, each exactly when its condition holds |
| Gates.AiTxtVerdicts | app.py:93-98 | ai.txt is found exactly on 200, Missing on another status, Error on a failed request |
| Gates.BlockingRobotsExample | app.py:54-55 | "User-agent: GPTBot\nDisallow: /" is classified as blocking |
| Gates.AllowAllRobotsExample | app.py:54-57 | "User-agent: *\nAllow: /" is classified as allowed |
| Gates.AbsentRobotsExamples | app.py:58-63 | a 404 gives Missing and Uncontrolled; a failed fetch gives Error and Unknown |
| Gates.AiAccessIgnoresGroups | app.py:54-55 | any 200 body with "Disallow" followed somewhere by "GPTBot" is blocking, whatever the user-agent groups say |
| Gates.SitemapErrorIff | app.py:66-90 | "Error checking" exactly when some sitemap probe failed |
| Gates.SitemapFoundIff | app.py:79-86 | variant k is reported exactly when no probe failed, probe k returned 200 and no earlier probe did |
| Gates.SitemapMissingIff | app.py:79-88 | "Missing" exactly when all four probes answered and none returned 200 |
| Gates.SitemapFirstMatchIsTagOrMissing | app.py:79-88 | without a failure the verdict is one of the four variant tags or "Missing" |
| Identity.ManifestStatus | app.py:162-169 | the if/elif chain is the first-match rule table over plugin 200, web manifest 200 and a markup link |
| Identity.ManifestFoundIff | app.py:162-169 | the status mentions "Found" exactly when one of the three signals is present; "Missing" otherwise |
| Identity.ManifestPrecedence | app.py:162-169 | a 200 AI plugin file wins; the markup link decides only when neither probe returned 200 |
| Identity.SchemaCount | app.py:176 | the count is zero exactly when the page has no JSON-LD block |
| Identity.SchemaSample | app.py:152 | "None" without blocks; otherwise a prefix of the first block of at most 500 characters, the whole block when it fits, exactly 500 otherwise |
| Recommendations.Triggers | app.py:106-115 | the four rule conditions in rule order; the server-rendering rule fires only where the schema rule fires |
| Recommendations.GenerateRecommendations | app.py:102-118 | the advice appended rule by rule equals the messages of the firing rules in rule order |
| Recommendations.MessagesDistinct | app.py:107-116 | the four messages are pairwise different |
| Recommendations.RecommendationsBounded | app.py:102-118 | at most four messages, none repeated, each one of the four fixed messages |
| Recommendations.MessageGivenIffRuleFires | app.py:106-116 | each message is given exactly when its rule fires |
| Recommendations.MessagesInRuleOrder | app.py:104-118 | messages keep rule order, not severity order |
| Recommendations.ServerRenderFollowsSchema | app.py:109-116 | the server-rendering advice is always preceded by the schema advice |
| Recommendations.AllRulesFire | app.py:104-118 | when all four rules fire the whole message list is given in rule order |
| Recommendations.AllFourAdvised | app.py:104-118 | a blocking verdict, no schema, missing ai.txt and a "Next.js (React)" label yield all four messages in order |
| Recommendations.SchemaAndAiTxtAdviceOnly | app.py:106-116 | without blocking or Next.js, no schema and missing ai.txt yield exactly the schema then the ai.txt advice |
| Recommendations.WhitelistRuleOnGate | app.py:106 | on classifier verdicts, "BLOCKED" occurs exactly when robots.txt answered 200 with both "GPTBot" and "Disallow" |
| Recommendations.WhitelistAdvice | app.py:106-107 | on a record with a classifier verdict, the whitelist advice is given exactly in that case |
| Recommendations.AiTxtRuleOnGate | app.py:112 | on classifier verdicts, the ai.txt advice fires exactly on a non-200 answer, not on a failed request |
| Scoring.Buckets | visuals.py:9-25 | the five bucket tests in scoring order |
| Scoring.Passed | visuals.py:4-28 | at most five buckets pass |
| Scoring.CalculateScore | visuals.py:4-28 | the score is 20 per passing bucket, between 0 and 100 and a multiple of 20 |
| Scoring.BucketWorthTwenty | visuals.py:8-26 | passing one more bucket, the rest equal, adds exactly 20 |
| Scoring.ScoreMonotone | visuals.py:4-28 | passing at least another record's buckets scores at least as much |
| Scoring.ManifestBonusOnlyWithoutAiTxt | visuals.py:24-26 | a found manifest adds a bucket exactly when ai.txt was not found |
| Scoring.AccessBucketOnGate | visuals.py:13-14 | on classifier verdicts, access passes exactly on a 200 robots.txt without both "GPTBot" and "Disallow" |
| Scoring.SitemapBucketOnGate | visuals.py:17-18 | on classifier verdicts, the sitemap passes exactly when no probe failed and one returned 200 |
| Scoring.AiTxtBucketOnGate | visuals.py:25 | on classifier verdicts, ai.txt contributes exactly on 200 |
| Scoring.RobotsBucket | visuals.py:9-10 | robots bucket of a classified record passes exactly on a 200 robots.txt |
| Scoring.AccessBucket | visuals.py:13-14 | access bucket of a classified record, as above |
| Scoring.SitemapBucket | visuals.py:17-18 | sitemap bucket of a classified record, as above |
| Scoring.NothingPasses | visuals.py:4-28 | a record failing every bucket test scores nothing |
| Scoring.Band | visuals.py:30-41 | the band is one of the five palette indices |
| Scoring.ScoreColor | visuals.py:30-41 | the colour is the palette entry of the score's band |
| Scoring.BandMonotone | visuals.py:30-41 | a higher score never has a lower band |
| Scoring.ColorByPassedBuckets | visuals.py:30-41 | on computed scores the colour steps per bucket, except that 0 and 20 share deep red |
| Scoring.ScoreBanner | visuals.py:94-99 | score 0 is high risk and 100 fully discoverable |
| Scoring.BannerByPassedBuckets | visuals.py:94-99 | on computed scores: up to two buckets high risk, three partial, four or five fully discoverable |
| Scoring.BannerText | visuals.py:94-99 | the three banner texts, each led by the icon of its band: fail, warning, pass |
| Scoring.StatusVisual | visuals.py:107-113 | PASS exactly when the status mentions Found or Allowed; FAIL exactly when it mentions Missing but neither of those, with "Missing" as description; WARN otherwise; PASS and WARN show the status itself; each state has its own icon |
| Scoring.RobotsCard | visuals.py:107-120 | robots.txt card: PASS on 200, FAIL on another status, WARN on a failed request |
| Scoring.WarnCard | visuals.py:107-113 | a status mentioning none of "Found", "Allowed" and "Missing" shows WARN with the warning icon and the status as description |
| Scoring.AccessVerdictCard | visuals.py:107-124 | of the four access verdicts only Allowed passes; the others warn |
| Scoring.BlockedWarns | visuals.py:107-124 | a blocking verdict shows WARN, not FAIL |
| Scoring.AccessCard | visuals.py:107-124 | the access card never shows FAIL |
| Scoring.SitemapStatusCard | visuals.py:107-132 | found variants pass, "Missing" fails, "Error checking" warns |
| Scoring.SitemapCard | visuals.py:107-132 | the sitemap card for any four probes, as above |
| Scoring.AiTxtCard | visuals.py:107-128 | ai.txt card: PASS on 200, FAIL on another status, WARN on a failed request |
| Auditor.SitemapProbes | app.py:68-77 | the four sitemap probes in probe order |
| Auditor.AuditOf | app.py:172-179 | the compiled record carries all four gate statuses |
| Auditor.PerformAudit | app.py:141-181 | the pipeline builds the record from its parts and derives the advice from it |
| Auditor.GatesOfAudit | app.py:172-179 | each record field is the verdict on its own inputs |
| Auditor.BucketsOfAudit | visuals.py:4-28 | the five buckets in terms of what the site served |
| Auditor.BucketsOfRecord | visuals.py:4-28 | the same for any record built from classifier verdicts |
| Auditor.IdentityBucket | visuals.py:25-26 | the last bucket passes exactly on ai.txt 200, plugin 200, web manifest 200 or a markup link |
| Auditor.WhitelistAdviceIff | app.py:106-107 | the whitelist advice is given exactly when robots.txt answered 200 with "GPTBot" and "Disallow" |
| Auditor.BareSiteRecord | app.py:141-179 | an all-404 site with an empty page yields the sentinel stack, Missing gates, uncontrolled access, no schema, no manifest |
| Auditor.NothingServedScoresNothing | visuals.py:4-28 | a site serving nothing with 200, with no JSON-LD and no manifest link, scores 0 |
| Auditor.NothingServedRecord | visuals.py:4-28 | the same on any record built from such inputs |
| Auditor.SchemaAndAiTxtAdviceForSite | app.py:102-118 | no block, non-200 ai.txt, no JSON-LD and no Next.js yields exactly the schema then the ai.txt advice |
| Auditor.BareSiteScore | visuals.py:4-28 | the all-404 site scores 0 |
| Auditor.BareSiteNotNextJs | app.py:115 | the all-404 site's stack does not mention Next.js |
| Auditor.BareSiteAdvice | app.py:102-118 | the all-404 site gets exactly two pieces of advice: schema, then ai.txt |

## Left out

- Network I/O: every request, its timeout and its exceptions become an input `Fetch` value (a response with status and body, or `Failed`).
- HTML parsing: the markup text, the generator tag, the JSON-LD blocks and the manifest link become inputs.
- The `url.rstrip('/')` domain and the path construction of each probe are left out. Probes are given per path.
- The homepage fetch and the two identity probes have no handler in the code, so their failure aborts the audit. That abort is not modelled. These two probes are status codes only.
- A JSON-LD script element whose `.string` is `None`, which makes slicing raise, is not modelled. Blocks are given as text.
- Response headers are looked up by exact key. The case-insensitive header dictionary of the HTTP library is not modelled.
- The site-context extraction (title, description, body text), the Gemini prompt and the narrative it returns are not modelled.
- Two failures inside the audit's error handler are not modelled. The narrative call can fail (app.py:219). Reading `content` from a description `<meta>` tag that has no such attribute raises (app.py:136). Either one makes `perform_audit` return no record, score or advice (app.py:224-226). `Auditor.PerformAudit` always returns a record and its advice.
- The Streamlit layout, the Plotly gauge, the schema and manifest metric tiles and the Excel export are not modelled. The banner texts and card icons are kept as constants only.
- Scoring.ScoreBanner: its own contract states only the two extremes; the band-by-band behaviour on computed scores is stated by Scoring.BannerByPassedBuckets.
