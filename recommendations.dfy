/** The hard-coded recommendation rules (`generate_recommendations`): four
    rules checked in a fixed order, each appending its message when it fires. */
module Recommendations {
  import opened Text
  import opened RuleTable
  import opened Inputs
  import opened Gates
  import opened Record

  const Whitelist := "CRITICAL: Update robots.txt to whitelist 'GPTBot', 'CCBot', and 'Google-Extended'."
  const AddSchema := "HIGH PRIORITY: Implement JSON-LD Schema. The Agent cannot see your products/prices."
  const AddAiTxt := "OPTIMIZATION: Create an 'ai.txt' file to explicitly grant permission to specific AI models."
  const ServerRender := "TECH FIX: Your Next.js site might be client-side rendering. Ensure Schema is injected via Server Side Rendering (SSR)."

  /** The messages in rule order. */
  const Messages := [Whitelist, AddSchema, AddAiTxt, ServerRender]

  /** Whether each rule fires, in rule order. The agent-access and ai.txt
      rules are substring tests on the gate statuses; the Next.js rule is a
      substring test on the whole stack string. */
  function Triggers(a: AuditRecord): (fires: seq<bool>)
    requires AiAccessKey in a.gates && AiTxtKey in a.gates
    ensures |fires| == |Messages|
    ensures fires[3] ==> fires[1]
  {
    [ Contains(a.gates[AiAccessKey], "BLOCKED"),
      a.schemaCount == 0,
      Contains(a.gates[AiTxtKey], "Missing"),
      Contains(a.stack, "Next.js") && a.schemaCount == 0 ]
  }

  /** The messages of the rules that fire, in rule order. */
  function Recommended(a: AuditRecord): seq<string>
    requires AiAccessKey in a.gates && AiTxtKey in a.gates
  {
    Pick(Messages, Triggers(a))
  }

  /** `generate_recommendations`: appends one message per firing rule. */
  method GenerateRecommendations(a: AuditRecord) returns (recs: seq<string>)
    requires AiAccessKey in a.gates && AiTxtKey in a.gates
    ensures recs == Recommended(a)
  {
    recs := [];
    ghost var fires := Triggers(a);
    if Contains(a.gates[AiAccessKey], "BLOCKED") {
      recs := recs + [Whitelist];
    }
    assert recs == Picked(Messages, fires, 1);
    if a.schemaCount == 0 {
      recs := recs + [AddSchema];
    }
    assert recs == Picked(Messages, fires, 2);
    if Contains(a.gates[AiTxtKey], "Missing") {
      recs := recs + [AddAiTxt];
    }
    assert recs == Picked(Messages, fires, 3);
    if Contains(a.stack, "Next.js") && a.schemaCount == 0 {
      recs := recs + [ServerRender];
    }
    assert recs == Picked(Messages, fires, 4);
  }

  lemma MessagesDistinct()
    ensures Distinct(Messages)
  {
    assert |Whitelist| == 82 && |AddSchema| == 83 && |AddAiTxt| == 91 && |ServerRender| == 118;
  }

  /** At most four messages, each at most once. */
  lemma RecommendationsBounded(a: AuditRecord)
    requires AiAccessKey in a.gates && AiTxtKey in a.gates
    ensures |Recommended(a)| <= |Messages|
    ensures Distinct(Recommended(a))
    ensures forall k :: 0 <= k < |Recommended(a)| ==> Recommended(a)[k] in Messages
  {
    PickedChosen(Messages, Triggers(a), |Messages|);
    MessagesDistinct();
    PickDistinct(Messages, Triggers(a));
    forall k | 0 <= k < |Recommended(a)| ensures Recommended(a)[k] in Messages {
      PickSound(Messages, Triggers(a), k);
    }
  }

  /** A rule's message is given exactly when that rule fires. */
  lemma MessageGivenIffRuleFires(a: AuditRecord, i: nat)
    requires AiAccessKey in a.gates && AiTxtKey in a.gates && i < |Messages|
    ensures Messages[i] in Recommended(a) <==> Triggers(a)[i]
  {
    MessagesDistinct();
    PickMember(Messages, Triggers(a), i);
  }

  /** Messages keep rule order. */
  lemma MessagesInRuleOrder(a: AuditRecord, i: nat, j: nat)
    requires AiAccessKey in a.gates && AiTxtKey in a.gates
    requires i < j < |Messages| && Triggers(a)[i] && Triggers(a)[j]
    ensures CountFired(Triggers(a), i) < CountFired(Triggers(a), j) < |Recommended(a)|
    ensures Recommended(a)[CountFired(Triggers(a), i)] == Messages[i]
    ensures Recommended(a)[CountFired(Triggers(a), j)] == Messages[j]
  {
    PickAt(Messages, Triggers(a), i);
    PickAt(Messages, Triggers(a), j);
    CountOrdered(Triggers(a), i, j);
  }

  /** The server-rendering advice never comes alone: whenever it is given,
      the schema advice is given too, and earlier. */
  lemma ServerRenderFollowsSchema(a: AuditRecord)
    requires AiAccessKey in a.gates && AiTxtKey in a.gates
    requires ServerRender in Recommended(a)
    ensures exists k, l :: (0 <= k < l < |Recommended(a)|
        && Recommended(a)[k] == AddSchema && Recommended(a)[l] == ServerRender)
  {
    MessageGivenIffRuleFires(a, 3);
    MessagesInRuleOrder(a, 1, 3);
    var k, l := CountFired(Triggers(a), 1), CountFired(Triggers(a), 3);
    assert Recommended(a)[k] == AddSchema && Recommended(a)[l] == ServerRender;
  }

  /** When every rule fires, all four messages are given in rule order. */
  lemma AllRulesFire(a: AuditRecord)
    requires AiAccessKey in a.gates && AiTxtKey in a.gates
    requires forall i :: 0 <= i < 4 ==> Triggers(a)[i]
    ensures Recommended(a) == Messages
  {
    PickedAll(Messages, Triggers(a), |Messages|);
  }

  /** A record with a blocking verdict, no JSON-LD, a missing ai.txt and a
      "Next.js (React)" stack label gets all four messages in rule order. */
  lemma AllFourAdvised(a: AuditRecord)
    requires AiAccessKey in a.gates && AiTxtKey in a.gates
    requires a.gates[AiAccessKey] == Blocked && a.gates[AiTxtKey] == "Missing"
    requires a.schemaCount == 0 && Contains(a.stack, "Next.js (React)")
    ensures Recommended(a) == [Whitelist, AddSchema, AddAiTxt, ServerRender]
  {
    assert "BLOCKED" <= Blocked;
    assert "Missing" <= a.gates[AiTxtKey];
    ContainsAt("Next.js (React)", "Next.js", 0);
    ContainsTransitive("Next.js (React)", "Next.js", a.stack);
    AllRulesFire(a);
  }

  /** Without a blocking verdict or a Next.js stack, a record with no
      JSON-LD and a missing ai.txt gets exactly the schema advice and then
      the ai.txt advice. */
  lemma SchemaAndAiTxtAdviceOnly(a: AuditRecord)
    requires AiAccessKey in a.gates && AiTxtKey in a.gates
    requires !Contains(a.gates[AiAccessKey], "BLOCKED") && !Contains(a.stack, "Next.js")
    requires a.schemaCount == 0 && Contains(a.gates[AiTxtKey], "Missing")
    ensures Recommended(a) == [AddSchema, AddAiTxt]
  {
    var fires := Triggers(a);
    assert fires == [false, true, true, false];
    assert Picked(Messages, fires, 1) == [];
    assert Picked(Messages, fires, 2) == [AddSchema];
    assert Picked(Messages, fires, 3) == [AddSchema, AddAiTxt];
  }

  /** Over the statuses the gate classifier produces, the whitelist advice is
      given exactly when robots.txt answered 200 and mentions both "GPTBot"
      and "Disallow". */
  lemma WhitelistRuleOnGate(robots: Fetch)
    ensures Contains(AiAccessGate(robots), "BLOCKED")
        <==> IsOk(robots) && Contains(robots.text, "GPTBot") && Contains(robots.text, "Disallow")
  {
    var g := AiAccessGate(robots);
    if IsOk(robots) && Contains(robots.text, "GPTBot") && Contains(robots.text, "Disallow") {
      assert "BLOCKED" <= g;
    } else {
      NotContainsWithoutFirstChar(g, "BLOCKED");
    }
  }

  /** For a record whose agent-access verdict came from the classifier, the
      whitelist advice is given exactly when robots.txt answered 200 and
      mentions both "GPTBot" and "Disallow". */
  lemma WhitelistAdvice(a: AuditRecord, robots: Fetch)
    requires AiAccessKey in a.gates && AiTxtKey in a.gates
    requires a.gates[AiAccessKey] == AiAccessGate(robots)
    ensures Whitelist in Recommended(a)
        <==> IsOk(robots) && Contains(robots.text, "GPTBot") && Contains(robots.text, "Disallow")
  {
    MessageGivenIffRuleFires(a, 0);
    WhitelistRuleOnGate(robots);
  }

  /** Over the statuses the gate classifier produces, the ai.txt advice is
      given exactly when the ai.txt probe answered with a status other than
      200; a failed probe gives no advice. */
  lemma AiTxtRuleOnGate(aiTxt: Fetch)
    ensures Contains(AiTxtGate(aiTxt), "Missing") <==> aiTxt.Response? && aiTxt.status != 200
  {
    var g := AiTxtGate(aiTxt);
    if aiTxt.Response? && aiTxt.status != 200 {
      assert "Missing" <= g;
    } else {
      NotContainsWithoutFirstChar(g, "Missing");
    }
  }
}
