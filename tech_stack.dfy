/** The stack fingerprinter (`detect_tech_stack`): six independent substring
    checks over the page markup and one header check, each contributing a
    label in a fixed order; the labels are joined with ", ", or the sentinel
    "Custom/Unknown Stack" is returned when nothing matched. */
module TechStack {
  import opened Text
  import opened RuleTable
  import opened Inputs

  const Unknown := "Custom/Unknown Stack"
  const PoweredBy := "X-Powered-By"
  const CheckCount := 7

  /** `str()` of the generator tag; Python renders a missing tag as "None". */
  function GeneratorText(tag: Option<string>): (r: string)
    ensures tag.Some? ==> r == tag.value
    ensures tag.None? ==> !Contains(r, "WordPress")
  {
    NotContainsWithoutFirstChar("None", "WordPress");
    match tag
    case None => "None"
    case Some(t) => t
  }

  /** The header label; the value is only read when the header is present. */
  function ServerLabel(headers: map<string, string>): string
  {
    "Server: " + (if PoweredBy in headers then headers[PoweredBy] else "")
  }

  /** The label of each check, in check order. */
  function LabelTable(headers: map<string, string>): seq<string>
  {
    ["WordPress", "Shopify", "WooCommerce", "Next.js (React)", "React", "Wix", ServerLabel(headers)]
  }

  /** Whether each check fires, in check order. */
  function Signals(p: PageFacts): (fires: seq<bool>)
    ensures |fires| == CheckCount == |LabelTable(p.headers)|
  {
    var html := p.markup;
    [ Contains(html, "wp-content") || Contains(GeneratorText(p.generatorTag), "WordPress"),
      Contains(html, "cdn.shopify.com") || Contains(html, "Shopify"),
      Contains(html, "woocommerce"),
      Contains(html, "__NEXT_DATA__"),
      Contains(html, "data-reactroot"),
      Contains(html, "Wix") || Contains(html, "wix-warmup-data"),
      PoweredBy in p.headers ]
  }

  /** The labels of the checks that fired, in check order. */
  function Labels(p: PageFacts): seq<string>
  {
    Pick(LabelTable(p.headers), Signals(p))
  }

  /** The stack string as presented: joined labels, or the sentinel. */
  function StackString(p: PageFacts): (r: string)
    ensures Labels(p) == [] ==> r == Unknown
    ensures forall k :: 0 <= k < |Labels(p)| ==> Contains(r, Labels(p)[k])
  {
    var labels := Labels(p);
    JoinContainsParts(labels, ", ");
    if labels == [] then Unknown else Join(labels, ", ")
  }

  /** `detect_tech_stack`: appends one label per firing check, step by step. */
  method DetectTechStack(p: PageFacts) returns (stack: string)
    ensures stack == StackString(p)
  {
    var html := p.markup;
    var labels: seq<string> := [];
    ghost var table, fires := LabelTable(p.headers), Signals(p);

    if Contains(html, "wp-content") || Contains(GeneratorText(p.generatorTag), "WordPress") {
      labels := labels + ["WordPress"];
    }
    assert labels == Picked(table, fires, 1);
    if Contains(html, "cdn.shopify.com") || Contains(html, "Shopify") {
      labels := labels + ["Shopify"];
    }
    assert labels == Picked(table, fires, 2);
    if Contains(html, "woocommerce") {
      labels := labels + ["WooCommerce"];
    }
    assert labels == Picked(table, fires, 3);
    if Contains(html, "__NEXT_DATA__") {
      labels := labels + ["Next.js (React)"];
    }
    assert labels == Picked(table, fires, 4);
    if Contains(html, "data-reactroot") {
      labels := labels + ["React"];
    }
    assert labels == Picked(table, fires, 5);
    if Contains(html, "Wix") || Contains(html, "wix-warmup-data") {
      labels := labels + ["Wix"];
    }
    assert labels == Picked(table, fires, 6);
    if PoweredBy in p.headers {
      labels := labels + ["Server: " + p.headers[PoweredBy]];
    }
    assert labels == Picked(table, fires, 7);

    stack := if labels != [] then Join(labels, ", ") else Unknown;
  }

  lemma LabelTableDistinct(headers: map<string, string>)
    ensures Distinct(LabelTable(headers))
  {
    var t := LabelTable(headers);
    assert t[6][0] == 'S' && t[6][1] == 'e';
    forall k, l | 0 <= k < l < |t| ensures t[k] != t[l] {
      if l == 6 {
        assert t[k][0] != 'S' || t[k][1] != 'e';
      }
    }
  }

  /** Each label is emitted at most once. */
  lemma LabelsDistinct(p: PageFacts)
    ensures Distinct(Labels(p))
    ensures forall k :: 0 <= k < |Labels(p)| ==> Labels(p)[k] in LabelTable(p.headers)
  {
    LabelTableDistinct(p.headers);
    PickDistinct(LabelTable(p.headers), Signals(p));
    forall k | 0 <= k < |Labels(p)| ensures Labels(p)[k] in LabelTable(p.headers) {
      PickSound(LabelTable(p.headers), Signals(p), k);
    }
  }

  /** A check's label is emitted exactly when that check fires. */
  lemma LabelEmittedIffCheckFires(p: PageFacts, i: nat)
    requires i < CheckCount
    ensures LabelTable(p.headers)[i] in Labels(p) <==> Signals(p)[i]
  {
    LabelTableDistinct(p.headers);
    PickMember(LabelTable(p.headers), Signals(p), i);
  }

  /** Labels keep check order: the label of an earlier firing check comes
      before the label of a later one. */
  lemma LabelsInCheckOrder(p: PageFacts, i: nat, j: nat)
    requires i < j < CheckCount && Signals(p)[i] && Signals(p)[j]
    ensures CountFired(Signals(p), i) < CountFired(Signals(p), j) < |Labels(p)|
    ensures Labels(p)[CountFired(Signals(p), i)] == LabelTable(p.headers)[i]
    ensures Labels(p)[CountFired(Signals(p), j)] == LabelTable(p.headers)[j]
  {
    PickAt(LabelTable(p.headers), Signals(p), i);
    PickAt(LabelTable(p.headers), Signals(p), j);
    CountOrdered(Signals(p), i, j);
  }

  /** The sentinel is returned exactly when no check fired; it can never be
      mistaken for a joined label list. */
  lemma UnknownIffNoCheckFired(p: PageFacts)
    ensures StackString(p) == Unknown <==> forall i :: 0 <= i < CheckCount ==> !Signals(p)[i]
  {
    var fires, labels := Signals(p), Labels(p);
    var table := LabelTable(p.headers);
    if i :| 0 <= i < CheckCount && fires[i] {
      PickAt(table, fires, i);
      PickSound(table, fires, 0);
      assert forall j :: 0 <= j < |table| ==> |table[j]| > 0 && table[j][0] != 'C';
      assert labels[0] <= Join(labels, ", ");
    } else {
      PickedNone(table, fires, |table|);
    }
  }

  /** A page on which no check fired has a stack string without "Next.js". */
  lemma NoLabelsNotNextJs(p: PageFacts)
    requires Labels(p) == []
    ensures !Contains(StackString(p), "Next.js")
  {
    NotContainsWithoutFirstChar(Unknown, "Next.js");
  }

  /** Markup with both "wp-content" and "cdn.shopify.com" starts the labels
      with WordPress then Shopify. */
  lemma WordPressThenShopify(p: PageFacts)
    requires Contains(p.markup, "wp-content") && Contains(p.markup, "cdn.shopify.com")
    ensures |Labels(p)| >= 2 && Labels(p)[0] == "WordPress" && Labels(p)[1] == "Shopify"
  {
    var fires := Signals(p);
    PickAt(LabelTable(p.headers), fires, 0);
    PickAt(LabelTable(p.headers), fires, 1);
    assert Chosen(fires, 1) == [0];
  }

  /** When the Next.js check fires, "Next.js" occurs in the stack string. */
  lemma NextJsCheckNamesNextJs(p: PageFacts)
    requires Signals(p)[3]
    ensures Contains(StackString(p), "Next.js")
  {
    var labels := Labels(p);
    PickAt(LabelTable(p.headers), Signals(p), 3);
    var k := CountFired(Signals(p), 3);
    assert labels[k] == "Next.js (React)";
    JoinContainsPart(labels, ", ", k);
    ContainsAt("Next.js (React)", "Next.js", 0);
    assert Contains(labels[k], "Next.js");
    ContainsTransitive(labels[k], "Next.js", Join(labels, ", "));
  }

  /** An "X-Powered-By: Next.js" header alone also puts "Next.js" in the
      stack string, although the page carries no `__NEXT_DATA__`. */
  lemma PoweredByNextJsNamesNextJs()
    ensures var p := PageFacts("", None, map[PoweredBy := "Next.js"], [], false);
      !Signals(p)[3] && StackString(p) == "Server: Next.js" && Contains(StackString(p), "Next.js")
  {
    var p := PageFacts("", None, map[PoweredBy := "Next.js"], [], false);
    NotContainsWithoutFirstChar("None", "WordPress");
    var fires := Signals(p);
    assert fires == [false, false, false, false, false, false, true];
    PickedNone(LabelTable(p.headers), fires, 6);
    assert ServerLabel(p.headers) == "Server: " + "Next.js" == "Server: Next.js";
    assert Labels(p) == Picked(LabelTable(p.headers), fires, 6) + [ServerLabel(p.headers)];
    ContainsAt("Server: Next.js", "Next.js", 8);
  }
}
