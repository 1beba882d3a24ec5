/** Properties of the recommendation filing for one opportunity, under the
    answers the language model can give, and of the upload name check. */
module MaturityProperties {
  import opened Optional
  import opened Strings
  import opened Json
  import opened Maturity

  /** A model text that does not parse to an object yields one medium-term
      entry whose recommendation is the generic analysis action. */
  lemma UnparsableReplyFilesGenericAction(b: Buckets, o: Opportunity, reply: string, parse: string -> Option<JsonValue>)
    requires !(parse(reply).Some? && parse(reply).value.JObj?)
    ensures Advise(b, o, Some(reply), parse) ==
      b.(mediumTerm := b.mediumTerm + [Entry(o.axisName, o.question, o.currentResponse, o.nextLevelResponse,
                                             JStr(AnalyseAction), JStr(MediumTerm), JStr(Medium))])
  {
    var rec := FallbackRec(reply);
    assert ParseLlmResponse(Some(reply), parse) == Recommendations(JArr([rec]));
    var c := b.(mediumTerm := b.mediumTerm + [Entry(o.axisName, o.question, o.currentResponse, o.nextLevelResponse,
                                                    JStr(AnalyseAction), JStr(MediumTerm), JStr(Medium))]);
    assert FileRec(b, o, rec) == Completed(c);
    assert FileAll(c, o, []) == Completed(c);
    assert FileAll(b, o, [rec]) == Completed(c);
  }

  /** The reply a model gives when its only recommendation is `rec`. */
  function OnlyRec(rec: JsonValue): JsonValue {
    JObj(map["recommendations" := JArr([rec])])
  }

  /** A recommendation without "timeline" raises at the entry's construction,
      so the opportunity gets the fallback entry instead. */
  lemma MissingTimelineFallsBack(b: Buckets, o: Opportunity, reply: string, parse: string -> Option<JsonValue>,
                                 fields: map<string, JsonValue>)
    requires parse(reply) == Some(OnlyRec(JObj(fields))) && "timeline" !in fields
    ensures Advise(b, o, Some(reply), parse) == Rescue(b, o)
  {
    assert ParseLlmResponse(Some(reply), parse) == Recommendations(JArr([JObj(fields)]));
    assert FileAll(b, o, [JObj(fields)]) == Interrupted(b);
  }

  /** A recommendation with a bucket timeline but no "action" falls back too. */
  lemma MissingActionFallsBack(b: Buckets, o: Opportunity, reply: string, parse: string -> Option<JsonValue>,
                               fields: map<string, JsonValue>)
    requires parse(reply) == Some(OnlyRec(JObj(fields)))
    requires "action" !in fields && "timeline" in fields && Horizon(fields["timeline"])
    ensures Advise(b, o, Some(reply), parse) == Rescue(b, o)
  {
    assert ParseLlmResponse(Some(reply), parse) == Recommendations(JArr([JObj(fields)]));
    assert FileAll(b, o, [JObj(fields)]) == Interrupted(b);
  }

  /** A timeline naming no bucket files nothing and raises nothing. */
  lemma UnknownTimelineSkipped(b: Buckets, o: Opportunity, fields: map<string, JsonValue>)
    requires "timeline" in fields && fields["timeline"].JStr? && !Horizon(fields["timeline"])
    ensures FileRec(b, o, JObj(fields)) == Completed(b)
  {
  }

  /** A good recommendation followed by a malformed one: the good one stays
      filed, and the fallback entry is added after it. */
  lemma EarlierEntriesSurvive(b: Buckets, o: Opportunity, reply: string, parse: string -> Option<JsonValue>,
                              good: JsonValue, bad: JsonValue)
    requires parse(reply) == Some(JObj(map["recommendations" := JArr([good, bad])]))
    requires FileRec(b, o, good).Completed? && !bad.JObj?
    ensures Advise(b, o, Some(reply), parse) == Rescue(FileRec(b, o, good).buckets, o)
  {
    var c := FileRec(b, o, good).buckets;
    assert ParseLlmResponse(Some(reply), parse) == Recommendations(JArr([good, bad]));
    assert [good, bad][1..] == [bad];
    assert FileAll(c, o, [bad]) == Interrupted(c);
    assert FileAll(b, o, [good, bad]) == Interrupted(c);
  }

  /** Every accepted name reaches the parser with the ".xlsx" suffix exactly
      when, lower-cased, it ends in ".xlsx" or ".xls", and with ".csv"
      otherwise: ".xls" files too are written out as ".xlsx". */
  lemma AcceptedSuffix(filename: string)
    requires AcceptedName(filename)
    ensures TempSuffix(filename) == ".xlsx" <==> EndsWith(Lower(filename), ".xlsx") || EndsWith(Lower(filename), ".xls")
    ensures TempSuffix(filename) == ".csv" <==> !(EndsWith(Lower(filename), ".xlsx") || EndsWith(Lower(filename), ".xls"))
  {
    var lower := Lower(filename);
    EndsWithLast(lower, ".csv");
    EndsWithLast(lower, ".xls");
    EndsWithLast(lower, ".xlsx");
  }

  /** Upper-case extensions are accepted; ".CSV" gives the ".csv" suffix and
      ".XLS" the ".xlsx" one; any other extension is refused. */
  lemma ExtensionExamples()
    ensures AcceptedName("A.CSV") && TempSuffix("A.CSV") == ".csv"
    ensures AcceptedName("B.XLS") && TempSuffix("B.XLS") == ".xlsx"
    ensures !AcceptedName("C.TXT")
  {
    LowerPointwise("A.CSV", "a.csv");
    LowerPointwise("B.XLS", "b.xls");
    LowerPointwise("C.TXT", "c.txt");
  }
}
