/** The maturity-analysis controller: the upload's file-name check, the
    temporary file's suffix, and the recommendations filed by time horizon,
    either by default or from the language model's answers. The spreadsheet
    parser, the language model and `json.loads` are parameters: `read` gives
    what the parser made of the upload saved under a suffix, `llm(i)` the
    model's text for the `i`-th opportunity (`None` when the call raised or
    gave no text), and `parse` what `json.loads` made of a text (`None` when
    it raised). Scores are floating point and left out. */
module Maturity {
  import opened Optional
  import opened Strings
  import opened Json

  const AnalysisFailed: string := "Erreur lors de l'analyse du fichier: "
  const BadExtension: string := "Le fichier doit \U{ea}tre au format .xlsx, .xls ou .csv"
  const NoAxes: string := "Aucun axe d'\U{e9}valuation trouv\U{e9} dans le fichier Excel"
  const NoFilename: string := "'NoneType' object has no attribute 'lower'"
  /** `str()` of a 400 `HTTPException` starts with its status. */
  const Status400: string := "400: "

  const ShortTerm: string := "short_term"
  const MediumTerm: string := "medium_term"
  const LongTerm: string := "long_term"
  const Medium: string := "medium"

  /** The lower-cased name ends in `.xlsx`, `.xls` or `.csv`. */
  predicate AcceptedName(filename: string) {
    var lower := Lower(filename);
    EndsWith(lower, ".xlsx") || EndsWith(lower, ".xls") || EndsWith(lower, ".csv")
  }

  /** The temporary file's suffix. */
  function TempSuffix(filename: string): (suffix: string)
    ensures suffix == ".csv" <==> EndsWith(Lower(filename), ".csv")
    ensures suffix == ".csv" || suffix == ".xlsx"
  {
    if EndsWith(Lower(filename), ".csv") then ".csv" else ".xlsx"
  }

  datatype Axis = Axis(name: string, definition: string, questions: seq<string>)

  /** An answer that the next maturity level would improve. */
  datatype Opportunity = Opportunity(axisName: string, axisDefinition: string, question: string,
                                     currentResponse: string, nextLevelResponse: string)

  datatype Sheet = Sheet(axes: seq<Axis>, opportunities: seq<Opportunity>)

  datatype SheetRead = SheetParsed(sheet: Sheet) | SheetFailed(message: string)

  /** One filed recommendation. The three model-supplied fields keep the JSON
      values the model gave. */
  datatype Entry = Entry(axisName: string, question: string, currentSituation: string, targetSituation: string,
                         recommendation: JsonValue, timeline: JsonValue, priority: JsonValue)

  datatype Buckets = Buckets(shortTerm: seq<Entry>, mediumTerm: seq<Entry>, longTerm: seq<Entry>)

  const NoBuckets: Buckets := Buckets([], [], [])

  /** The entry describes opportunity `o`. */
  predicate About(e: Entry, o: Opportunity) {
    && e.axisName == o.axisName && e.question == o.question
    && e.currentSituation == o.currentResponse && e.targetSituation == o.nextLevelResponse
  }

  /** Every entry sits in the bucket its timeline names. */
  predicate Filed(b: Buckets) {
    && (forall e <- b.shortTerm :: e.timeline == JStr(ShortTerm))
    && (forall e <- b.mediumTerm :: e.timeline == JStr(MediumTerm))
    && (forall e <- b.longTerm :: e.timeline == JStr(LongTerm))
  }

  predicate IsPrefix<T(==)>(a: seq<T>, b: seq<T>) {
    |a| <= |b| && b[..|a|] == a
  }

  /** `c` holds everything `b` held, in place, and possibly more after it. */
  predicate Extends(b: Buckets, c: Buckets) {
    IsPrefix(b.shortTerm, c.shortTerm) && IsPrefix(b.mediumTerm, c.mediumTerm) && IsPrefix(b.longTerm, c.longTerm)
  }

  /** Every entry `c` added to `b` is about `o`. */
  predicate AddedAbout(b: Buckets, c: Buckets, o: Opportunity) {
    && (forall i :: |b.shortTerm| <= i < |c.shortTerm| ==> About(c.shortTerm[i], o))
    && (forall i :: |b.mediumTerm| <= i < |c.mediumTerm| ==> About(c.mediumTerm[i], o))
    && (forall i :: |b.longTerm| <= i < |c.longTerm| ==> About(c.longTerm[i], o))
  }

  /** "Améliorer <axis> en passant de '<current[:50]>...' à '<next[:50]>...'". */
  function Improvement(o: Opportunity): string {
    "Am\U{e9}liorer " + o.axisName + " en passant de '" + Take(o.currentResponse, 50) + "...' \U{e0} '"
      + Take(o.nextLevelResponse, 50) + "...'"
  }

  const PlanSentence: string := ". Mettre en place un plan d'action progressif."

  /** A medium-term, medium-priority entry about `o` with the given text. */
  function Standard(o: Opportunity, text: string): (e: Entry)
    ensures About(e, o) && e.timeline == JStr(MediumTerm) && e.priority == JStr(Medium)
    ensures e.recommendation == JStr(text)
  {
    Entry(o.axisName, o.question, o.currentResponse, o.nextLevelResponse, JStr(text), JStr(MediumTerm), JStr(Medium))
  }

  /** `_generate_default_recommendations`. */
  function DefaultRecommendations(opportunities: seq<Opportunity>): (b: Buckets)
    ensures b.shortTerm == [] && b.longTerm == []
    ensures |b.mediumTerm| == |opportunities|
    ensures forall i :: 0 <= i < |opportunities| ==>
      && About(b.mediumTerm[i], opportunities[i])
      && b.mediumTerm[i].timeline == JStr(MediumTerm) && b.mediumTerm[i].priority == JStr(Medium)
      && b.mediumTerm[i].recommendation == JStr(Improvement(opportunities[i]) + PlanSentence)
  {
    if opportunities == [] then NoBuckets
    else
      var n := |opportunities| - 1;
      var b := DefaultRecommendations(opportunities[..n]);
      b.(mediumTerm := b.mediumTerm + [Standard(opportunities[n], Improvement(opportunities[n]) + PlanSentence)])
  }

  const AnalyseAction: string := "Analyser et am\U{e9}liorer les processus actuels"

  /** `response[:200] + "..." if len(response) > 200 else response`. */
  function Abridged(response: string): (d: string)
    ensures |response| <= 200 ==> d == response
    ensures |response| > 200 ==> |d| == 203 && d[..200] == response[..200] && d[200..] == "..."
  {
    if |response| > 200 then Take(response, 200) + "..." else response
  }

  /** The single recommendation `_parse_llm_response` falls back to. */
  function FallbackRec(response: string): (v: JsonValue)
    ensures v.JObj? && v.fields.Keys == {"action", "timeline", "priority", "description"}
    ensures v.fields["action"] == JStr(AnalyseAction) && v.fields["timeline"] == JStr(MediumTerm)
    ensures v.fields["priority"] == JStr(Medium) && v.fields["description"] == JStr(Abridged(response))
  {
    JObj(map["action" := JStr(AnalyseAction), "timeline" := JStr(MediumTerm), "priority" := JStr(Medium),
             "description" := JStr(Abridged(response))])
  }

  /** What `_parse_llm_response` returns, or that it raised: with no text,
      `json.loads` fails and so does the fallback's `len(response)`. */
  datatype Parsed = Recommendations(value: JsonValue) | ParseRaised

  /** `_parse_llm_response`: the object's "recommendations" (an empty list when
      absent), and the fallback when the text does not parse to an object. */
  function ParseLlmResponse(response: Option<string>, parse: string -> Option<JsonValue>): (p: Parsed)
    ensures p.ParseRaised? <==> response.None?
    ensures response.Some? && parse(response.value).Some? && parse(response.value).value.JObj? ==>
      p == Recommendations(Get(parse(response.value).value.fields, "recommendations", JArr([])))
    ensures response.Some? && !(parse(response.value).Some? && parse(response.value).value.JObj?) ==>
      p == Recommendations(JArr([FallbackRec(response.value)]))
  {
    match response
    case None => ParseRaised
    case Some(text) =>
      match parse(text)
      case Some(JObj(fields)) => Recommendations(Get(fields, "recommendations", JArr([])))
      case _ => Recommendations(JArr([FallbackRec(text)]))
  }

  /** How filing the recommendations for one opportunity ended: normally, or
      by an exception, with the buckets as they stood then. */
  datatype Step = Completed(buckets: Buckets) | Interrupted(buckets: Buckets)

  /** Appends `e` to the bucket called `name`. */
  function Append(b: Buckets, name: string, e: Entry): (c: Buckets)
    requires name == ShortTerm || name == MediumTerm || name == LongTerm
    ensures name == ShortTerm ==> c == b.(shortTerm := b.shortTerm + [e])
    ensures name == MediumTerm ==> c == b.(mediumTerm := b.mediumTerm + [e])
    ensures name == LongTerm ==> c == b.(longTerm := b.longTerm + [e])
  {
    if name == ShortTerm then b.(shortTerm := b.shortTerm + [e])
    else if name == MediumTerm then b.(mediumTerm := b.mediumTerm + [e])
    else b.(longTerm := b.longTerm + [e])
  }

  /** A timeline naming one of the three buckets. */
  predicate Horizon(v: JsonValue) {
    v == JStr(ShortTerm) || v == JStr(MediumTerm) || v == JStr(LongTerm)
  }

  /** One pass of the loop over the parsed recommendations. A non-object has no
      `get`; a list or object timeline cannot be looked up in a dict; any other
      timeline that names no bucket is skipped; a filed rec needs "action" and
      an explicit "timeline", and its priority defaults to "medium". */
  function FileRec(b: Buckets, o: Opportunity, rec: JsonValue): (s: Step)
    ensures s.Interrupted? ==> s.buckets == b
    ensures s.Completed? && s.buckets != b ==>
      && rec.JObj? && "action" in rec.fields && "timeline" in rec.fields
      && var t := rec.fields["timeline"];
         && Horizon(t)
         && s.buckets == Append(b, t.s, Entry(o.axisName, o.question, o.currentResponse, o.nextLevelResponse,
                                              rec.fields["action"], t, Get(rec.fields, "priority", JStr(Medium))))
    ensures rec.JObj? && "timeline" !in rec.fields ==> s.Interrupted?
    ensures rec.JObj? && "action" !in rec.fields && "timeline" in rec.fields && Horizon(rec.fields["timeline"])
      ==> s.Interrupted?
    ensures Extends(b, s.buckets) && AddedAbout(b, s.buckets, o)
    ensures Filed(b) ==> Filed(s.buckets)
  {
    if !rec.JObj? then Interrupted(b)
    else
      var timeline := Get(rec.fields, "timeline", JStr(MediumTerm));
      if timeline.JArr? || timeline.JObj? then Interrupted(b)
      else if !(timeline.JStr? && (timeline.s == ShortTerm || timeline.s == MediumTerm || timeline.s == LongTerm)) then Completed(b)
      else if "action" !in rec.fields || "timeline" !in rec.fields then Interrupted(b)
      else
        Completed(Append(b, timeline.s, Entry(o.axisName, o.question, o.currentResponse, o.nextLevelResponse,
                                            rec.fields["action"], rec.fields["timeline"],
                                            Get(rec.fields, "priority", JStr(Medium)))))
  }

  /** The loop over a list of recommendations, stopping at the first raise. */
  function FileAll(b: Buckets, o: Opportunity, recs: seq<JsonValue>): (s: Step)
    ensures Extends(b, s.buckets) && AddedAbout(b, s.buckets, o)
    ensures Filed(b) ==> Filed(s.buckets)
    decreases |recs|
  {
    if recs == [] then Completed(b)
    else
      match FileRec(b, o, recs[0])
      case Interrupted(c) => Interrupted(c)
      case Completed(c) =>
        var s := FileAll(c, o, recs[1..]);
        GrowsInTurn(b, c, s.buckets, o);
        s
  }

  /** Growth in two steps is growth. */
  lemma GrowsInTurn(a: Buckets, b: Buckets, c: Buckets, o: Opportunity)
    requires Extends(a, b) && AddedAbout(a, b, o) && Extends(b, c) && AddedAbout(b, c, o)
    ensures Extends(a, c) && AddedAbout(a, c, o)
  {
    assert c.shortTerm[..|a.shortTerm|] == c.shortTerm[..|b.shortTerm|][..|a.shortTerm|];
    assert c.mediumTerm[..|a.mediumTerm|] == c.mediumTerm[..|b.mediumTerm|][..|a.mediumTerm|];
    assert c.longTerm[..|a.longTerm|] == c.longTerm[..|b.longTerm|][..|a.longTerm|];
    forall i | |a.shortTerm| <= i < |c.shortTerm| ensures About(c.shortTerm[i], o) {
      if i < |b.shortTerm| { assert c.shortTerm[i] == b.shortTerm[i]; }
    }
    forall i | |a.mediumTerm| <= i < |c.mediumTerm| ensures About(c.mediumTerm[i], o) {
      if i < |b.mediumTerm| { assert c.mediumTerm[i] == b.mediumTerm[i]; }
    }
    forall i | |a.longTerm| <= i < |c.longTerm| ensures About(c.longTerm[i], o) {
      if i < |b.longTerm| { assert c.longTerm[i] == b.longTerm[i]; }
    }
  }

  /** `for rec in parsed_recommendations` over whatever JSON value the model
      put under "recommendations": a list is walked; iterating a string or an
      object yields strings, which have no `get`, so only an empty one passes;
      a number, boolean or `null` is not iterable. */
  function FileValue(b: Buckets, o: Opportunity, v: JsonValue): (s: Step)
    ensures Extends(b, s.buckets) && AddedAbout(b, s.buckets, o)
    ensures Filed(b) ==> Filed(s.buckets)
  {
    match v
    case JArr(items) => FileAll(b, o, items)
    case JStr(text) => if text == "" then Completed(b) else Interrupted(b)
    case JObj(fields) => if |fields| == 0 then Completed(b) else Interrupted(b)
    case _ => Interrupted(b)
  }

  /** The `except` branch: one medium-term entry about `o`. */
  function Rescue(b: Buckets, o: Opportunity): (c: Buckets)
    ensures c == b.(mediumTerm := b.mediumTerm + [Standard(o, Improvement(o))])
  {
    b.(mediumTerm := b.mediumTerm + [Standard(o, Improvement(o))])
  }

  /** One iteration of `_generate_recommendations`' loop. */
  function Advise(b: Buckets, o: Opportunity, reply: Option<string>, parse: string -> Option<JsonValue>): (c: Buckets)
    ensures Extends(b, c) && AddedAbout(b, c, o)
    ensures Filed(b) ==> Filed(c)
    ensures reply.None? ==> c == Rescue(b, o)
  {
    match ParseLlmResponse(reply, parse)
    case ParseRaised => Rescue(b, o)
    case Recommendations(v) =>
      match FileValue(b, o, v)
      case Completed(c) => c
      case Interrupted(c) =>
        assert c.mediumTerm[..|b.mediumTerm|] == Rescue(c, o).mediumTerm[..|c.mediumTerm|][..|b.mediumTerm|];
        Rescue(c, o)
  }

  /** A bucket whose old entries are each about one of `earlier`, grown only
      by entries about `o`, has every entry about one of `all` when `all`
      holds `o` and every opportunity of `earlier`. */
  lemma GrownFrom(prior: seq<Entry>, grown: seq<Entry>, earlier: seq<Opportunity>, all: seq<Opportunity>, o: Opportunity)
    requires IsPrefix(prior, grown) && o in all
    requires forall p <- earlier :: p in all
    requires forall e <- prior :: exists p <- earlier :: About(e, p)
    requires forall i :: |prior| <= i < |grown| ==> About(grown[i], o)
    ensures forall e <- grown :: exists p <- all :: About(e, p)
  {
    forall e <- grown ensures exists p <- all :: About(e, p) {
      var i :| 0 <= i < |grown| && grown[i] == e;
      if i < |prior| {
        assert e == grown[..|prior|][i] == prior[i];
        assert e in prior;
        var p :| p in earlier && About(e, p);
        assert p in all;
      } else {
        assert About(e, o);
      }
    }
  }

  /** The loop of `_generate_recommendations` over the first opportunities. */
  function Gather(opportunities: seq<Opportunity>, llm: nat -> Option<string>, parse: string -> Option<JsonValue>): (b: Buckets)
    ensures Filed(b)
    ensures forall e <- b.shortTerm :: exists o <- opportunities :: About(e, o)
    ensures forall e <- b.mediumTerm :: exists o <- opportunities :: About(e, o)
    ensures forall e <- b.longTerm :: exists o <- opportunities :: About(e, o)
  {
    if opportunities == [] then NoBuckets
    else
      var n := |opportunities| - 1;
      var prior := Gather(opportunities[..n], llm, parse);
      var o := opportunities[n];
      var c := Advise(prior, o, llm(n), parse);
      assert forall p <- opportunities[..n] :: p in opportunities;
      GrownFrom(prior.shortTerm, c.shortTerm, opportunities[..n], opportunities, o);
      GrownFrom(prior.mediumTerm, c.mediumTerm, opportunities[..n], opportunities, o);
      GrownFrom(prior.longTerm, c.longTerm, opportunities[..n], opportunities, o);
      c
  }

  /** `_generate_recommendations`; `llmAvailable` says whether the controller's
      constructor obtained its LLM factory. */
  function GenerateRecommendations(opportunities: seq<Opportunity>, llmAvailable: bool,
                                   llm: nat -> Option<string>, parse: string -> Option<JsonValue>): (b: Buckets)
    ensures !llmAvailable ==> b == DefaultRecommendations(opportunities)
    ensures Filed(b)
  {
    if !llmAvailable then
      var d := DefaultRecommendations(opportunities);
      assert Filed(d) by {
        forall e <- d.mediumTerm ensures e.timeline == JStr(MediumTerm) {
          var i :| 0 <= i < |d.mediumTerm| && d.mediumTerm[i] == e;
        }
      }
      d
    else Gather(opportunities, llm, parse)
  }

  datatype AxisSummary = AxisSummary(name: string, definition: string, questionsCount: int)

  datatype Analysis =
    | Report(totalAxes: int, axes: seq<AxisSummary>, opportunities: seq<Opportunity>, recommendations: Buckets)
    | Failed(status: int, detail: string)

  function Summaries(axes: seq<Axis>): (s: seq<AxisSummary>)
    ensures |s| == |axes|
    ensures forall i :: 0 <= i < |axes| ==>
      s[i].name == axes[i].name && s[i].definition == axes[i].definition && s[i].questionsCount == |axes[i].questions|
  {
    seq(|axes|, i requires 0 <= i < |axes| => AxisSummary(axes[i].name, axes[i].definition, |axes[i].questions|))
  }

  /** `analyze_maturity_excel`. Every failure, the 400s raised inside it
      included, leaves as a 500 whose detail quotes the error. */
  function AnalyzeMaturityExcel(filename: Option<string>, read: string -> SheetRead, llmAvailable: bool,
                                llm: nat -> Option<string>, parse: string -> Option<JsonValue>): (a: Analysis)
    ensures a.Failed? ==> a.status == 500 && StartsWith(a.detail, AnalysisFailed)
    ensures filename.None? ==> a == Failed(500, AnalysisFailed + NoFilename)
    ensures filename.Some? && !AcceptedName(filename.value) ==> a == Failed(500, AnalysisFailed + Status400 + BadExtension)
    ensures a.Report? <==>
      && filename.Some? && AcceptedName(filename.value)
      && read(TempSuffix(filename.value)).SheetParsed?
      && |read(TempSuffix(filename.value)).sheet.axes| > 0
    ensures a.Report? ==>
      var sheet := read(TempSuffix(filename.value)).sheet;
      && a.totalAxes == |sheet.axes|
      && a.axes == Summaries(sheet.axes)
      && a.opportunities == sheet.opportunities
      && a.recommendations == GenerateRecommendations(sheet.opportunities, llmAvailable, llm, parse)
  {
    match filename
    case None => Failed(500, AnalysisFailed + NoFilename)
    case Some(name) =>
      if !AcceptedName(name) then Failed(500, AnalysisFailed + Status400 + BadExtension)
      else
        match read(TempSuffix(name))
        case SheetFailed(m) => Failed(500, AnalysisFailed + m)
        case SheetParsed(sheet) =>
          if |sheet.axes| == 0 then Failed(500, AnalysisFailed + Status400 + NoAxes)
          else Report(|sheet.axes|, Summaries(sheet.axes), sheet.opportunities,
                      GenerateRecommendations(sheet.opportunities, llmAvailable, llm, parse))
  }
}
