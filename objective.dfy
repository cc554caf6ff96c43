/** The crawl objective and its analysis by the language model
    (`analyze_user_objective`): the stored analysis supplies the URL patterns to
    seek and to avoid, and the desired data types steer the link heuristics. */
module Objective {
  import opened Wrappers
  import opened Text
  import opened JsonValue
  import opened Fences

  /** What the crawler knows about the user's goal: the objective text, the stored
      analysis (`crawl_objective_analysis`, empty until an analysis succeeds) and
      the desired data types (`desired_data_types`, an empty list until then). */
  datatype Goal = Goal(objective: string, analysis: map<string, Json>, dataTypes: Json)

  /** The goal of a freshly constructed crawler. */
  function InitialGoal(objective: string): Goal {
    Goal(objective, map[], JArr([]))
  }

  /** A list-valued field of the stored analysis, as a loop over it sees it. */
  function StoredList(g: Goal, key: string): seq<string> {
    StrItems(Get(g.analysis, key, JArr([])))
  }

  function SeekPatterns(g: Goal): seq<string> {
    StoredList(g, "url_patterns_to_seek")
  }

  function AvoidPatterns(g: Goal): seq<string> {
    StoredList(g, "url_patterns_to_avoid")
  }

  function DataTypes(g: Goal): seq<string> {
    StrItems(g.dataTypes)
  }

  /** The analysis returned when the model's answer cannot be used. */
  function DefaultAnalysis(): map<string, Json> {
    map[
      "data_types" := StrArr(["general content"]),
      "key_fields" := StrArr(["title", "content", "links"]),
      "valuable_sections" := StrArr(["main content"]),
      "url_patterns_to_seek" := StrArr([]),
      "url_patterns_to_avoid" := StrArr(["login", "signup", "cart"]),
      "extraction_strategy" := JStr("Extract all available content"),
      "success_criteria" := JStr("Crawl specified number of pages")
    ]
  }

  /** The decoded answer is used: it is a JSON object (`analysis.get` succeeds)
      and its three summary fields can be printed with `', '.join`. */
  predicate Accepted(j: Json) {
    j.JObj?
    && Joinable(Get(j.fields, "data_types", JArr([])))
    && Joinable(Get(j.fields, "key_fields", JArr([])))
    && Joinable(Get(j.fields, "valuable_sections", JArr([])))
  }

  /** `analyze_user_objective`: the returned analysis and the goal afterwards. The
      answer is stripped and unfenced (a bare fence is accepted) before parsing;
      the analysis is stored only when it is accepted. */
  function AnalyzeObjective(g: Goal, reply: Option<string>, parse: string -> Option<Json>): (r: (map<string, Json>, Goal))
    ensures r.1.objective == g.objective
  {
    var d := DecodeReply(reply, parse, true);
    if d.Some? && Accepted(d.value) then
      (d.value.fields, Goal(g.objective, d.value.fields, Get(d.value.fields, "data_types", JArr([]))))
    else (DefaultAnalysis(), g)
  }

  /** An accepted answer is returned and stored whole, and its `data_types`
      (an empty list when absent) become the desired data types. */
  lemma AnalysisStored(g: Goal, reply: Option<string>, parse: string -> Option<Json>)
    requires DecodeReply(reply, parse, true).Some? && Accepted(DecodeReply(reply, parse, true).value)
    ensures var m := DecodeReply(reply, parse, true).value.fields;
      var r := AnalyzeObjective(g, reply, parse);
      r.0 == m && r.1.analysis == m && r.1.dataTypes == Get(m, "data_types", JArr([]))
  {
  }

  /** On any failure (no answer, an answer that does not parse, or one that is not
      an object with printable lists) the fixed default is returned and the goal is
      left exactly as it was: the default is never stored. */
  lemma AnalysisFallback(g: Goal, reply: Option<string>, parse: string -> Option<Json>)
    requires reply.None? || parse(PayloadOf(reply.value, true)).None?
             || !Accepted(parse(PayloadOf(reply.value, true)).value)
    ensures AnalyzeObjective(g, reply, parse) == (DefaultAnalysis(), g)
  {
  }

  /** The default analysis avoids login, signup and cart pages and seeks nothing, yet
      a crawler whose analysis failed keeps its empty analysis, so it avoids and
      seeks no patterns at all. */
  lemma FallbackNotApplied(objective: string, reply: Option<string>, parse: string -> Option<Json>)
    requires DecodeReply(reply, parse, true).None?
    ensures StrItems(DefaultAnalysis()["url_patterns_to_avoid"]) == ["login", "signup", "cart"]
    ensures AvoidPatterns(AnalyzeObjective(InitialGoal(objective), reply, parse).1) == []
    ensures SeekPatterns(AnalyzeObjective(InitialGoal(objective), reply, parse).1) == []
  {
    StrArrRoundTrip(["login", "signup", "cart"]);
  }

  /** A fenced answer whose body parses to an accepted analysis is stored; the
      fence and the surrounding whitespace play no part. */
  lemma FencedAnalysisStored(g: Goal, inner: string, parse: string -> Option<Json>)
    requires !Contains(inner, Fence) && (inner == [] || inner[|inner| - 1] != '`')
    requires parse(Strip(inner)).Some? && Accepted(parse(Strip(inner)).value)
    ensures AnalyzeObjective(g, Some(JsonFence + inner + Fence), parse).1.analysis
            == parse(Strip(inner)).value.fields
  {
    DecodeFenced(inner, parse);
    AnalysisStored(g, Some(JsonFence + inner + Fence), parse);
  }

  lemma DecodeFenced(inner: string, parse: string -> Option<Json>)
    requires !Contains(inner, Fence) && (inner == [] || inner[|inner| - 1] != '`')
    ensures DecodeReply(Some(JsonFence + inner + Fence), parse, true) == parse(Strip(inner))
  {
    FenceRoundTrip(JsonFence, inner, true);
  }
}
