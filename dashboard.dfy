/**
 * The round-table web dashboard (dashboard.py): the module-level `history` list that
 * `api_discuss` appends to, the "last ten" view, the health report and the per-language and
 * per-project-type statistics.
 *
 * The Flask request, the event loop and the discussion itself are inputs: a request is either
 * a JSON object of string fields or a body that reading already failed on, and the discussion
 * yields one of three outcomes. Python dicts that are rendered in insertion order are
 * `OrderedDict` sequences.
 */
module Dashboard {
  import opened Outcomes
  import opened OrderedDict
  import RoundTableSim
  import RoundTableSafe

  /** One `history` entry; `language` and `project_type` are read back with `.get(key, 'unknown')`. */
  datatype HistoryEntry = HistoryEntry(
    task: string,
    language: Option<string>,
    projectType: Option<string>,
    timestamp: string,
    codeLength: nat)

  /** The body of a POST to `/api/discuss`: a JSON object of string fields, or the exception
      reading it raised (its text is the message of the 500 answer). */
  datatype Request = JsonBody(fields: map<string, string>) | Unreadable(message: string)

  /** What `round_table.discuss(task, context)` gives back. `RoundTable` is the class imported
      from round_table.py, whose tail rebinds it to the restricted round table whenever that
      import succeeds: then the result is that class's namespace, which has no `task`. */
  datatype DiscussOutcome =
    | Raised(message: string)
    | Namespace(discussion: RoundTableSafe.Discussion)
    | Completed(result: RoundTableSim.RoundTableResult, timestamp: string)

  /** One entry of `individual_responses` in the answer; the confidence is not modelled. */
  datatype ResponseView = ResponseView(model: string, focusArea: string, recommendation: string)

  datatype Payload = Payload(
    task: string,
    consensusCode: string,
    discussionSummary: string,
    finalRecommendation: string,
    timestamp: string,
    individualResponses: seq<ResponseView>)

  datatype Response = Json(payload: Payload) | Error(status: nat, message: string)

  const NoTaskMessage := "Keine Aufgabe angegeben"

  /** `str(e)` of the AttributeError raised by `result.task` on the restricted round table's result. */
  const NoTaskAttribute := "'types.SimpleNamespace' object has no attribute 'task'"

  /** The JSON answer of a completed discussion: it echoes the result, not the request. */
  function PayloadOf(result: RoundTableSim.RoundTableResult, timestamp: string): (p: Payload)
    ensures |p.individualResponses| == |result.individualResponses|
    ensures forall i :: 0 <= i < |p.individualResponses| ==>
      p.individualResponses[i].model == RoundTableSim.ModelValue(result.individualResponses[i].model)
      && p.individualResponses[i].recommendation == result.individualResponses[i].recommendation
    ensures p.task == result.task && p.consensusCode == result.consensusCode
  {
    var rs := result.individualResponses;
    Payload(result.task, result.consensusCode, result.discussionSummary, result.finalRecommendation,
      timestamp,
      seq(|rs|, i requires 0 <= i < |rs| =>
        ResponseView(RoundTableSim.ModelValue(rs[i].model), rs[i].focusArea, rs[i].recommendation)))
  }

  /** `history[-10:]`: the last ten entries, or all of them when there are fewer, in order. */
  function LastTen(history: seq<HistoryEntry>): (view: seq<HistoryEntry>)
    ensures |view| == if |history| < 10 then |history| else 10
    ensures forall i :: 0 <= i < |view| ==> view[i] == history[|history| - |view| + i]
  {
    var start := if |history| >= 10 then |history| - 10 else 0;
    history[start..]
  }

  /** After one more entry the view ends with it, and loses its oldest entry once it was full. */
  lemma LastTenAfterAppend(history: seq<HistoryEntry>, entry: HistoryEntry)
    ensures LastTen(history + [entry]) ==
      (if |history| < 10 then history else LastTen(history)[1..]) + [entry]
  {
    var h := history + [entry];
    if |history| >= 10 {
      assert h[|h| - 10..] == history[|history| - 9..] + [entry];
    } else {
      assert h == history + [entry];
    }
  }

  // ----- Counting ----------------------------------------------------------------------------------

  /** The key an entry is counted under: its value, or 'unknown' when it is missing. */
  function KeyOrUnknown(v: Option<string>): string
  {
    match v
    case Some(k) => k
    case None => "unknown"
  }

  function LanguageKeys(history: seq<HistoryEntry>): (keys: seq<string>)
  {
    seq(|history|, i requires 0 <= i < |history| => KeyOrUnknown(history[i].language))
  }

  function ProjectTypeKeys(history: seq<HistoryEntry>): (keys: seq<string>)
  {
    seq(|history|, i requires 0 <= i < |history| => KeyOrUnknown(history[i].projectType))
  }

  /** `counts[key] = counts.get(key, 0) + 1` */
  function Tally(counts: seq<Entry<string, nat>>, key: string): seq<Entry<string, nat>>
  {
    Put(counts, key, ValueOr(counts, key, 0) + 1)
  }

  /** The dict that tallying every key of `keys` in turn builds, in insertion order. */
  function Histogram(keys: seq<string>): seq<Entry<string, nat>>
  {
    if keys == [] then [] else Tally(Histogram(keys[..|keys| - 1]), keys[|keys| - 1])
  }

  lemma HistogramStep(keys: seq<string>, key: string)
    ensures Histogram(keys + [key]) == Tally(Histogram(keys), key)
  {
    assert (keys + [key])[..|keys|] == keys;
  }

  /** Every key is counted as often as it occurs; a key that never occurs reads as 0. */
  lemma {:induction false} HistogramCounts(keys: seq<string>)
    ensures forall k :: ValueOr(Histogram(keys), k, 0) == multiset(keys)[k]
  {
    if keys != [] {
      var front := keys[..|keys| - 1];
      var key := keys[|keys| - 1];
      assert keys == front + [key];
      HistogramCounts(front);
      HistogramStep(front, key);
      PutGet(Histogram(front), key, ValueOr(Histogram(front), key, 0) + 1);
    }
  }

  /** The sum of the counts of a dict. */
  function Total(d: seq<Entry<string, nat>>): nat
  {
    if d == [] then 0 else d[0].value + Total(d[1..])
  }

  lemma {:induction false} TotalPut(d: seq<Entry<string, nat>>, key: string, value: nat)
    ensures Total(Put(d, key, value)) + ValueOr(d, key, 0) == Total(d) + value
  {
    if d != [] && d[0].key != key {
      TotalPut(d[1..], key, value);
      assert Put(d, key, value)[1..] == Put(d[1..], key, value);
    }
  }

  lemma TotalTally(counts: seq<Entry<string, nat>>, key: string)
    ensures Total(Tally(counts, key)) == Total(counts) + 1
  {
    TotalPut(counts, key, ValueOr(counts, key, 0) + 1);
  }

  /** The counts add up to the number of keys counted. */
  lemma {:induction false} HistogramTotal(keys: seq<string>)
    ensures Total(Histogram(keys)) == |keys|
  {
    if keys != [] {
      var front := keys[..|keys| - 1];
      var key := keys[|keys| - 1];
      assert keys == front + [key];
      HistogramTotal(front);
      HistogramStep(front, key);
      TotalTally(Histogram(front), key);
    }
  }

  datatype Stats = Stats(
    totalTasks: nat,
    languages: seq<Entry<string, nat>>,
    projectTypes: seq<Entry<string, nat>>)

  /** Both histograms of `api_stats` count every entry of the history exactly once. */
  lemma StatsAddUp(history: seq<HistoryEntry>)
    ensures Total(Histogram(LanguageKeys(history))) == |history|
    ensures Total(Histogram(ProjectTypeKeys(history))) == |history|
    ensures forall k :: ValueOr(Histogram(LanguageKeys(history)), k, 0) == multiset(LanguageKeys(history))[k]
    ensures forall k :: ValueOr(Histogram(ProjectTypeKeys(history)), k, 0) == multiset(ProjectTypeKeys(history))[k]
  {
    HistogramTotal(LanguageKeys(history));
    HistogramTotal(ProjectTypeKeys(history));
    HistogramCounts(LanguageKeys(history));
    HistogramCounts(ProjectTypeKeys(history));
  }

  datatype HealthReport = HealthReport(status: string, roundTableInitialized: bool, historyCount: nat)

  /** The dashboard application: its only state is the discussion history. */
  class App {
    var history: seq<HistoryEntry>

    constructor()
      ensures history == []
    {
      history := [];
    }

    /**
     * `api_discuss`. A request without a task, or with an empty one, is answered with 400; an
     * unreadable body, a discussion that raised, and a result without `task` with 500. Only a
     * completed discussion is answered with its payload, and only then, after the payload, is
     * one entry appended to the history.
     */
    method ApiDiscuss(request: Request, outcome: DiscussOutcome) returns (response: Response)
      modifies this
      ensures response.Error? ==> history == old(history)
      ensures request.Unreadable? ==> response == Error(500, request.message)
      ensures request.JsonBody? && ("task" !in request.fields || request.fields["task"] == "") ==>
        response == Error(400, NoTaskMessage)
      ensures request.JsonBody? && "task" in request.fields && request.fields["task"] != "" ==>
        match outcome
        case Raised(message) => response == Error(500, message)
        case Namespace(_) => response == Error(500, NoTaskAttribute)
        case Completed(result, timestamp) =>
          && response == Json(PayloadOf(result, timestamp))
          && history == old(history) + [HistoryEntry(
               request.fields["task"],
               Some(GetOr(request.fields, "language", "python")),
               Some(GetOr(request.fields, "project_type", "module")),
               timestamp,
               |result.consensusCode|)]
    {
      if request.Unreadable? {
        return Error(500, request.message);
      }
      var data := request.fields;
      var task := if "task" in data then Some(data["task"]) else None;
      var language := GetOr(data, "language", "python");
      var projectType := GetOr(data, "project_type", "module");
      if task.None? || task.value == "" {
        return Error(400, NoTaskMessage);
      }
      match outcome {
        case Raised(message) =>
          return Error(500, message);
        case Namespace(_) =>
          return Error(500, NoTaskAttribute);
        case Completed(result, timestamp) =>
          var payload := PayloadOf(result, timestamp);
          history := history + [HistoryEntry(task.value, Some(language), Some(projectType),
            timestamp, |result.consensusCode|)];
          return Json(payload);
      }
    }

    /** `api_history` */
    function ApiHistory(): (view: seq<HistoryEntry>)
      reads this
      ensures view == LastTen(history)
      ensures |history| <= 10 ==> view == history
    {
      LastTen(history)
    }

    /** `api_health` */
    function ApiHealth(): (report: HealthReport)
      reads this
      ensures report.historyCount == |history|
    {
      HealthReport("healthy", true, |history|)
    }

    /** `api_stats`: the number of entries and, for each language and each project type, how
        many entries carry it. */
    method ApiStats() returns (stats: Stats)
      ensures stats.totalTasks == |history|
      ensures stats.languages == Histogram(LanguageKeys(history))
      ensures stats.projectTypes == Histogram(ProjectTypeKeys(history))
    {
      var totalTasks := |history|;
      if totalTasks == 0 {
        return Stats(0, [], []);
      }
      var languages: seq<Entry<string, nat>> := [];
      for i := 0 to |history|
        invariant languages == Histogram(LanguageKeys(history)[..i])
      {
        var lang := KeyOrUnknown(history[i].language);
        assert LanguageKeys(history)[..i + 1] == LanguageKeys(history)[..i] + [lang];
        HistogramStep(LanguageKeys(history)[..i], lang);
        languages := Tally(languages, lang);
      }
      var projectTypes: seq<Entry<string, nat>> := [];
      for i := 0 to |history|
        invariant projectTypes == Histogram(ProjectTypeKeys(history)[..i])
      {
        var ptype := KeyOrUnknown(history[i].projectType);
        assert ProjectTypeKeys(history)[..i + 1] == ProjectTypeKeys(history)[..i] + [ptype];
        HistogramStep(ProjectTypeKeys(history)[..i], ptype);
        projectTypes := Tally(projectTypes, ptype);
      }
      assert LanguageKeys(history)[..|history|] == LanguageKeys(history);
      assert ProjectTypeKeys(history)[..|history|] == ProjectTypeKeys(history);
      return Stats(totalTasks, languages, projectTypes);
    }
  }
}
