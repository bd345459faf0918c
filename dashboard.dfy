/**
 * The dashboard's log console filter and its small display mappings: the colour classes
 * of a log type, of a statistic's trend, and of a pipeline's status.
 */
module Dashboard {
  import opened Seqs
  import opened Ids

  datatype Log = Log(id: string, time: string, logType: string, agent: string, message: string)

  /** The type filter value that lets every type through. */
  const AllTypes := "ALL"

  /** Lower-casing, on the ASCII letters. */
  function Lower(c: char): char
  {
    if 'A' <= c <= 'Z' then (c as int - 'A' as int + 'a' as int) as char else c
  }

  function LowerString(s: string): (r: string)
    ensures |r| == |s|
    ensures forall i :: 0 <= i < |r| ==> !('A' <= r[i] <= 'Z')
    ensures forall i :: 0 <= i < |s| && !('A' <= s[i] <= 'Z') ==> r[i] == s[i]
    ensures forall i :: 0 <= i < |s| && 'A' <= s[i] <= 'Z' ==> r[i] as int == s[i] as int + 32
  {
    seq(|s|, i requires 0 <= i < |s| => Lower(s[i]))
  }

  /** `hay.includes(needle)`. */
  predicate Contains(hay: string, needle: string)
    decreases |hay|
  {
    needle <= hay || (hay != [] && Contains(hay[1..], needle))
  }

  /** `needle` occurs in `hay` starting at position `i`. */
  predicate OccursAt(hay: string, needle: string, i: nat)
  {
    i + |needle| <= |hay| && hay[i..i + |needle|] == needle
  }

  /** An occurrence in the tail is an occurrence one position later in the whole. */
  lemma OccursShift(hay: string, needle: string, i: nat)
    requires hay != []
    ensures OccursAt(hay[1..], needle, i) <==> OccursAt(hay, needle, i + 1)
  {
    if i + 1 + |needle| <= |hay| {
      assert hay[1..][i..i + |needle|] == hay[i + 1..i + 1 + |needle|];
    }
  }

  /** An occurrence at the start is a prefix. */
  lemma OccursAtStart(hay: string, needle: string)
    ensures OccursAt(hay, needle, 0) <==> needle <= hay
  {
    if needle <= hay {
      assert hay[0..|needle|] == needle;
    }
  }

  /** `Contains` holds exactly when the needle occurs at some position of the haystack. */
  lemma {:induction false} ContainsIffOccurs(hay: string, needle: string)
    ensures Contains(hay, needle) <==> exists i: nat :: OccursAt(hay, needle, i)
    decreases |hay|
  {
    OccursAtStart(hay, needle);
    if !(needle <= hay) && hay != [] {
      ContainsIffOccurs(hay[1..], needle);
      if Contains(hay[1..], needle) {
        var i: nat :| OccursAt(hay[1..], needle, i);
        OccursShift(hay, needle, i);
      }
      if i: nat :| OccursAt(hay, needle, i) && i > 0 {
        OccursShift(hay, needle, i - 1);
      }
    }
  }

  /** A log matches a query when the lower-cased query occurs in its lower-cased message or agent. */
  predicate MatchesSearch(log: Log, query: string)
    ensures MatchesSearch(log, query) <==>
      (exists i: nat :: OccursAt(LowerString(log.message), LowerString(query), i)) ||
      (exists i: nat :: OccursAt(LowerString(log.agent), LowerString(query), i))
  {
    ContainsIffOccurs(LowerString(log.message), LowerString(query));
    ContainsIffOccurs(LowerString(log.agent), LowerString(query));
    Contains(LowerString(log.message), LowerString(query)) ||
    Contains(LowerString(log.agent), LowerString(query))
  }

  predicate MatchesType(log: Log, selectedType: string)
  {
    selectedType == AllTypes || log.logType == selectedType
  }

  /**
   * The logs the console lists: none for a project other than the default one, otherwise
   * those matching both the search text (in the message or the agent, ignoring case) and
   * the type filter, in their original order.
   */
  function FilteredLogs(projectId: string, logs: seq<Log>, query: string, selectedType: string): (r: seq<Log>)
    ensures projectId != DefaultProjectId ==> r == []
    ensures forall i :: 0 <= i < |r| ==>
      r[i] in logs && MatchesSearch(r[i], query) && MatchesType(r[i], selectedType)
    ensures projectId == DefaultProjectId ==>
      forall i :: 0 <= i < |logs| && MatchesSearch(logs[i], query) && MatchesType(logs[i], selectedType) ==> logs[i] in r
    ensures IsSubsequence(r, logs)
    ensures projectId == DefaultProjectId ==>
      forall log :: multiset(r)[log] ==
        if MatchesSearch(log, query) && MatchesType(log, selectedType) then multiset(logs)[log] else 0
  {
    if projectId != DefaultProjectId then []
    else
      var keep := (log: Log) => MatchesSearch(log, query) && MatchesType(log, selectedType);
      FilterIsSubsequence(logs, keep);
      FilterCount(logs, keep);
      Filter(logs, keep)
  }

  lemma LowerIdempotent(s: string)
    ensures LowerString(LowerString(s)) == LowerString(s)
  {
  }

  /** The search ignores the case of the query. */
  lemma SearchIgnoresQueryCase(logs: seq<Log>, query: string, selectedType: string)
    ensures FilteredLogs(DefaultProjectId, logs, LowerString(query), selectedType) ==
            FilteredLogs(DefaultProjectId, logs, query, selectedType)
  {
    LowerIdempotent(query);
    FilterExtensional(logs,
      (log: Log) => MatchesSearch(log, LowerString(query)) && MatchesType(log, selectedType),
      (log: Log) => MatchesSearch(log, query) && MatchesType(log, selectedType));
  }

  /** With no search text and every type selected, the default project lists every log. */
  lemma EmptySearchKeepsAll(logs: seq<Log>)
    ensures FilteredLogs(DefaultProjectId, logs, "", AllTypes) == logs
  {
    var keep := (log: Log) => MatchesSearch(log, "") && MatchesType(log, AllTypes);
    forall log | log in logs
      ensures keep(log)
    {
      assert [] <= LowerString(log.message);
    }
    FilterKeepsAll(logs, keep);
  }

  // ---------------------------------------------------------------------------
  // Display mappings

  const InfoClasses := "text-blue-400 bg-blue-400/10 border-blue-400/20"
  const WarnClasses := "text-amber-400 bg-amber-400/10 border-amber-400/20"
  const ErrorClasses := "text-rose-400 bg-rose-400/10 border-rose-400/20"
  const ExecClasses := "text-purple-400 bg-purple-400/10 border-purple-400/20"
  const OtherClasses := "text-slate-400 bg-slate-400/10 border-slate-400/20"

  function TypeColor(logType: string): (r: string)
    ensures r in {InfoClasses, WarnClasses, ErrorClasses, ExecClasses, OtherClasses}
  {
    match logType
    case "INFO" => InfoClasses
    case "WARN" => WarnClasses
    case "ERROR" => ErrorClasses
    case "EXEC" => ExecClasses
    case _ => OtherClasses
  }

  /** Each known log type has colours of its own; every other string gets the neutral ones. */
  lemma TypeColorKnownTypes(logType: string)
    ensures TypeColor(logType) == OtherClasses <==> logType !in {"INFO", "WARN", "ERROR", "EXEC"}
    ensures forall t :: t in {"INFO", "WARN", "ERROR", "EXEC"} && t != logType && logType in {"INFO", "WARN", "ERROR", "EXEC"} ==>
      TypeColor(t) != TypeColor(logType)
  {
  }

  const Emerald := "text-emerald-400"
  const Rose := "text-rose-400"
  const Slate := "text-slate-400"

  /** The colour of a statistic's change; an inverse trend is one where going up is bad. */
  function TrendColor(trend: string, inverseTrend: bool): (r: string)
    ensures r in {Emerald, Rose, Slate}
  {
    var isPositive := trend == "up";
    if inverseTrend then (if isPositive then Rose else Emerald)
    else if isPositive then Emerald
    else if trend == "down" then Rose
    else Slate
  }

  /**
   * Inverting a trend swaps the two colours of "up" and "down", and an inverse trend is
   * never shown neutral; a normal trend is neutral exactly when it is neither "up" nor "down".
   */
  lemma TrendColorCases(trend: string)
    ensures trend in {"up", "down"} ==>
      TrendColor(trend, true) == (if TrendColor(trend, false) == Rose then Emerald else Rose)
    ensures TrendColor(trend, true) != Slate
    ensures TrendColor(trend, false) == Slate <==> trend !in {"up", "down"}
  {
  }

  datatype StatusStyle = StatusStyle(dot: string, text: string)

  /** A pipeline row's style: its status's entry, or the idle entry for any other status. */
  function PipelineStyle(status: string): (r: StatusStyle)
    ensures r.dot == "bg-emerald-500" <==> status == "Running"
    ensures r.dot == "bg-rose-500" <==> status == "Error"
    ensures r.dot == "bg-slate-500" <==> status != "Running" && status != "Error"
  {
    match status
    case "Running" => StatusStyle("bg-emerald-500", "text-emerald-400")
    case "Error" => StatusStyle("bg-rose-500", "text-rose-400")
    case _ => StatusStyle("bg-slate-500", "text-slate-400")
  }

  lemma PipelineStyleFallback(status: string)
    ensures status !in {"Running", "Idle", "Error"} ==> PipelineStyle(status) == PipelineStyle("Idle")
    ensures PipelineStyle("Running") != PipelineStyle("Idle") && PipelineStyle("Error") != PipelineStyle("Idle")
  {
  }
}
