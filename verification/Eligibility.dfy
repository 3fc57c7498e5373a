/**
 * Cohort selection: screening of check-in rows, one row per logical source, the split around the
 * activation anchor, and the split by exposure.
 */
module Eligibility {
  import opened Common
  import opened Ledger
  import opened Database

  const SOURCE_PREFIX := "lifemaxxxing://daily-check-ins/"
  const LIFE_EVENT_TYPE := "life.daily_check_in.completed.v1"
  const ALLOWED_CLOCK_SKEW: Time := 300 * SECOND

  datatype Reason =
    | OTHER_SCOPE | WRONG_DOMAIN_PACK | WRONG_SUBJECT | WRONG_KNOWLEDGE_CLASS | WRONG_EVENT_TYPE
    | MISSING_OCCURRED_AT | SOURCE_ID_FORMAT_REQUIRED | MISSING_REQUIRED_FIELDS | INVALID_VALUES
    | INVALID_SLEEP_HOURS | INVALID_PRODUCTIVITY | DUPLICATE_SOURCE_CONFLICT | DUPLICATE_LOGICAL_SOURCE
    | OCCURRED_AT_IN_FUTURE | BACKFILLED_AFTER_ACTIVATION | PROSPECTIVE_REQUIRES_POST_ACTIVATION_GLOBAL_POSITION
    | PROSPECTIVE_RECORDED_BEFORE_ACTIVATION | OBSERVATION_RECORDED_AFTER_CUTOFF | BETWEEN_BASELINE_AND_PROSPECTIVE

  datatype Eligible = Eligible(
    observationId: string, eventId: string, occurredAt: Time, sleep: real, productivity: real,
    attributes: map<string, Json>, source: string, position: nat, recordedAt: Time, mappingVersion: Option<string>)

  datatype Screening = Admitted(observation: Eligible) | Excluded(reason: Reason)

  /** What converting a text to a float gives. */
  datatype Number = Finite(value: real) | NonFinite | NotANumber

  // ---- screening one row --------------------------------------------------------------------

  predicate IsSourceChar(c: char) {
    'A' <= c <= 'Z' || 'a' <= c <= 'z' || '0' <= c <= '9' || c == '_' || c == '-'
  }

  predicate IsSourceName(id: string) { |id| > 0 && forall i :: 0 <= i < |id| ==> IsSourceChar(id[i]) }

  /** The prefix, one or more id characters, and possibly one line break, which the end anchor lets pass. */
  predicate IsSourceId(s: string) {
    && |s| > |SOURCE_PREFIX| && s[..|SOURCE_PREFIX|] == SOURCE_PREFIX
    && IsSourceName(if s[|s| - 1] == '\n' then s[|SOURCE_PREFIX|..|s| - 1] else s[|SOURCE_PREFIX|..])
  }

  function LogicalSource(ids: seq<string>): Option<string> {
    if |ids| == 0 then None else if IsSourceId(ids[0]) then Some(ids[0]) else LogicalSource(ids[1..])
  }

  function Attributes(context: map<string, Json>): map<string, Json> {
    if "attributes" in context && context["attributes"].JObject? then context["attributes"].fields else map[]
  }

  /** A value to a float: booleans are 0 and 1, texts are parsed, lists and objects are refused. */
  function ToFloat(v: Json, parse: string -> Number): Number {
    match v
    case JNull => NotANumber
    case JBool(b) => Finite(if b then 1.0 else 0.0)
    case JNumber(n) => Finite(n)
    case JString(s) => parse(s)
    case JArray(_) => NotANumber
    case JObject(_) => NotANumber
  }

  predicate Within(n: Number, low: real, high: real) { n.Finite? && low <= n.value <= high }

  predicate Absent(m: map<string, Json>, name: string) { name !in m || m[name].JNull? }

  function MappingVersion(meta: map<string, Json>, attributes: map<string, Json>): Option<string> {
    if "mapping_version" in meta && meta["mapping_version"].JString? then Some(meta["mapping_version"].s)
    else if "mapping_version" in attributes && attributes["mapping_version"].JString?
        then Some(attributes["mapping_version"].s)
    else None
  }

  function Screen(r: Row, k: StreamKey, parse: string -> Number): Screening {
    var attributes := Attributes(r.context);
    if r.tenantId != k.tenantId || r.ownerId != k.ownerId || r.applicationId != k.applicationId
        then Excluded(OTHER_SCOPE)
    else if r.domainPack != "life" then Excluded(WRONG_DOMAIN_PACK)
    else if r.subject != "daily_check_in" then Excluded(WRONG_SUBJECT)
    else if r.knowledgeClass != "OBSERVED_FACT" then Excluded(WRONG_KNOWLEDGE_CLASS)
    else if "life_event_type" !in r.metadata || r.metadata["life_event_type"] != JString(LIFE_EVENT_TYPE)
        then Excluded(WRONG_EVENT_TYPE)
    else if r.occurredAt.None? then Excluded(MISSING_OCCURRED_AT)
    else if LogicalSource(r.sourceIds).None? then Excluded(SOURCE_ID_FORMAT_REQUIRED)
    else if Absent(attributes, "sleep_hours") || Absent(attributes, "productivity")
        then Excluded(MISSING_REQUIRED_FIELDS)
    else
      var sleep, productivity := ToFloat(attributes["sleep_hours"], parse), ToFloat(attributes["productivity"], parse);
      if sleep.NotANumber? || productivity.NotANumber? then Excluded(INVALID_VALUES)
      else if !Within(sleep, 0.0, 24.0) then Excluded(INVALID_SLEEP_HOURS)
      else if !Within(productivity, 1.0, 10.0) then Excluded(INVALID_PRODUCTIVITY)
      else Admitted(Eligible(r.observationId, r.eventId, r.occurredAt.value, sleep.value, productivity.value,
                             attributes,
                             LogicalSource(r.sourceIds).value, r.position, r.createdAt,
                             MappingVersion(r.metadata, attributes)))
  }

  /** Two admitted rows of one source that differ in what the analysis uses. */
  predicate Conflicts(a: Eligible, b: Eligible) {
    a.sleep != b.sleep || a.productivity != b.productivity || a.occurredAt != b.occurredAt
    || a.mappingVersion != b.mappingVersion
  }

  // ---- the order rows are taken in ----------------------------------------------------------

  predicate Precedes(a: Row, b: Row) {
    a.position < b.position || (a.position == b.position && StringLeq(a.observationId, b.observationId))
  }

  predicate SameKey(a: Row, b: Row) { a.position == b.position && a.observationId == b.observationId }

  function Insert(r: Row, rows: seq<Row>): seq<Row> {
    if |rows| == 0 || Precedes(r, rows[0]) then [r] + rows else [rows[0]] + Insert(r, rows[1..])
  }

  function Sorted(rows: seq<Row>): seq<Row> {
    if |rows| == 0 then [] else Insert(rows[0], Sorted(rows[1..]))
  }

  // ---- one row per source -------------------------------------------------------------------

  /** The rows kept, in the order they were, and the count of each reason for leaving one out. */
  datatype Selection = Selection(kept: seq<Eligible>, excluded: nat, reasons: map<Reason, nat>, critical: bool)

  const NONE_SELECTED := Selection([], 0, map[], false)

  function Bumped(reasons: map<Reason, nat>, r: Reason): map<Reason, nat> { reasons[r := Count(reasons, r) + 1] }

  function Count(reasons: map<Reason, nat>, r: Reason): nat { if r in reasons then reasons[r] else 0 }

  function Exclude(s: Selection, r: Reason): Selection {
    s.(excluded := s.excluded + 1, reasons := Bumped(s.reasons, r))
  }

  /** The kept row of a source. */
  function KeptOf(kept: seq<Eligible>, source: string): Option<Eligible> {
    if |kept| == 0 then None
    else if kept[|kept| - 1].source == source then Some(kept[|kept| - 1])
    else KeptOf(kept[..|kept| - 1], source)
  }

  function Take(s: Selection, r: Row, k: StreamKey, parse: string -> Number): Selection {
    match Screen(r, k, parse)
    case Excluded(reason) => Exclude(s, reason)
    case Admitted(o) =>
      match KeptOf(s.kept, o.source)
      case None => s.(kept := s.kept + [o])
      case Some(first) =>
        if Conflicts(first, o) then Exclude(s, DUPLICATE_SOURCE_CONFLICT).(critical := true)
        else Exclude(s, DUPLICATE_LOGICAL_SOURCE)
  }

  function TakeAll(rows: seq<Row>, k: StreamKey, parse: string -> Number): Selection {
    if |rows| == 0 then NONE_SELECTED else Take(TakeAll(rows[..|rows| - 1], k, parse), rows[|rows| - 1], k, parse)
  }

  function Select(rows: seq<Row>, k: StreamKey, parse: string -> Number): Selection { TakeAll(Sorted(rows), k, parse) }

  /** Selection as it runs: sort, then one pass filling a map from source to its first row. */
  method SelectEligible(rows: seq<Row>, k: StreamKey, parse: string -> Number)
    returns (kept: seq<Eligible>, excluded: nat, reasons: map<Reason, nat>, critical: bool)
    ensures Selection(kept, excluded, reasons, critical) == Select(rows, k, parse)
  {
    hide Screen, Conflicts;
    var ordered := Sorted(rows);
    var bySource: map<string, Eligible> := map[];
    kept, excluded, reasons, critical := [], 0, map[], false;
    for i := 0 to |ordered|
      invariant Selection(kept, excluded, reasons, critical) == TakeAll(ordered[..i], k, parse)
      invariant forall source :: KeptOf(kept, source) == if source in bySource then Some(bySource[source]) else None
    {
      assert ordered[..i + 1][..i] == ordered[..i];
      var screening := Screen(ordered[i], k, parse);
      var reason: Option<Reason> := None;
      match screening {
        case Excluded(why) => reason := Some(why);
        case Admitted(o) =>
          if o.source !in bySource {
            bySource := bySource[o.source := o];
            assert (kept + [o])[..|kept|] == kept;
            kept := kept + [o];
          } else if Conflicts(bySource[o.source], o) {
            reason, critical := Some(DUPLICATE_SOURCE_CONFLICT), true;
          } else {
            reason := Some(DUPLICATE_LOGICAL_SOURCE);
          }
      }
      if reason.Some? { excluded, reasons := excluded + 1, Bumped(reasons, reason.value); }
    }
    assert ordered[..|ordered|] == ordered;
  }

  // ---- around the activation anchor ---------------------------------------------------------

  datatype Anchors = Anchors(
    baselineCutoff: Time, prospectiveStart: Time, activationPosition: nat, activationRecordedAt: Time,
    cutoffPosition: nat, cutoffRecordedAt: Time, startedAt: Time)

  datatype Placement = Baseline | Prospective | Left(reason: Reason)

  function Place(o: Eligible, a: Anchors): Placement {
    if o.occurredAt > a.startedAt + ALLOWED_CLOCK_SKEW then Left(OCCURRED_AT_IN_FUTURE)
    else if o.occurredAt < a.baselineCutoff then
      if o.position < a.activationPosition && o.recordedAt <= a.activationRecordedAt then Baseline
      else Left(BACKFILLED_AFTER_ACTIVATION)
    else if o.occurredAt >= a.prospectiveStart then
      if o.position <= a.activationPosition then Left(PROSPECTIVE_REQUIRES_POST_ACTIVATION_GLOBAL_POSITION)
      else if o.recordedAt < a.activationRecordedAt then Left(PROSPECTIVE_RECORDED_BEFORE_ACTIVATION)
      else if o.position > a.cutoffPosition then Left(OBSERVATION_RECORDED_AFTER_CUTOFF)
      else if o.recordedAt > a.cutoffRecordedAt then Left(OBSERVATION_RECORDED_AFTER_CUTOFF)
      else Prospective
    else Left(BETWEEN_BASELINE_AND_PROSPECTIVE)
  }

  /** The observations placed in a cohort, in order. */
  function Cohort(eligible: seq<Eligible>, a: Anchors, p: Placement): seq<Eligible> {
    if |eligible| == 0 then []
    else
      var rest, o := Cohort(eligible[..|eligible| - 1], a, p), eligible[|eligible| - 1];
      if Place(o, a) == p then rest + [o] else rest
  }

  function LeftOut(eligible: seq<Eligible>, a: Anchors): map<Reason, nat> {
    if |eligible| == 0 then map[]
    else
      var rest, p := LeftOut(eligible[..|eligible| - 1], a), Place(eligible[|eligible| - 1], a);
      if p.Left? then Bumped(rest, p.reason) else rest
  }

  method SplitByTemporalAnchors(eligible: seq<Eligible>, a: Anchors)
    returns (baseline: seq<Eligible>, prospective: seq<Eligible>, exclusions: map<Reason, nat>)
    ensures baseline == Cohort(eligible, a, Baseline) && prospective == Cohort(eligible, a, Prospective)
    ensures exclusions == LeftOut(eligible, a)
  {
    baseline, prospective, exclusions := [], [], map[];
    var futureLimit := a.startedAt + ALLOWED_CLOCK_SKEW;
    for i := 0 to |eligible|
      invariant baseline == Cohort(eligible[..i], a, Baseline) && prospective == Cohort(eligible[..i], a, Prospective)
      invariant exclusions == LeftOut(eligible[..i], a)
    {
      assert eligible[..i + 1][..i] == eligible[..i];
      var o := eligible[i];
      if o.occurredAt > futureLimit {
        exclusions := Bumped(exclusions, OCCURRED_AT_IN_FUTURE);
      } else if o.occurredAt < a.baselineCutoff {
        if o.position < a.activationPosition && o.recordedAt <= a.activationRecordedAt {
          baseline := baseline + [o];
        } else {
          exclusions := Bumped(exclusions, BACKFILLED_AFTER_ACTIVATION);
        }
      } else if o.occurredAt >= a.prospectiveStart {
        if o.position <= a.activationPosition {
          exclusions := Bumped(exclusions, PROSPECTIVE_REQUIRES_POST_ACTIVATION_GLOBAL_POSITION);
        } else if o.recordedAt < a.activationRecordedAt {
          exclusions := Bumped(exclusions, PROSPECTIVE_RECORDED_BEFORE_ACTIVATION);
        } else if o.position > a.cutoffPosition || o.recordedAt > a.cutoffRecordedAt {
          exclusions := Bumped(exclusions, OBSERVATION_RECORDED_AFTER_CUTOFF);
        } else {
          prospective := prospective + [o];
        }
      } else {
        exclusions := Bumped(exclusions, BETWEEN_BASELINE_AND_PROSPECTIVE);
      }
    }
    assert eligible[..|eligible|] == eligible;
  }

  /** The cohort members at or above the threshold, or those below it. */
  function Exposed(cohort: seq<Eligible>, threshold: real, sufficient: bool): seq<Eligible> {
    if |cohort| == 0 then []
    else
      var rest, o := Exposed(cohort[..|cohort| - 1], threshold, sufficient), cohort[|cohort| - 1];
      if (o.sleep >= threshold) == sufficient then rest + [o] else rest
  }
}
