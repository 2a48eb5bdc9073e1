/** The one-shot migration that replaces embedded outcomes by references to their retained records. */
module Compaction {
  import opened Lines
  import opened Wrappers
  import Pressure = PressureReplay

  datatype Json = Obj(fields: map<string, Json>) | Str(text: string) | Int(number: int) | OtherJson(text: string)

  /** Text encodings of JSON values, with and without spaces, and the content digest. */
  datatype Codec = Codec(loads: seq<Byte> -> Option<Json>, dumps: Json -> seq<Byte>,
                         compact: Json -> seq<Byte>, digest: seq<Byte> -> string) {

    /** What is assumed of them: decoding inverts encoding, an encoded value holds no line break,
        and distinct bytes have distinct digests. */
    ghost predicate Lawful() {
      && (forall j :: loads(dumps(j)) == Some(j))
      && (forall j :: loads(compact(j) + [NEWLINE]) == Some(j))
      && (forall j :: NEWLINE !in compact(j))
      && (forall a, b :: digest(a) == digest(b) ==> a == b)
    }
  }

  /** Where an outcome may be retained: with one attempt, or under the job's latest name. */
  datatype Candidate = OfAttempt(job: string, attempt: int) | Latest(job: string)

  /** The readable outcome files: each candidate's resolved path and bytes. */
  type Jobs = map<Candidate, (string, seq<Byte>)>

  const SHARED := {"attempt", "outcome", "exit_code", "unit", "pool"}

  predicate Embeds(event: map<string, Json>) {
    && "kind" in event && event["kind"] == Str("queue-task")
    && "phase" in event && event["phase"] == Str("finished")
    && "execution_receipt" in event && "outcome_ref" !in event
  }

  predicate JobName(job: string) {
    '/' !in job && job != "." && job != ".." && job != ""
  }

  function Candidates(event: map<string, Json>, job: string): seq<Candidate> {
    (if "attempt" in event && event["attempt"].Int? && event["attempt"].number > 0
     then [OfAttempt(job, event["attempt"].number)] else []) + [Latest(job)]
  }

  function Reference(path: string, sha256: string): Json {
    Obj(map["path" := Str(path), "sha256" := Str(sha256)])
  }

  /** The event without the fields only the outcome holds, and with a reference to the outcome. */
  function Compacted(event: map<string, Json>, outcome: map<string, Json>, reference: Json): map<string, Json> {
    (map key | key in event && (key !in outcome || key in SHARED) :: event[key])["outcome_ref" := reference]
  }

  /** Reading a compacted event back: its own fields, and the referenced outcome's. */
  function Merged(compacted: map<string, Json>, outcome: map<string, Json>): map<string, Json> {
    (compacted - {"outcome_ref"}) + outcome
  }

  /** The candidate's outcome, when its bytes are those the embedded fields were published from. */
  function Match(codec: Codec, event: map<string, Json>, candidate: Candidate, jobs: Jobs)
    : Option<map<string, Json>>
  {
    if candidate !in jobs then None
    else
      var payload := jobs[candidate].1;
      match codec.loads(payload)
      case Some(Obj(outcome)) =>
        if "execution_receipt" !in outcome || !(outcome.Keys <= event.Keys) then None
        else
          var embedded := map key | key in outcome :: event[key];
          if codec.digest(codec.dumps(Obj(embedded))) == codec.digest(payload) then Some(outcome) else None
      case _ => None
  }

  /** The first candidate that matches, compacted. */
  function Resolve(codec: Codec, event: map<string, Json>, candidates: seq<Candidate>, jobs: Jobs)
    : Option<map<string, Json>>
  {
    if candidates == [] then None
    else
      match Match(codec, event, candidates[0], jobs)
      case Some(outcome) =>
        var (path, payload) := jobs[candidates[0]];
        Some(Compacted(event, outcome, Reference(path, codec.digest(payload))))
      case None => Resolve(codec, event, candidates[1..], jobs)
  }

  /** The replacement of one line, and whether the line embeds an outcome. */
  function Rewrite(codec: Codec, raw: seq<Byte>, jobs: Jobs): (seq<Byte>, bool) {
    match codec.loads(raw)
    case Some(Obj(event)) =>
      if !Embeds(event) then (raw, false)
      else if "job_id" !in event || !event["job_id"].Str? || !JobName(event["job_id"].text) then (raw, true)
      else
        (match Resolve(codec, event, Candidates(event, event["job_id"].text), jobs)
         case Some(compacted) => (codec.compact(Obj(compacted)) + [NEWLINE], true)
         case None => (raw, true))
    case _ => (raw, false)
  }

  // ------------------------------------------------------------- one line

  lemma MergeInverts(codec: Codec, event: map<string, Json>, candidate: Candidate, jobs: Jobs)
    requires codec.Lawful() && Embeds(event) && Match(codec, event, candidate, jobs).Some?
    ensures var outcome := Match(codec, event, candidate, jobs).value;
            forall reference :: Merged(Compacted(event, outcome, reference), outcome) == event
  {
    var outcome := Match(codec, event, candidate, jobs).value;
    var embedded := map key | key in outcome :: event[key];
    assert codec.dumps(Obj(embedded)) == jobs[candidate].1;
    assert codec.loads(codec.dumps(Obj(embedded))) == Some(Obj(embedded));
    assert outcome == embedded;
    forall reference ensures Merged(Compacted(event, outcome, reference), outcome) == event {
      var merged := Merged(Compacted(event, outcome, reference), outcome);
      assert merged.Keys == event.Keys;
      assert forall key :: key in event ==> merged[key] == event[key];
    }
  }

  /** The retained outcome a compacted event refers to, and the event it stands for. */
  ghost predicate Refers(codec: Codec, compacted: map<string, Json>, event: map<string, Json>, jobs: Jobs,
                         candidate: Candidate, outcome: map<string, Json>)
  {
    && candidate in jobs && codec.loads(jobs[candidate].1) == Some(Obj(outcome))
    && "outcome_ref" in compacted
    && compacted["outcome_ref"] == Reference(jobs[candidate].0, codec.digest(jobs[candidate].1))
    && Merged(compacted, outcome) == event
  }

  lemma {:induction false} ResolveRefers(codec: Codec, event: map<string, Json>, candidates: seq<Candidate>, jobs: Jobs)
    requires codec.Lawful() && Embeds(event) && Resolve(codec, event, candidates, jobs).Some?
    ensures exists candidate, outcome ::
      Refers(codec, Resolve(codec, event, candidates, jobs).value, event, jobs, candidate, outcome)
  {
    if Match(codec, event, candidates[0], jobs).Some? {
      MergeInverts(codec, event, candidates[0], jobs);
      var outcome := Match(codec, event, candidates[0], jobs).value;
      assert Refers(codec, Resolve(codec, event, candidates, jobs).value, event, jobs, candidates[0], outcome);
    } else {
      ResolveRefers(codec, event, candidates[1..], jobs);
    }
  }

  /** A rewritten line is a compacted event whose merge with the outcome it names is the original event. */
  lemma Lossless(codec: Codec, raw: seq<Byte>, jobs: Jobs)
    requires codec.Lawful() && Rewrite(codec, raw, jobs).0 != raw
    ensures codec.loads(raw).Some? && codec.loads(raw).value.Obj?
    ensures codec.loads(Rewrite(codec, raw, jobs).0).Some? && codec.loads(Rewrite(codec, raw, jobs).0).value.Obj?
    ensures exists candidate, outcome ::
      Refers(codec, codec.loads(Rewrite(codec, raw, jobs).0).value.fields, codec.loads(raw).value.fields,
             jobs, candidate, outcome)
  {
    var event := codec.loads(raw).value.fields;
    var candidates := Candidates(event, event["job_id"].text);
    ResolveRefers(codec, event, candidates, jobs);
    var compacted := Resolve(codec, event, candidates, jobs).value;
    assert codec.loads(codec.compact(Obj(compacted)) + [NEWLINE]) == Some(Obj(compacted));
  }

  /** A finished queue task whose outcome is still embedded. */
  predicate HoldsOutcome(event: map<string, Json>) {
    && "kind" in event && event["kind"] == Str("queue-task") && "phase" in event && event["phase"] == Str("finished")
    && "execution_receipt" in event && "outcome_ref" !in event
  }

  /** The file is the encoding of fields that the event still holds, the execution receipt among them. */
  ghost predicate PublishedFrom(codec: Codec, event: map<string, Json>, payload: seq<Byte>,
                                outcome: map<string, Json>) {
    && payload == codec.dumps(Obj(outcome)) && "execution_receipt" in outcome
    && forall key :: key in outcome ==> key in event && event[key] == outcome[key]
  }

  lemma MatchMeans(codec: Codec, event: map<string, Json>, candidate: Candidate, jobs: Jobs, outcome: map<string, Json>)
    requires codec.Lawful()
    ensures Match(codec, event, candidate, jobs) == Some(outcome)
       <==> candidate in jobs && PublishedFrom(codec, event, jobs[candidate].1, outcome)
  {
    if candidate in jobs {
      var payload := jobs[candidate].1;
      if PublishedFrom(codec, event, payload, outcome) {
        assert codec.loads(payload) == Some(Obj(outcome));
        assert outcome.Keys <= event.Keys;
        var embedded := map key | key in outcome :: event[key];
        assert embedded == outcome;
      }
      if Match(codec, event, candidate, jobs) == Some(outcome) {
        var embedded := map key | key in outcome :: event[key];
        assert codec.dumps(Obj(embedded)) == payload;
        assert codec.loads(codec.dumps(Obj(embedded))) == Some(Obj(embedded));
      }
    }
  }

  /** The retained outcome of the event: with its attempt, if it names a positive one and that file matches, and
      otherwise under the job's latest name. */
  ghost predicate OutcomeIs(codec: Codec, event: map<string, Json>, job: string, jobs: Jobs, candidate: Candidate,
                            outcome: map<string, Json>)
  {
    && candidate in jobs && PublishedFrom(codec, event, jobs[candidate].1, outcome)
    && (|| (candidate.OfAttempt? && candidate.job == job && candidate.attempt > 0
            && "attempt" in event && event["attempt"] == Int(candidate.attempt))
        || (candidate == Latest(job) && NoneOfAttempt(codec, event, job, jobs)))
  }

  /** No file with the event's attempt holds its outcome. */
  ghost predicate NoneOfAttempt(codec: Codec, event: map<string, Json>, job: string, jobs: Jobs) {
    forall number: int, other: map<string, Json> ::
      number > 0 && "attempt" in event && event["attempt"] == Int(number) && OfAttempt(job, number) in jobs ==>
        !PublishedFrom(codec, event, jobs[OfAttempt(job, number)].1, other)
  }

  predicate NamesAttempt(event: map<string, Json>) {
    "attempt" in event && event["attempt"].Int? && event["attempt"].number > 0
  }

  lemma AttemptDecides(codec: Codec, event: map<string, Json>, job: string, jobs: Jobs)
    requires codec.Lawful()
    ensures !NamesAttempt(event) ==> NoneOfAttempt(codec, event, job, jobs)
    ensures NamesAttempt(event) && Match(codec, event, OfAttempt(job, event["attempt"].number), jobs) == None ==>
              NoneOfAttempt(codec, event, job, jobs)
  {
    if NamesAttempt(event) {
      var first := OfAttempt(job, event["attempt"].number);
      forall other: map<string, Json> | Match(codec, event, first, jobs) == None && first in jobs
        ensures !PublishedFrom(codec, event, jobs[first].1, other)
      {
        MatchMeans(codec, event, first, jobs, other);
      }
    }
  }

  lemma CandidatesAre(event: map<string, Json>, job: string)
    ensures Candidates(event, job)
         == if NamesAttempt(event) then [OfAttempt(job, event["attempt"].number), Latest(job)] else [Latest(job)]
  {}

  lemma OutcomeIsMatched(codec: Codec, event: map<string, Json>, job: string, jobs: Jobs, candidate: Candidate,
                         outcome: map<string, Json>)
    requires codec.Lawful() && OutcomeIs(codec, event, job, jobs, candidate, outcome)
    ensures Match(codec, event, candidate, jobs) == Some(outcome)
    ensures candidate == Latest(job) || (NamesAttempt(event) && candidate == OfAttempt(job, event["attempt"].number))
  {
    MatchMeans(codec, event, candidate, jobs, outcome);
  }

  lemma ResolveMeans(codec: Codec, event: map<string, Json>, job: string, jobs: Jobs)
    requires codec.Lawful()
    ensures match Resolve(codec, event, Candidates(event, job), jobs)
            case None => forall candidate, outcome :: !OutcomeIs(codec, event, job, jobs, candidate, outcome)
            case Some(compacted) =>
              exists candidate, outcome ::
                && OutcomeIs(codec, event, job, jobs, candidate, outcome)
                && compacted == Compacted(event, outcome, Reference(jobs[candidate].0, codec.digest(jobs[candidate].1)))
  {
    var latest := Latest(job);
    CandidatesAre(event, job);
    AttemptDecides(codec, event, job, jobs);
    LatestResolves(codec, event, job, jobs);
    forall candidate, outcome | OutcomeIs(codec, event, job, jobs, candidate, outcome)
      ensures Resolve(codec, event, Candidates(event, job), jobs).Some?
    {
      OutcomeIsMatched(codec, event, job, jobs, candidate, outcome);
      FirstResolves(codec, event, job, jobs);
    }
    FirstResolves(codec, event, job, jobs);
    if NamesAttempt(event) && Match(codec, event, OfAttempt(job, event["attempt"].number), jobs).Some? {
      var first := OfAttempt(job, event["attempt"].number);
      var outcome := Match(codec, event, first, jobs).value;
      MatchMeans(codec, event, first, jobs, outcome);
      assert OutcomeIs(codec, event, job, jobs, first, outcome);
    } else if Match(codec, event, latest, jobs).Some? {
      var outcome := Match(codec, event, latest, jobs).value;
      MatchMeans(codec, event, latest, jobs, outcome);
      assert OutcomeIs(codec, event, job, jobs, latest, outcome);
    }
  }

  /** The file with the attempt comes first, and the latest one after it. */
  lemma FirstResolves(codec: Codec, event: map<string, Json>, job: string, jobs: Jobs)
    ensures Resolve(codec, event, Candidates(event, job), jobs) ==
      if NamesAttempt(event) && Match(codec, event, OfAttempt(job, event["attempt"].number), jobs).Some? then
        var first := OfAttempt(job, event["attempt"].number);
        Some(Compacted(event, Match(codec, event, first, jobs).value,
                       Reference(jobs[first].0, codec.digest(jobs[first].1))))
      else Resolve(codec, event, [Latest(job)], jobs)
  {
    CandidatesAre(event, job);
    if NamesAttempt(event) {
      assert [OfAttempt(job, event["attempt"].number), Latest(job)][1..] == [Latest(job)];
    }
  }

  lemma LatestResolves(codec: Codec, event: map<string, Json>, job: string, jobs: Jobs)
    ensures Resolve(codec, event, [Latest(job)], jobs) ==
      match Match(codec, event, Latest(job), jobs)
      case None => None
      case Some(outcome) =>
        Some(Compacted(event, outcome, Reference(jobs[Latest(job)].0, codec.digest(jobs[Latest(job)].1))))
  {
    assert [Latest(job)][1..] == [];
    assert Resolve(codec, event, [], jobs) == None;
  }

  /** The line's event holds an outcome and names a job whose files hold it. */
  ghost predicate Compactable(codec: Codec, raw: seq<Byte>, jobs: Jobs, event: map<string, Json>, candidate: Candidate,
                              outcome: map<string, Json>)
  {
    && codec.loads(raw) == Some(Obj(event)) && HoldsOutcome(event)
    && "job_id" in event && event["job_id"].Str?
    && event["job_id"].text != "" && event["job_id"].text != "." && event["job_id"].text != ".."
    && '/' !in event["job_id"].text
    && OutcomeIs(codec, event, event["job_id"].text, jobs, candidate, outcome)
  }

  /** The event that is left: its own fields and five shared ones, and the file's path and digest. */
  ghost predicate Leaves(codec: Codec, event: map<string, Json>, outcome: map<string, Json>, path: string,
                         payload: seq<Byte>, line: seq<Byte>)
  {
    exists left: map<string, Json> ::
      && line == codec.compact(Obj(left)) + [NEWLINE]
      && (forall key :: key in left <==>
            || key == "outcome_ref"
            || (key in event && (key !in outcome || key == "attempt" || key == "outcome" || key == "exit_code"
                                 || key == "unit" || key == "pool")))
      && (forall key :: key in left && key != "outcome_ref" ==> left[key] == event[key])
      && left["outcome_ref"] == Obj(map["path" := Str(path), "sha256" := Str(codec.digest(payload))])
  }

  /** Exactly the lines that hold an outcome count as embedding one, exactly those whose files hold it are
      replaced, and what replaces them is said in the event's own fields. */
  lemma RewriteMeans(codec: Codec, raw: seq<Byte>, jobs: Jobs)
    requires codec.Lawful()
    ensures Rewrite(codec, raw, jobs).1
       <==> exists event :: codec.loads(raw) == Some(Obj(event)) && HoldsOutcome(event)
    ensures (exists event, candidate, outcome ::
              && Compactable(codec, raw, jobs, event, candidate, outcome)
              && Leaves(codec, event, outcome, jobs[candidate].0, jobs[candidate].1, Rewrite(codec, raw, jobs).0))
            || (Rewrite(codec, raw, jobs).0 == raw
                && forall event, candidate, outcome :: !Compactable(codec, raw, jobs, event, candidate, outcome))
  {
    var decoded := codec.loads(raw);
    if decoded.Some? && decoded.value.Obj? {
      var event := decoded.value.fields;
      assert HoldsOutcome(event) <==> Embeds(event);
      if Embeds(event) && "job_id" in event && event["job_id"].Str? && JobName(event["job_id"].text) {
        var job := event["job_id"].text;
        ResolveMeans(codec, event, job, jobs);
        var resolved := Resolve(codec, event, Candidates(event, job), jobs);
        if resolved.Some? {
          var candidate, outcome :| OutcomeIs(codec, event, job, jobs, candidate, outcome)
            && resolved.value
               == Compacted(event, outcome, Reference(jobs[candidate].0, codec.digest(jobs[candidate].1)));
          assert Compactable(codec, raw, jobs, event, candidate, outcome);
          LeavesCompacted(codec, event, outcome, jobs[candidate].0, jobs[candidate].1);
        }
      }
    }
  }

  lemma LeavesCompacted(codec: Codec, event: map<string, Json>, outcome: map<string, Json>, path: string,
                        payload: seq<Byte>)
    ensures Leaves(codec, event, outcome, path, payload,
                   codec.compact(Obj(Compacted(event, outcome, Reference(path, codec.digest(payload))))) + [NEWLINE])
  {
    var left := Compacted(event, outcome, Reference(path, codec.digest(payload)));
    assert "outcome_ref" in left;
  }

  /** A second migration changes nothing, whatever the outcome files hold by then. */
  lemma Idempotent(codec: Codec, raw: seq<Byte>, jobs: Jobs, later: Jobs)
    requires codec.Lawful() && Rewrite(codec, raw, jobs).0 != raw
    ensures Rewrite(codec, Rewrite(codec, raw, jobs).0, later) == (Rewrite(codec, raw, jobs).0, false)
  {
    Lossless(codec, raw, jobs);
  }

  /** What the pressure projection reads of a value. */
  function PressureEvent(value: Json): Pressure.Event {
    if !value.Obj? || "kind" !in value.fields || value.fields["kind"] != Str("pressure") then Pressure.OtherEvent
    else
      var fields := value.fields;
      Pressure.Pressure(TextOf(fields, "group"), ActionOf(TextOf(fields, "action")), TextOf(fields, "owner"),
                        if TextOf(fields, "signal").Some? then Split(TextOf(fields, "signal").value, '+') else [])
  }

  function TextOf(fields: map<string, Json>, key: string): Option<string> {
    if key in fields && fields[key].Str? then Some(fields[key].text) else None
  }

  function ActionOf(action: Option<string>): Pressure.Action {
    match action
    case Some("closed") => Pressure.Closed
    case Some("opened") => Pressure.Opened
    case Some("released") => Pressure.Released
    case Some("ownership-lost") => Pressure.OwnershipLost
    case _ => Pressure.OtherAction
  }

  /** A pressure event is read from these fields, each only if it is a string; the signal is a plus-separated list. */
  lemma PressureEventReads(fields: map<string, Json>, group: string, owner: string, signal: string)
    requires "kind" in fields && fields["kind"] == Str("pressure")
    ensures var event := PressureEvent(Obj(fields));
      && event.Pressure?
      && (event.group == Some(group) <==> "group" in fields && fields["group"] == Str(group))
      && (event.owner == Some(owner) <==> "owner" in fields && fields["owner"] == Str(owner))
      && (event.action.Closed? <==> "action" in fields && fields["action"] == Str("closed"))
      && (event.action.Opened? <==> "action" in fields && fields["action"] == Str("opened"))
      && (event.action.Released? <==> "action" in fields && fields["action"] == Str("released"))
      && (event.action.OwnershipLost? <==> "action" in fields && fields["action"] == Str("ownership-lost"))
      && ("signal" in fields && fields["signal"] == Str(signal) ==> event.signals == Split(signal, '+'))
      && ("signal" !in fields || !fields["signal"].Str? ==> event.signals == [])
  {}

  /** The projection's log over this codec: a record is decoded with its line end. */
  function LogOf(codec: Codec): Pressure.Log {
    Pressure.Log((record: seq<Byte>) =>
      match codec.loads(record + [NEWLINE])
      case None => None
      case Some(value) => Some(PressureEvent(value)))
  }

  /** An event with an embedded outcome is no pressure event, before and after it is rewritten. */
  lemma RewriteIsQuiet(codec: Codec, raw: seq<Byte>, jobs: Jobs, pauses: Pressure.Pauses)
    requires codec.Lawful() && Rewrite(codec, raw, jobs).0 != raw
    requires raw != [] && raw[|raw| - 1] == NEWLINE
    ensures var line := Rewrite(codec, raw, jobs).0;
            && line != [] && line[|line| - 1] == NEWLINE && NEWLINE !in line[..|line| - 1]
            && LogOf(codec).ApplyRecord(pauses, raw[..|raw| - 1]) == pauses
            && LogOf(codec).ApplyRecord(pauses, line[..|line| - 1]) == pauses
  {
    var event := codec.loads(raw).value.fields;
    var candidates := Candidates(event, event["job_id"].text);
    assert raw[..|raw| - 1] + [NEWLINE] == raw;
    CompactedKind(codec, event, candidates, jobs);
    var compacted := Resolve(codec, event, candidates, jobs).value;
    var text := codec.compact(Obj(compacted));
    assert codec.loads(text + [NEWLINE]) == Some(Obj(compacted));
    assert (text + [NEWLINE])[..|text|] == text;
  }

  lemma {:induction false} CompactedKind(codec: Codec, event: map<string, Json>, candidates: seq<Candidate>, jobs: Jobs)
    requires Resolve(codec, event, candidates, jobs).Some?
    ensures var compacted := Resolve(codec, event, candidates, jobs).value;
            "kind" in compacted ==> "kind" in event && compacted["kind"] == event["kind"]
  {
    if Match(codec, event, candidates[0], jobs).None? {
      CompactedKind(codec, event, candidates[1..], jobs);
    }
  }

  // -------------------------------------------------------- the whole log

  datatype Report = Report(rewritten: nat, kept: nat, unresolved: nat)

  datatype Refusal = UnterminatedTail | LineCountChanged | NoLongerResolves

  datatype Result = Published(content: seq<Byte>, report: Report) | Refused(reason: Refusal)

  ghost predicate IsLine(line: seq<Byte>) {
    line != [] && line[|line| - 1] == NEWLINE && NEWLINE !in line[..|line| - 1]
  }

  function Bodies(lines: seq<seq<Byte>>): seq<seq<Byte>>
    requires forall i :: 0 <= i < |lines| ==> lines[i] != []
  {
    if lines == [] then [] else [lines[0][..|lines[0]| - 1]] + Bodies(lines[1..])
  }

  function Changed(lines: seq<seq<Byte>>, target: seq<seq<Byte>>): nat
    requires |lines| == |target|
  {
    if lines == [] then 0
    else (if lines[0] == target[0] then 0 else 1) + Changed(lines[1..], target[1..])
  }

  lemma {:induction false} ChangedAppend(lines: seq<seq<Byte>>, target: seq<seq<Byte>>, a: seq<Byte>, b: seq<Byte>)
    requires |lines| == |target|
    ensures Changed(lines + [a], target + [b]) == Changed(lines, target) + if a == b then 0 else 1
  {
    if lines != [] {
      ChangedAppend(lines[1..], target[1..], a, b);
      assert (lines + [a])[1..] == lines[1..] + [a] && (target + [b])[1..] == target[1..] + [b];
    }
  }

  lemma StreamOneLine(line: seq<Byte>)
    requires IsLine(line)
    ensures StreamLines(line, NEWLINE) == [line]
  {
    var n := LineLength(line, NEWLINE);
    assert forall k :: 0 <= k < |line| - 1 ==> line[k] == line[..|line| - 1][k];
    assert n == |line|;
    assert line[..|line|] == line;
  }

  lemma {:induction false} StreamFlatten(lines: seq<seq<Byte>>)
    requires forall i :: 0 <= i < |lines| ==> IsLine(lines[i])
    ensures StreamLines(Flatten(lines), NEWLINE) == lines
  {
    if lines != [] {
      StreamFlatten(lines[1..]);
      StreamOneLine(lines[0]);
      StreamLinesConcat(lines[0], Flatten(lines[1..]), NEWLINE);
      assert [lines[0]] + lines[1..] == lines;
    }
  }

  /** Only the last line of a file may lack its line end. */
  lemma {:induction false} StreamIsLines(content: seq<Byte>, i: nat)
    requires i < |StreamLines(content, NEWLINE)|
    ensures var lines := StreamLines(content, NEWLINE);
            && lines[i] != [] && NEWLINE !in lines[i][..|lines[i]| - 1]
            && (i < |lines| - 1 ==> IsLine(lines[i]))
            && (i == |lines| - 1 ==> lines[i][|lines[i]| - 1] == content[|content| - 1])
    decreases |content|
  {
    var n := LineLength(content, NEWLINE);
    var rest := content[n..];
    if i > 0 {
      StreamIsLines(rest, i - 1);
      assert rest[|rest| - 1] == content[|content| - 1];
    } else if rest != [] {
      assert StreamLines(rest, NEWLINE) != [];
    }
  }

  /** What the migration writes for the lines read so far. */
  ghost predicate Written(codec: Codec, lines: seq<seq<Byte>>, target: seq<seq<Byte>>,
                          jobs: nat -> Jobs, report: Report) {
    && |target| == |lines|
    && (forall k :: 0 <= k < |lines| ==> IsLine(lines[k]) && IsLine(target[k]))
    && (forall k :: 0 <= k < |lines| ==> target[k] == Rewrite(codec, lines[k], jobs(k)).0)
    && report.rewritten == Changed(lines, target)
    && report.rewritten + report.kept == |lines|
    && report.unresolved == Unresolved(codec, lines, jobs)
  }

  /** How many lines embed an outcome that no candidate resolves. */
  ghost function Unresolved(codec: Codec, lines: seq<seq<Byte>>, jobs: nat -> Jobs): nat {
    if lines == [] then 0
    else
      var last := |lines| - 1;
      Unresolved(codec, lines[..last], jobs)
      + if Rewrite(codec, lines[last], jobs(last)) == (lines[last], true) then 1 else 0
  }

  lemma WrittenAppend(codec: Codec, done: seq<seq<Byte>>, target: seq<seq<Byte>>, jobs: nat -> Jobs, report: Report,
                      raw: seq<Byte>, line: seq<Byte>, receipt: bool)
    requires Written(codec, done, target, jobs, report) && IsLine(raw) && IsLine(line)
    requires (line, receipt) == Rewrite(codec, raw, jobs(|done|))
    ensures Written(codec, done + [raw], target + [line], jobs, Counted(report, line != raw, receipt))
  {
    ChangedAppend(done, target, raw, line);
    assert (done + [raw])[..|done|] == done;
  }

  lemma RewriteIsLine(codec: Codec, raw: seq<Byte>, jobs: Jobs)
    requires codec.Lawful() && IsLine(raw)
    ensures IsLine(Rewrite(codec, raw, jobs).0)
  {
    if Rewrite(codec, raw, jobs).0 != raw {
      RewriteIsQuiet(codec, raw, jobs, map[]);
    }
  }

  lemma WrittenStep(codec: Codec, lines: seq<seq<Byte>>, target: seq<seq<Byte>>, jobs: nat -> Jobs, report: Report,
                    i: nat, line: seq<Byte>, receipt: bool)
    requires i < |lines| && codec.Lawful() && Written(codec, lines[..i], target, jobs, report) && IsLine(lines[i])
    requires (line, receipt) == Rewrite(codec, lines[i], jobs(i))
    ensures Written(codec, lines[..i + 1], target + [line], jobs, Counted(report, line != lines[i], receipt))
  {
    PrefixNext(lines, i);
    RewriteIsLine(codec, lines[i], jobs(i));
    WrittenAppend(codec, lines[..i], target, jobs, report, lines[i], line, receipt);
  }

  lemma PrefixNext<T>(s: seq<T>, i: nat)
    requires i < |s|
    ensures s[..i + 1] == s[..i] + [s[i]] && |s[..i]| == i
  {}

  lemma FlattenAppend(parts: seq<seq<Byte>>, part: seq<Byte>)
    ensures Flatten(parts + [part]) == Flatten(parts) + part
  {
    FlattenConcat(parts, [part]);
    assert [part][1..] == [];
  }

  function Counted(report: Report, changed: bool, receipt: bool): Report {
    if changed then report.(rewritten := report.rewritten + 1)
    else report.(kept := report.kept + 1, unresolved := report.unresolved + if receipt then 1 else 0)
  }

  /** The first pass stops at a line without its end. */
  method RewriteLines(codec: Codec, lines: seq<seq<Byte>>, jobs: nat -> Jobs)
    returns (terminated: bool, text: seq<Byte>, report: Report, ghost target: seq<seq<Byte>>)
    requires codec.Lawful()
    requires forall i :: 0 <= i < |lines| ==> lines[i] != [] && NEWLINE !in lines[i][..|lines[i]| - 1]
    ensures terminated <==> forall i :: 0 <= i < |lines| ==> IsLine(lines[i])
    ensures terminated ==> Written(codec, lines, target, jobs, report) && text == Flatten(target)
  {
    target, text, report := [], [], Report(0, 0, 0);
    for i := 0 to |lines|
      invariant Written(codec, lines[..i], target, jobs, report)
      invariant text == Flatten(target)
    {
      var raw := lines[i];
      if raw[|raw| - 1] != NEWLINE {
        return false, text, report, target;
      }
      var (line, receipt) := Rewrite(codec, raw, jobs(i));
      WrittenStep(codec, lines, target, jobs, report, i, line, receipt);
      FlattenAppend(target, line);
      report := Counted(report, line != raw, receipt);
      target, text := target + [line], text + line;
    }
    assert lines[..|lines|] == lines;
    terminated := true;
  }

  /** The migration of a log: each line is kept or replaced by its compaction, which still resolves
      when the result is checked; `first` and `second` are the outcome files as each pass finds them. */
  method CompactEvents(codec: Codec, content: seq<Byte>, first: nat -> Jobs, second: nat -> Jobs)
    returns (result: Result)
    requires codec.Lawful()
    ensures content != [] && content[|content| - 1] != NEWLINE <==> result == Refused(UnterminatedTail)
    ensures result != Refused(LineCountChanged)
    ensures result.Published? ==>
      var lines, target := StreamLines(content, NEWLINE), StreamLines(result.content, NEWLINE);
      && Written(codec, lines, target, first, result.report)
      && (forall i :: 0 <= i < |lines| ==> target[i] == lines[i] || target[i] == Rewrite(codec, lines[i], second(i)).0)
      && result.content == Flatten(target)
  {
    var lines := StreamLines(content, NEWLINE);
    StreamShape(content);
    var terminated, text, report, target := RewriteLines(codec, lines, first);
    if !terminated {
      return Refused(UnterminatedTail);
    }
    StreamFlatten(target);
    result := Verify(codec, lines, text, second, report);
  }

  /** The second pass: both files are read again, line beside line. */
  method Verify(codec: Codec, lines: seq<seq<Byte>>, text: seq<Byte>, jobs: nat -> Jobs, report: Report)
    returns (result: Result)
    ensures result in {Published(text, report), Refused(LineCountChanged), Refused(NoLongerResolves)}
    ensures result == Refused(LineCountChanged) ==> |StreamLines(text, NEWLINE)| != |lines|
    ensures result == Published(text, report) <==>
      var candidate := StreamLines(text, NEWLINE);
      && |candidate| == |lines|
      && forall i :: 0 <= i < |lines| ==>
            candidate[i] == lines[i] || candidate[i] == Rewrite(codec, lines[i], jobs(i)).0
  {
    var candidate := StreamLines(text, NEWLINE);
    if |candidate| != |lines| {
      return Refused(LineCountChanged);
    }
    for i := 0 to |lines|
      invariant forall k :: 0 <= k < i ==>
                  candidate[k] == lines[k] || candidate[k] == Rewrite(codec, lines[k], jobs(k)).0
    {
      if lines[i] != candidate[i] && Rewrite(codec, lines[i], jobs(i)).0 != candidate[i] {
        return Refused(NoLongerResolves);
      }
    }
    return Published(text, report);
  }

  /** Whether a file ends its last line decides whether every line is ended. */
  lemma StreamShape(content: seq<Byte>)
    ensures var lines := StreamLines(content, NEWLINE);
      && (forall i :: 0 <= i < |lines| ==> lines[i] != [] && NEWLINE !in lines[i][..|lines[i]| - 1])
      && (content == [] || content[|content| - 1] == NEWLINE <==> forall i :: 0 <= i < |lines| ==> IsLine(lines[i]))
  {
    var lines := StreamLines(content, NEWLINE);
    forall i | 0 <= i < |lines|
      ensures lines[i] != [] && NEWLINE !in lines[i][..|lines[i]| - 1]
      ensures i < |lines| - 1 || content[|content| - 1] == NEWLINE ==> IsLine(lines[i])
    {
      StreamIsLines(content, i);
    }
    if content != [] {
      StreamIsLines(content, |lines| - 1);
      assert IsLine(lines[|lines| - 1]) <==> content[|content| - 1] == NEWLINE;
    }
  }

  /** Each line is kept or compacted. */
  ghost predicate IsCompaction(codec: Codec, lines: seq<seq<Byte>>, target: seq<seq<Byte>>, jobs: nat -> Jobs) {
    && |lines| == |target|
    && (forall i :: 0 <= i < |lines| ==> IsLine(lines[i]))
    && forall i :: 0 <= i < |lines| ==> target[i] == lines[i] || target[i] == Rewrite(codec, lines[i], jobs(i)).0
  }

  ghost function Later(jobs: nat -> Jobs): nat -> Jobs {
    (i: nat) => jobs(i + 1)
  }

  lemma CompactionTail(codec: Codec, lines: seq<seq<Byte>>, target: seq<seq<Byte>>, jobs: nat -> Jobs)
    requires IsCompaction(codec, lines, target, jobs) && lines != []
    ensures IsCompaction(codec, lines[1..], target[1..], Later(jobs))
  {
    forall i | 0 <= i < |lines| - 1
      ensures target[1..][i] == lines[1..][i] || target[1..][i] == Rewrite(codec, lines[1..][i], Later(jobs)(i)).0
    {
      assert target[i + 1] == lines[i + 1] || target[i + 1] == Rewrite(codec, lines[i + 1], jobs(i + 1)).0;
    }
  }

  lemma CompactionIsLines(codec: Codec, lines: seq<seq<Byte>>, target: seq<seq<Byte>>, jobs: nat -> Jobs)
    requires codec.Lawful() && IsCompaction(codec, lines, target, jobs)
    ensures forall i :: 0 <= i < |target| ==> IsLine(target[i])
  {
    forall i | 0 <= i < |target| ensures IsLine(target[i]) {
      RewriteIsLine(codec, lines[i], jobs(i));
    }
  }

  /** Replaying the compacted log gives the pauses that the original gives. */
  lemma {:induction false} ProjectionKept(codec: Codec, lines: seq<seq<Byte>>, target: seq<seq<Byte>>,
                                          jobs: nat -> Jobs, pauses: Pressure.Pauses)
    requires codec.Lawful() && IsCompaction(codec, lines, target, jobs)
    ensures forall i :: 0 <= i < |target| ==> IsLine(target[i])
    ensures LogOf(codec).Fold(pauses, Bodies(target)) == LogOf(codec).Fold(pauses, Bodies(lines))
    decreases |lines|
  {
    CompactionIsLines(codec, lines, target, jobs);
    if lines != [] {
      var log, raw, line := LogOf(codec), lines[0], target[0];
      if line != raw {
        RewriteIsQuiet(codec, raw, jobs(0), pauses);
      }
      var next := log.ApplyRecord(pauses, raw[..|raw| - 1]);
      CompactionTail(codec, lines, target, jobs);
      ProjectionKept(codec, lines[1..], target[1..], Later(jobs), next);
      assert Bodies(target)[1..] == Bodies(target[1..]) && Bodies(lines)[1..] == Bodies(lines[1..]);
    }
  }

  lemma TerminatedCons(body: seq<Byte>, rest: seq<Byte>)
    requires NEWLINE !in body
    ensures Terminated(body + [NEWLINE] + rest, NEWLINE) == [body] + Terminated(rest, NEWLINE)
  {
    SplitAtSep(body, rest, NEWLINE);
  }

  /** The bodies of a terminated file's lines are its terminated records. */
  lemma {:induction false} BodiesAreRecords(lines: seq<seq<Byte>>)
    requires forall i :: 0 <= i < |lines| ==> lines[i] != [] && IsLine(lines[i])
    ensures Bodies(lines) == Terminated(Flatten(lines), NEWLINE)
  {
    if lines != [] {
      var body := lines[0][..|lines[0]| - 1];
      BodiesAreRecords(lines[1..]);
      TerminatedCons(body, Flatten(lines[1..]));
      assert body + [NEWLINE] == lines[0];
    }
  }

  lemma FlattenCons(part: seq<Byte>, parts: seq<seq<Byte>>)
    ensures Flatten([part] + parts) == part + Flatten(parts)
  {
    assert ([part] + parts)[1..] == parts;
  }

  lemma {:induction false} FlattenStream(content: seq<Byte>)
    ensures Flatten(StreamLines(content, NEWLINE)) == content
    decreases |content|
  {
    if content != [] {
      var n := LineLength(content, NEWLINE);
      FlattenStream(content[n..]);
      FlattenCons(content[..n], StreamLines(content[n..], NEWLINE));
      assert content[..n] + content[n..] == content;
    }
  }

  /** The pauses projected from a published log are those projected from the log it replaces. */
  lemma ReplayKept(codec: Codec, content: seq<Byte>, published: seq<Byte>, jobs: nat -> Jobs, pauses: Pressure.Pauses)
    requires codec.Lawful()
    requires IsCompaction(codec, StreamLines(content, NEWLINE), StreamLines(published, NEWLINE), jobs)
    ensures LogOf(codec).Fold(pauses, Terminated(published, NEWLINE)) ==
            LogOf(codec).Fold(pauses, Terminated(content, NEWLINE))
  {
    var lines, target := StreamLines(content, NEWLINE), StreamLines(published, NEWLINE);
    ProjectionKept(codec, lines, target, jobs, pauses);
    BodiesAreRecords(lines);
    BodiesAreRecords(target);
    FlattenStream(content);
    FlattenStream(published);
  }

  /** Publication replaces the file, so the projection starts over with what it had already read of the
      log before: replaying the published log on top of that changes nothing. */
  lemma ReplayAfterPublication(codec: Codec, content: seq<Byte>, published: seq<Byte>, jobs: nat -> Jobs,
                               base: Pressure.Pauses, read: nat)
    requires codec.Lawful() && read <= |Terminated(content, NEWLINE)|
    requires IsCompaction(codec, StreamLines(content, NEWLINE), StreamLines(published, NEWLINE), jobs)
    ensures var log, records := LogOf(codec), Terminated(content, NEWLINE);
            log.Fold(log.Fold(base, records[..read]), Terminated(published, NEWLINE)) == log.Fold(base, records)
  {
    var log, records := LogOf(codec), Terminated(content, NEWLINE);
    var pauses := log.Fold(base, records[..read]);
    ReplayKept(codec, content, published, jobs, pauses);
    log.ReplayAgain(base, records[..read], records[read..]);
    assert records[..read] + records[read..] == records;
  }
}
