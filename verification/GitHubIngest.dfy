/**
 Workflow runs reported to a monitor: what is recorded, what is alerted, and how the stored status
 carries an alert from one report to the next. Reports to one monitor are taken one at a time and
 status writes succeed.
 */
module GitHubIngest {
  import opened Text

  datatype Status = Up | Down | Unknown | Paused

  datatype Class = Failure | Success | Neither

  datatype Report = Report(status: string, workflow: string)

  datatype Run = Run(status: Status, conclusion: string, workflow: string)

  datatype Alert = NoAlert | Firing | Resolved | Succeeded

  datatype Monitor = Monitor(enabled: bool, last: Status, workflow: string, notifyOnSuccess: bool, history: seq<Run>)

  const FAILURES := {"failure", "failed", "timed_out", "startup_failure", "action_required"}
  const SUCCESSES := {"success", "succeeded"}

  function Conclusion(status: string): string {
    Lower(Trim(status))
  }

  function Classify(status: string): Class {
    if Conclusion(status) in FAILURES then Failure else if Conclusion(status) in SUCCESSES then Success else Neither
  }

  function StatusOf(c: Class): Status {
    match c case Failure => Down case Success => Up case Neither => Unknown
  }

  /** A report about another workflow is not this monitor's. */
  predicate Concerns(m: Monitor, r: Report) {
    m.workflow == "" || r.workflow == "" || EqualFold(m.workflow, r.workflow)
  }

  function RunOf(r: Report): Run {
    Run(StatusOf(Classify(r.status)), Conclusion(r.status), r.workflow)
  }

  /** A status write passes over disabled and paused monitors. */
  function StatusApplied(m: Monitor, status: Status): Monitor {
    if m.enabled && m.last != Paused then m.(last := status) else m
  }

  /** `lost` is a history write that failed, which nobody minds. */
  function Ingested(m: Monitor, r: Report, lost: bool): (Monitor, Alert) {
    if !Concerns(m, r) then (m, NoAlert)
    else
      var m1 := if lost then m else m.(history := m.history + [RunOf(r)]);
      if !m.enabled then (m1, NoAlert)
      else
        match Classify(r.status)
        case Neither => (m1, NoAlert)
        case Failure => (StatusApplied(m1, Down), Firing)
        case Success =>
          (StatusApplied(m1, Up), if m.last == Down then Resolved else if m.notifyOnSuccess then Succeeded else NoAlert)
  }

  datatype Action =
    | Ingest(report: Report, lost: bool)
    | SetEnabled(on: bool)
    | UpdateEnabled(on: bool)
    | Configure(workflow: string, notifyOnSuccess: bool)

  function Step(m: Monitor, a: Action): Monitor {
    match a
    case Ingest(r, lost) => Ingested(m, r, lost).0
    case SetEnabled(on) => m.(enabled := on, last := if on then Unknown else Paused)
    case UpdateEnabled(on) => m.(enabled := on)
    case Configure(workflow, notify) => m.(workflow := workflow, notifyOnSuccess := notify)
  }

  function After(m: Monitor, run: seq<Action>): Monitor {
    if run == [] then m else Step(After(m, run[..|run| - 1]), run[|run| - 1])
  }

  /** The alert at a position of a run. */
  function AlertAt(m: Monitor, run: seq<Action>, i: nat): Alert
    requires i < |run|
  {
    match run[i]
    case Ingest(r, lost) => Ingested(After(m, run[..i]), r, lost).1
    case _ => NoAlert
  }

  // ---- a recovery is announced exactly when there was something to recover from ----

  /** What the outcome of a run, as it is reported, says about it. */
  predicate Says(status: string, c: Class) {
    var failed := Lower(Trim(status)) in {"failure", "failed", "timed_out", "startup_failure", "action_required"};
    var succeeded := Lower(Trim(status)) in {"success", "succeeded"};
    match c
    case Failure => failed
    case Success => succeeded
    case Neither => !failed && !succeeded
  }

  /** Only a report that names another workflow than the monitor does is none of its business. */
  predicate NamesAnother(m: Monitor, r: Report) {
    m.workflow != "" && r.workflow != "" && Lower(m.workflow) != Lower(r.workflow)
  }

  /** A report that concerns the monitor, finds it enabled, and says this. */
  predicate Acts(before: Monitor, a: Action, c: Class) {
    a.Ingest? && before.enabled && !NamesAnother(before, a.report) && Says(a.report.status, c)
  }

  predicate Acted(m: Monitor, run: seq<Action>, i: nat, c: Class)
    requires i < |run|
  {
    Acts(After(m, run[..i]), run[i], c)
  }

  /** A failure not yet followed by a success or by a call that pauses or resumes. */
  predicate OpenFailure(m: Monitor, run: seq<Action>) {
    exists j :: 0 <= j < |run| && IsOpen(m, run, j)
  }

  predicate IsOpen(m: Monitor, run: seq<Action>, j: nat)
    requires j < |run|
  {
    Acted(m, run, j, Failure) && forall k | j < k < |run| :: !Closes(m, run, k)
  }

  predicate Closes(m: Monitor, run: seq<Action>, k: nat)
    requires k < |run|
  {
    Acted(m, run, k, Success) || run[k].SetEnabled?
  }

  predicate NoUpdateEnabled(run: seq<Action>) {
    forall i | 0 <= i < |run| :: !run[i].UpdateEnabled?
  }

  lemma ActedEarlier(m: Monitor, run: seq<Action>, i: nat, c: Class)
    requires i < |run| - 1
    ensures Acted(m, run[..|run| - 1], i, c) == Acted(m, run, i, c)
  {
    assert run[..|run| - 1][..i] == run[..i];
  }

  lemma IsOpenEarlier(m: Monitor, run: seq<Action>, j: nat)
    requires j < |run| - 1
    ensures var n := |run| - 1; IsOpen(m, run, j) <==> IsOpen(m, run[..n], j) && !Closes(m, run, n)
  {
    if IsOpen(m, run, j) {
      OpenStaysOpen(m, run, j);
    } else {
      ClosedStaysClosed(m, run, j);
    }
  }

  lemma ClosesEarlier(m: Monitor, run: seq<Action>, k: nat)
    requires k < |run| - 1
    ensures Closes(m, run[..|run| - 1], k) == Closes(m, run, k)
  {
    ActedEarlier(m, run, k, Success);
    assert run[..|run| - 1][k] == run[k];
  }

  lemma ClosedStaysClosed(m: Monitor, run: seq<Action>, j: nat)
    requires j < |run| - 1 && !IsOpen(m, run, j)
    ensures var n := |run| - 1; !(IsOpen(m, run[..n], j) && !Closes(m, run, n))
  {
    ActedEarlier(m, run, j, Failure);
    if Acted(m, run, j, Failure) {
      var k :| j < k < |run| && Closes(m, run, k);
      if k < |run| - 1 {
        ClosesEarlier(m, run, k);
      }
    }
  }

  lemma OpenStaysOpen(m: Monitor, run: seq<Action>, j: nat)
    requires j < |run| - 1 && IsOpen(m, run, j)
    ensures var n := |run| - 1; IsOpen(m, run[..n], j) && !Closes(m, run, n)
  {
    var earlier := run[..|run| - 1];
    ActedEarlier(m, run, j, Failure);
    forall k | j < k < |earlier| ensures !Closes(m, earlier, k) {
      ClosesEarlier(m, run, k);
    }
  }

  lemma OpenFailureSnoc(m: Monitor, run: seq<Action>)
    requires run != []
    ensures var n := |run| - 1;
            OpenFailure(m, run)
            <==> Acted(m, run, n, Failure) || (OpenFailure(m, run[..n]) && !Acted(m, run, n, Success) && !run[n].SetEnabled?)
  {
    var n := |run| - 1;
    if OpenFailure(m, run) {
      var j :| 0 <= j < |run| && IsOpen(m, run, j);
      if j < n {
        IsOpenEarlier(m, run, j);
      }
    }
    if OpenFailure(m, run[..n]) {
      var j :| 0 <= j < n && IsOpen(m, run[..n], j);
      IsOpenEarlier(m, run, j);
    }
    assert Acted(m, run, n, Failure) ==> IsOpen(m, run, n);
  }

  /** As created: unknown, enabled or not. */
  predicate Fresh(m: Monitor) {
    m.last == Unknown
  }

  /** The status tells a failure that is open: what one step makes of that. */
  lemma StatusStep(m: Monitor, a: Action, open: bool)
    requires !a.UpdateEnabled? && (m.last == Paused ==> !m.enabled) && (m.last == Down <==> open)
    ensures var w := Step(m, a);
            (w.last == Paused ==> !w.enabled)
            && (w.last == Down <==> Acts(m, a, Failure) || (open && !Acts(m, a, Success) && !a.SetEnabled?))
  {
  }

  lemma {:induction false} StatusRemembers(m: Monitor, run: seq<Action>)
    requires Fresh(m) && NoUpdateEnabled(run)
    ensures var w := After(m, run);
            (w.last == Paused ==> !w.enabled) && (w.last == Down <==> OpenFailure(m, run))
  {
    if run != [] {
      var n := |run| - 1;
      StatusRemembers(m, run[..n]);
      OpenFailureSnoc(m, run);
      StatusStep(After(m, run[..n]), run[n], OpenFailure(m, run[..n]));
    }
  }

  /** Over any run in which only SetEnabled pauses and resumes, a report is answered with Resolved
      exactly when it is an acted success and a firing precedes it with no acted success and no
      SetEnabled between; Firing answers exactly the acted failures. */
  lemma ResolvedExactlyAfterFiring(m: Monitor, run: seq<Action>, i: nat)
    requires Fresh(m) && NoUpdateEnabled(run) && i < |run|
    ensures AlertAt(m, run, i) == Firing <==> Acted(m, run, i, Failure)
    ensures AlertAt(m, run, i) == Resolved <==> Acted(m, run, i, Success) && OpenFailure(m, run[..i])
    ensures AlertAt(m, run, i) == Succeeded <==>
              Acted(m, run, i, Success) && !OpenFailure(m, run[..i]) && After(m, run[..i]).notifyOnSuccess
  {
    StatusRemembers(m, run[..i]);
  }

  /** It takes no pause to lose a recovery: enabling an enabled monitor forgets the failure too. */
  lemma EnablingForgetsAFailure(m: Monitor, bad: Report, good: Report)
    requires Fresh(m) && m.enabled && m.workflow == "" && !m.notifyOnSuccess
    requires Classify(bad.status) == Failure && Classify(good.status) == Success
    ensures var run := [Ingest(bad, false), SetEnabled(true), Ingest(good, false)];
            AlertAt(m, run, 0) == Firing && AlertAt(m, run, 2) == NoAlert
    ensures var run := [Ingest(bad, false), Ingest(good, false)]; AlertAt(m, run, 1) == Resolved
  {
    var run := [Ingest(bad, false), SetEnabled(true), Ingest(good, false)];
    assert run[..0] == [];
    assert run[..1] == [] + [Ingest(bad, false)] && run[..2] == run[..1] + [SetEnabled(true)];
    AfterSnoc(m, [], Ingest(bad, false));
    AfterSnoc(m, run[..1], SetEnabled(true));
    assert [Ingest(bad, false), Ingest(good, false)][..1] == run[..1];
  }

  lemma AfterSnoc(m: Monitor, run: seq<Action>, a: Action)
    ensures After(m, run + [a]) == Step(After(m, run), a)
  {
    assert (run + [a])[..|run|] == run;
  }

  // ---- reports that are not acted on ----

  predicate IsQuiet(m: Monitor, r: Report) {
    NamesAnother(m, r) || !m.enabled || Says(r.status, Neither)
  }

  /** Equal but for what was recorded. */
  predicate Alike(a: Monitor, b: Monitor) {
    b == a.(history := b.history)
  }

  lemma StepAlike(a: Monitor, b: Monitor, action: Action)
    requires Alike(a, b)
    ensures Alike(Step(a, action), Step(b, action))
    ensures action.Ingest? ==> Ingested(a, action.report, action.lost).1 == Ingested(b, action.report, action.lost).1
  {
  }

  lemma QuietIsAlike(m: Monitor, r: Report, lost: bool)
    requires IsQuiet(m, r)
    ensures Alike(m, Step(m, Ingest(r, lost))) && Ingested(m, r, lost).1 == NoAlert
  {
  }

  /** The same run without the action at `p`. */
  predicate Omits(less: seq<Action>, run: seq<Action>, p: nat)
    requires p < |run|
  {
    |less| == |run| - 1 && less[..p] == run[..p] && forall i | p < i < |run| :: less[i - 1] == run[i]
  }

  lemma AfterPrefix(m: Monitor, run: seq<Action>, i: nat)
    requires 0 < i <= |run|
    ensures After(m, run[..i]) == Step(After(m, run[..i - 1]), run[i - 1])
  {
    assert run[..i][..i - 1] == run[..i - 1];
  }

  lemma {:induction false} AlikeWithout(m: Monitor, run: seq<Action>, less: seq<Action>, p: nat, i: nat)
    requires p < i <= |run| && Omits(less, run, p) && run[p].Ingest? && IsQuiet(After(m, run[..p]), run[p].report)
    ensures Alike(After(m, less[..i - 1]), After(m, run[..i]))
    decreases i
  {
    AfterPrefix(m, run, i);
    if i - 1 == p {
      QuietIsAlike(After(m, run[..p]), run[p].report, run[p].lost);
    } else {
      AlikeWithout(m, run, less, p, i - 1);
      AfterPrefix(m, less, i - 1);
      StepAlike(After(m, less[..i - 2]), After(m, run[..i - 1]), run[i - 1]);
    }
  }

  /** A report that is filtered out, cancelled or taken while paused alerts nobody and changes no
      later alert: without it the run alerts the same, whatever happens before and after. */
  lemma QuietReportsChangeNoAlert(m: Monitor, run: seq<Action>, less: seq<Action>, p: nat)
    requires p < |run| && Omits(less, run, p) && run[p].Ingest? && IsQuiet(After(m, run[..p]), run[p].report)
    ensures AlertAt(m, run, p) == NoAlert
    ensures forall i | 0 <= i < p :: AlertAt(m, run, i) == AlertAt(m, less, i)
    ensures forall i | p < i < |run| :: AlertAt(m, run, i) == AlertAt(m, less, i - 1)
  {
    forall i | 0 <= i < p ensures AlertAt(m, run, i) == AlertAt(m, less, i) {
      assert run[..i] == run[..p][..i] == less[..i] && run[i] == run[..p][i] == less[i];
    }
    forall i | p < i < |run| ensures AlertAt(m, run, i) == AlertAt(m, less, i - 1) {
      AlikeWithout(m, run, less, p, i);
      StepAlike(After(m, less[..i - 1]), After(m, run[..i]), run[i]);
    }
  }

  // ---- history ----

  function Reported(m: Monitor, run: seq<Action>): seq<Run> {
    if run == [] then []
    else
      var n := |run| - 1;
      Reported(m, run[..n])
      + match run[n]
        case Ingest(r, lost) => if !lost && !NamesAnother(After(m, run[..n]), r) then [Recorded(r)] else []
        case _ => []
  }

  function Recorded(r: Report): Run {
    Run(if Says(r.status, Failure) then Down else if Says(r.status, Success) then Up else Unknown, Lower(Trim(r.status)), r.workflow)
  }

  /** Every report that concerns the monitor is recorded, acted on or not, in the order it came, and
      nothing is ever taken out. */
  lemma {:induction false} EveryReportIsRecorded(m: Monitor, run: seq<Action>)
    ensures After(m, run).history == m.history + Reported(m, run)
  {
    if run != [] {
      var n := |run| - 1;
      EveryReportIsRecorded(m, run[..n]);
      StepRecords(After(m, run[..n]), run[n]);
    }
  }

  lemma StepRecords(m: Monitor, a: Action)
    ensures Step(m, a).history == m.history + match a
                                              case Ingest(r, lost) => if !lost && !NamesAnother(m, r) then [Recorded(r)] else []
                                              case _ => []
  {
  }

  // ---- pausing one way and resuming the other ----

  predicate OnlyReportsAndUpdates(run: seq<Action>) {
    forall i | 0 <= i < |run| :: !run[i].SetEnabled?
  }

  /** A monitor paused by SetEnabled and resumed by an update stays paused in its status: failures
      fire, but no later success is ever announced as a recovery. */
  lemma ResumedByUpdateNeverResolves(m: Monitor, run: seq<Action>, i: nat)
    requires OnlyReportsAndUpdates(run) && i < |run|
    ensures var paused := After(m, [SetEnabled(false), UpdateEnabled(true)]);
            paused.enabled && After(paused, run[..i]).last == Paused && AlertAt(paused, run, i) != Resolved
  {
    var paused := After(m, [SetEnabled(false), UpdateEnabled(true)]);
    assert [SetEnabled(false), UpdateEnabled(true)] == [] + [SetEnabled(false)] + [UpdateEnabled(true)];
    AfterSnoc(m, [], SetEnabled(false));
    AfterSnoc(m, [] + [SetEnabled(false)], UpdateEnabled(true));
    StaysPaused(paused, run[..i]);
  }

  lemma {:induction false} StaysPaused(m: Monitor, run: seq<Action>)
    requires m.last == Paused && OnlyReportsAndUpdates(run)
    ensures After(m, run).last == Paused
  {
    if run != [] {
      StaysPaused(m, run[..|run| - 1]);
    }
  }

  // ---- the service ----

  class Service {
    var enabled: bool
    var last: Status
    var workflow: string
    var notifyOnSuccess: bool
    var history: seq<Run>

    function State(): Monitor
      reads this
    {
      Monitor(enabled, last, workflow, notifyOnSuccess, history)
    }

    constructor (enabled: bool, workflow: string, notifyOnSuccess: bool)
      ensures Fresh(State()) && State() == Monitor(enabled, Unknown, workflow, notifyOnSuccess, [])
    {
      this.enabled, this.workflow, this.notifyOnSuccess := enabled, workflow, notifyOnSuccess;
      last, history := Unknown, [];
    }

    method ApplyStatus(status: Status)
      modifies this`last
      ensures State() == StatusApplied(old(State()), status)
    {
      if enabled && last != Paused {
        last := status;
      }
    }

    method RecordRun(run: Run, lost: bool)
      modifies this`history
      ensures history == if lost then old(history) else old(history) + [run]
    {
      if !lost {
        history := history + [run];
      }
    }

    method SetEnabled(on: bool)
      modifies this`enabled, this`last
      ensures State() == Step(old(State()), Action.SetEnabled(on))
    {
      enabled := on;
      last := if on then Unknown else Paused;
    }

    /** `None` is a report that was taken but deliberately not acted on. */
    method Ingest(r: Report, lost: bool) returns (alert: Alert)
      modifies this`last, this`history
      ensures (State(), alert) == Ingested(old(State()), r, lost)
    {
      if workflow != "" && r.workflow != "" && !EqualFold(workflow, r.workflow) {
        return NoAlert;
      }
      var c := Classify(r.status);
      RecordRun(Run(StatusOf(c), Conclusion(r.status), r.workflow), lost);
      if !enabled || c == Neither {
        return NoAlert;
      }
      alert := NoAlert;
      if c == Failure {
        alert := Firing;
      } else if last == Down {
        alert := Resolved;
      } else if notifyOnSuccess {
        alert := Succeeded;
      }
      ApplyStatus(StatusOf(c));
    }
  }
}
