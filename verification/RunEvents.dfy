/** The events of one run, as the journal carries them (`events.types.ts`). */
module RunEvents {
  import opened Wrappers
  import opened RunQueue

  type Outcome = s: Status | Terminal(s) witness Failed
  type Percent = p: real | 0.0 <= p witness 0.0

  datatype Failure = Failure(name: string, message: string)

  datatype Body =
    | RunStarted
    | RunFinished(outcome: Outcome, durationMs: int, failure: Option<Failure>)
    | StepStarted(stepId: string, ordinal: int)
    | StepFinished(stepId: string, stepStatus: string, durationMs: int, detail: Option<string>, failure: Option<Failure>)
    | PlanReady(loadOrder: seq<string>, estimates: map<string, nat>)
    | TableProgress(table: string, rowsDone: nat, rowsTotal: nat, pct: Percent)
    | TableFinished(table: string, rowsCopied: nat, durationMs: int, success: bool, error: Option<string>)
    | OverallProgress(rowsDone: nat, rowsTotal: nat, tablesDone: nat, tablesTotal: nat)
    | Log(level: string, message: string, logStep: Option<string>)

  /** `seq` is assigned once, by the run's own process, and is the replay cursor. */
  datatype Event = Event(seqNo: nat, at: int, body: Body)

  /** `MIGRATION_STEP_ORDER`. */
  const STEP_ORDER: seq<string> := [
    "validate_connections", "create_database", "inspect_and_diff", "sync_schema", "disable_triggers",
    "migrate_data", "enable_triggers", "create_indexes", "reset_sequences"]

  function IndexIn(s: string, order: seq<string>): (i: nat)
    ensures i <= |order|
    ensures i < |order| ==> order[i] == s
    ensures i == |order| ==> s !in order
  {
    if order == [] then 0 else if order[0] == s then 0 else 1 + IndexIn(s, order[1..])
  }

  /** A step's place on the timeline; past the end for one the order does not know. */
  function StepOrdinal(stepId: string): int {
    IndexIn(stepId, STEP_ORDER)
  }

  predicate Ascending(log: seq<Event>) {
    forall i, j :: 0 <= i < j < |log| ==> log[i].seqNo < log[j].seqNo
  }

  function NoLogs(events: seq<Event>): seq<Event> {
    if events == [] then []
    else if events[0].body.Log? then NoLogs(events[1..]) else [events[0]] + NoLogs(events[1..])
  }

  /** What a cohort is sent of some events: the redacted one gets no log lines. */
  function Visible(redacted: bool, events: seq<Event>): seq<Event> {
    if redacted then NoLogs(events) else events
  }

  function Flatten(batches: seq<seq<Event>>): seq<Event> {
    if batches == [] then [] else batches[0] + Flatten(batches[1..])
  }
  lemma {:induction false} FlattenThen(batches: seq<seq<Event>>, batch: seq<Event>)
    ensures Flatten(batches + [batch]) == Flatten(batches) + batch
    decreases |batches|
  {
    if batches == [] {
      assert [batch][1..] == [];
    } else {
      assert (batches + [batch])[1..] == batches[1..] + [batch];
      FlattenThen(batches[1..], batch);
    }
  }
}
