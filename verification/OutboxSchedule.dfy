/** A row is never handed out before its time: not before it was staged for, and not before its backoff is over. */
module OutboxSchedule {
  import opened Wrappers
  import opened OutboxTables
  import opened OutboxProtocol
  import opened OutboxSafety

  /** A MarkFailed on row `id` has taken effect since position `from` of the log. */
  ghost predicate RetriedSince(log: seq<Effect>, from: nat, id: RowId) {
    exists m :: from <= m < |log| && log[m].Retried? && log[m].rec.id == id
  }

  /** Unless it has been retried since, row `id` is available from `when` on, or it is gone for good. */
  ghost predicate Waits(s: State, from: nat, id: RowId, when: int) {
    && WasStaged(s.log, id) && from <= |s.log|
    && (RetriedSince(s.log, from, id) || (id in s.tables.active ==> s.tables.active[id].availableAt == when))
  }

  lemma WaitsStep(cap: int, s: State, step: Step, from: nat, id: RowId, when: int)
    requires Enabled(s, step) && Waits(s, from, id, when)
    ensures Waits(Apply(cap, s, step), from, id, when)
  {
    var s' := Apply(cap, s, step);
    LogGrows(cap, s, step);
    if RetriedSince(s.log, from, id) {
      var m :| from <= m < |s.log| && s.log[m].Retried? && s.log[m].rec.id == id;
      assert s'.log[m] == s.log[m];
    } else if step.Land? && Matches(s.tables, step.cmd.rec.id, step.cmd.rec.token) && step.cmd.rec.id == id {
      assert s'.log[|s.log|] == EffectOf(step.cmd);
    }
  }

  lemma {:induction false} WaitsRun(cap: int, s: State, steps: seq<Step>, from: nat, id: RowId, when: int)
    requires ValidRun(cap, s, steps) && Waits(s, from, id, when)
    ensures Waits(Run(cap, s, steps), from, id, when)
    decreases |steps|
  {
    if steps != [] {
      WaitsStep(cap, s, steps[0], from, id, when);
      WaitsRun(cap, Apply(cap, s, steps[0]), steps[1..], from, id, when);
    }
  }

  /** A Fetch picks a waiting row no earlier than the row is available. */
  lemma PickedInTime(s: State, fetch: Step, from: nat, id: RowId, when: int)
    requires Enabled(s, fetch) && fetch.Fetch? && id in fetch.picked && Waits(s, from, id, when)
    ensures when <= fetch.at || RetriedSince(s.log, from, id)
  {
    PickInColumns(s.tables.active, fetch.at, fetch.limit, fetch.skip, fetch.picked);
  }

  /**
   * In every run, after a MarkFailed has taken effect, no Fetch whose now() lies before its nextAt picks the row
   * until another MarkFailed on it has taken effect.
   */
  lemma BackoffIsKept(cap: int, before: seq<Step>, cmd: Command, more: seq<Step>, fetch: Step)
    requires ValidRun(cap, Init, before) && cmd.action.MarkFailed?
    requires var s := Run(cap, Init, before);
             && Enabled(s, Land(cmd)) && cmd.rec.id in s.tables.active
             && s.tables.active[cmd.rec.id].token == Some(cmd.rec.token)
             && ValidRun(cap, Apply(cap, s, Land(cmd)), more)
             && Enabled(Run(cap, Apply(cap, s, Land(cmd)), more), fetch)
    requires fetch.Fetch? && cmd.rec.id in fetch.picked && fetch.at < cmd.action.nextAt
    ensures var s' := Apply(cap, Run(cap, Init, before), Land(cmd));
            RetriedSince(Run(cap, s', more).log, |s'.log|, cmd.rec.id)
  {
    var s, id := Run(cap, Init, before), cmd.rec.id;
    var s' := Apply(cap, s, Land(cmd));
    InvInit(cap);
    InvRun(cap, Init, before);
    assert Staged(id, s.tables.active[id].event) in s.log;
    LogGrows(cap, s, Land(cmd));
    MarkFailedInColumns(s.tables, id, cmd.rec.token, cmd.action.nextAt, cmd.action.reason, s.now);
    WaitsRun(cap, s', more, |s'.log|, id, cmd.action.nextAt);
    PickedInTime(Run(cap, s', more), fetch, |s'.log|, id, cmd.action.nextAt);
  }

  /** A committed row is not handed out before the time it was staged for, unless it has been retried. */
  lemma StageTimeIsKept(cap: int, s: State, stage: Step, more: seq<Step>, fetch: Step)
    requires stage.Stage? && Enabled(s, stage) && ValidRun(cap, Apply(cap, s, stage), more)
    requires Enabled(Run(cap, Apply(cap, s, stage), more), fetch)
    requires fetch.Fetch? && stage.id in fetch.picked && fetch.at < stage.availableAt
    ensures var s' := Apply(cap, s, stage); RetriedSince(Run(cap, s', more).log, |s'.log|, stage.id)
  {
    var s' := Apply(cap, s, stage);
    NewRowInColumns(stage.event, stage.availableAt);
    assert s'.log[|s.log|] == Staged(stage.id, stage.event);
    WaitsRun(cap, s', more, |s'.log|, stage.id, stage.availableAt);
    PickedInTime(Run(cap, s', more), fetch, |s'.log|, stage.id, stage.availableAt);
  }
}
