/**
 * Stale workers are harmless: every settlement statement that carries a superseded token can be erased
 * from a run without changing what the run does.
 */
module OutboxErasure {
  import opened Wrappers
  import opened OutboxTables
  import opened OutboxProtocol
  import opened OutboxSafety

  /** A statement that lands after its claim was superseded or settled. */
  predicate Stale(s: State, step: Step) {
    step.Land? && !Matches(s.tables, step.cmd.rec.id, step.cmd.rec.token)
  }

  /** The run without its stale statements. */
  ghost function Erase(cap: int, s: State, steps: seq<Step>): seq<Step>
    requires ValidRun(cap, s, steps)
    decreases |steps|
  {
    if steps == [] then [] else
      var rest := Erase(cap, Apply(cap, s, steps[0]), steps[1..]);
      if Stale(s, steps[0]) then rest else [steps[0]] + rest
  }

  lemma {:induction false} ErasureInvisible(cap: int, s: State, steps: seq<Step>)
    requires ValidRun(cap, s, steps)
    ensures ValidRun(cap, s, Erase(cap, s, steps))
    ensures Run(cap, s, Erase(cap, s, steps)) == Run(cap, s, steps)
    decreases |steps|
  {
    if steps != [] {
      var s' := Apply(cap, s, steps[0]);
      ErasureInvisible(cap, s', steps[1..]);
      if !Stale(s, steps[0]) {
        var kept := [steps[0]] + Erase(cap, s', steps[1..]);
        assert kept[1..] == Erase(cap, s', steps[1..]);
      }
    }
  }

  /** Every statement that lands finds the row under its own token. */
  ghost predicate NothingStale(cap: int, s: State, steps: seq<Step>)
    requires ValidRun(cap, s, steps)
    decreases |steps|
  {
    steps == [] ||
    (var step := steps[0];
     && (step.Land? ==> var id := step.cmd.rec.id;
                        id in s.tables.active && s.tables.active[id].token == Some(step.cmd.rec.token))
     && NothingStale(cap, Apply(cap, s, step), steps[1..]))
  }

  /** The erasure is exactly that: no stale statement is left, and no other kind of step is missing. */
  lemma {:induction false} OnlyStaleErased(cap: int, s: State, steps: seq<Step>, step: Step)
    requires ValidRun(cap, s, steps)
    ensures ValidRun(cap, s, Erase(cap, s, steps)) && NothingStale(cap, s, Erase(cap, s, steps))
    ensures !step.Land? ==> multiset(Erase(cap, s, steps))[step] == multiset(steps)[step]
    decreases |steps|
  {
    ErasureInvisible(cap, s, steps);
    if steps != [] {
      var s' := Apply(cap, s, steps[0]);
      OnlyStaleErased(cap, s', steps[1..], step);
      assert steps == [steps[0]] + steps[1..];
      if !Stale(s, steps[0]) {
        var kept := [steps[0]] + Erase(cap, s', steps[1..]);
        assert kept[1..] == Erase(cap, s', steps[1..]);
      }
    }
  }

  /** The token was handed out and is no longer the row's current one. */
  predicate Superseded(s: State, id: RowId, token: Token) {
    token in s.used && !Matches(s.tables, id, token)
  }

  lemma SupersededStep(cap: int, s: State, step: Step, id: RowId, token: Token)
    requires Enabled(s, step) && Superseded(s, id, token)
    ensures Superseded(Apply(cap, s, step), id, token)
  {
  }

  /** All later statements for (id, token), whoever issues them and whenever they land. */
  predicate Carries(step: Step, id: RowId, token: Token) {
    step.Land? && step.cmd.rec.id == id && step.cmd.rec.token == token
  }

  function Without(steps: seq<Step>, id: RowId, token: Token): seq<Step> {
    if steps == [] then []
    else if Carries(steps[0], id, token) then Without(steps[1..], id, token)
    else [steps[0]] + Without(steps[1..], id, token)
  }

  /** Struck are the token's own statements on that row, and nothing else. */
  lemma {:induction false} OnlyCarriersStruck(steps: seq<Step>, id: RowId, token: Token, step: Step)
    ensures multiset(Without(steps, id, token))[step] ==
            if step.Land? && step.cmd.rec.id == id && step.cmd.rec.token == token then 0 else multiset(steps)[step]
  {
    if steps != [] {
      assert steps == [steps[0]] + steps[1..];
      OnlyCarriersStruck(steps[1..], id, token, step);
    }
  }

  /**
   * Once superseded, always superseded: from that moment on the token's statements can be struck from any
   * continuation, chosen by the token alone and not by what the database looks like when they land.
   */
  lemma {:induction false} SupersededForever(cap: int, s: State, steps: seq<Step>, id: RowId, token: Token)
    requires ValidRun(cap, s, steps) && Superseded(s, id, token)
    ensures Superseded(Run(cap, s, steps), id, token)
    ensures ValidRun(cap, s, Without(steps, id, token))
    ensures Run(cap, s, Without(steps, id, token)) == Run(cap, s, steps)
    decreases |steps|
  {
    if steps != [] {
      var s' := Apply(cap, s, steps[0]);
      SupersededStep(cap, s, steps[0], id, token);
      SupersededForever(cap, s', steps[1..], id, token);
      if !Carries(steps[0], id, token) {
        var kept := [steps[0]] + Without(steps[1..], id, token);
        assert kept[1..] == Without(steps[1..], id, token);
      }
    }
  }

  /** Racing Terminate calls leave at most one dead letter per row, and none beside an active row. */
  lemma AtMostOneDeadLetter(cap: int, steps: seq<Step>, id: RowId)
    requires ValidRun(cap, Init, steps)
    ensures var t := Run(cap, Init, steps).tables;
            DeadCount(t.dead, id) <= 1 && (id in t.active ==> DeadCount(t.dead, id) == 0)
  {
    RowInExactlyOnePlace(cap, steps, id);
  }
}
