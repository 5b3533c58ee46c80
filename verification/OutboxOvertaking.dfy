/**
 * A schedule in which a late retry overtakes a fetch. Rows 1 and 2 are available at 1 and 2. Relay 0 claims row
 * 1 for one tick and fails; when its lease is over relay 1 begins a fetch, whose snapshot shows row 1 before row
 * 2; only then does the MarkFailed of relay 0 land, and it moves row 1 to 3, due at once but behind row 2.
 */
module OutboxOvertaking {
  import opened Wrappers
  import opened OutboxTables
  import opened OutboxProtocol
  import opened OutboxSkipLocked

  const Message := Event("e", OrderPlaced, "o", 1)
  const First := NewRow(Message, 1)
  const Second := NewRow(Message, 2)
  const Leased := First.(claimedUntil := Some(3), token := Some("a"))
  const Moved := Row(Message, 3, 1, Some("late"), None, None)
  const Taken := Snapshot(1, "a", Message, 0)
  const Late := Command(0, Taken, MarkFailed(3, "late"))

  function StepAt(limit: int, i: nat): FineStep {
    match i
    case 0 => Other(Tick(2))
    case 1 => Other(Stage(1, Message, 1))
    case 2 => Other(Stage(2, Message, 2))
    case 3 => Begin(0, 0, 2, 1, [1, 2])
    case 4 => Scan(0)
    case 5 => StampRows(0, 1, [1], map[1 := "a"], true)
    case 6 => Other(FailEarly(0))
    case 7 => Other(CallFail(0, 3, "late"))
    case 8 => Other(Tick(3))
    case 9 => Begin(1, 1, 3, limit, [1, 2])
    case 10 => Other(Land(Late))
    case _ => Scan(1)
  }

  function Schedule(limit: int, n: nat): seq<FineStep> {
    seq(n, i requires 0 <= i < n => StepAt(limit, i))
  }

  // ----- The states it goes through -----

  function RowsAt(n: nat): map<RowId, Row> {
    if n <= 1 then map[]
    else if n == 2 then map[1 := First]
    else if n <= 5 then map[1 := First, 2 := Second]
    else if n <= 10 then map[1 := Leased, 2 := Second]
    else map[1 := Moved, 2 := Second]
  }

  function LogAt(n: nat): seq<Effect> {
    (if n >= 2 then [Staged(1, Message)] else [])
    + (if n >= 3 then [Staged(2, Message)] else [])
    + (if n >= 6 then [Claimed(0, 2, 3, map[1 := "a"])] else [])
    + (if n >= 11 then [Retried(0, Taken)] else [])
  }

  function OpenAt(limit: int, n: nat): map<FetchId, Open> {
    match n
    case 4 => map[0 := Open(0, 2, 1, RowsAt(3), [1, 2], 0, [])]
    case 5 => map[0 := Open(0, 2, 1, RowsAt(3), [1, 2], 1, [1])]
    case 10 => map[1 := Open(1, 3, limit, RowsAt(9), [1, 2], 0, [])]
    case 11 => map[1 := Open(1, 3, limit, RowsAt(9), [1, 2], 0, [])]
    case 12 => map[1 := Open(1, 3, limit, RowsAt(9), [1, 2], 1, [1])]
    case 13 => map[1 := Open(1, 3, limit, RowsAt(9), [1, 2], 2, [1, 2])]
    case _ => map[]
  }

  function StateAt(limit: int, n: nat): Fine {
    Fine(
      State(
        if n == 0 then 0 else if n <= 8 then 2 else 3,
        Tables(RowsAt(n), []),
        if n >= 6 then {"a"} else {},
        if n == 6 then map[0 := Work([Taken], Fresh)] else if n == 7 then map[0 := Work([Taken], Failing)] else map[],
        if n >= 8 then {Late} else {},
        LogAt(n)),
      OpenAt(limit, n),
      (if n >= 4 then {0} else {}) + (if n >= 10 then {1} else {}),
      {})
  }

  /** Step `n` leads from state `n` to the next. */
  ghost predicate Goes(limit: int, n: nat) {
    && FineEnabled(StateAt(limit, n), StepAt(limit, n))
    && FineApply(0, StateAt(limit, n), StepAt(limit, n)) == StateAt(limit, n + 1)
  }

  lemma Stages(limit: int)
    ensures Goes(limit, 0) && Goes(limit, 1) && Goes(limit, 2)
  {
  }

  lemma FirstBegins(limit: int)
    ensures Goes(limit, 3)
  {
  }

  lemma FirstScans(limit: int)
    ensures Goes(limit, 4)
  {
    var c := StateAt(limit, 4);
    assert Lockable(c, 0, 1) && [] + [1] == [1];
    assert FineApply(0, c, Scan(0)).open == OpenAt(limit, 5);
  }

  lemma StampedRows()
    ensures Stamp(RowsAt(5), map[1 := "a"], 3) == RowsAt(6)
    ensures Snapshots(RowsAt(5), [1], map[1 := "a"]) == [Taken]
    ensures map[1 := "a"].Values == {"a"}
  {
    assert map[1 := "a"][1] in map[1 := "a"].Values;
  }

  lemma FirstCanStamp(limit: int)
    ensures FineEnabled(StateAt(limit, 5), StepAt(limit, 5))
  {
    assert FreshClaims(StateAt(limit, 5).s, [1], map[1 := "a"]);
  }

  lemma FirstStamps(limit: int)
    ensures Goes(limit, 5)
  {
    FirstCanStamp(limit);
    StampedRows();
    assert OpenAt(limit, 5) - {0} == OpenAt(limit, 6);
  }

  lemma FirstFails(limit: int)
    ensures Goes(limit, 6)
  {
  }

  lemma RetryIsIssued(limit: int)
    ensures Goes(limit, 7)
  {
  }

  lemma LeaseRunsOut(limit: int)
    ensures Goes(limit, 8)
  {
  }

  lemma SecondBegins(limit: int)
    ensures Goes(limit, 9)
  {
  }

  lemma RetryLands(limit: int)
    ensures Goes(limit, 10)
  {
  }

  lemma SecondScans(limit: int)
    requires limit >= 1
    ensures Goes(limit, 11)
  {
    var c := StateAt(limit, 11);
    assert Lockable(c, 1, 1) && [] + [1] == [1];
    assert FineApply(0, c, Scan(1)).open == OpenAt(limit, 12);
  }

  lemma SecondScansOn(limit: int)
    requires limit >= 2
    ensures Goes(limit, 12)
  {
    var c := StateAt(limit, 12);
    assert Lockable(c, 1, 2) && [1] + [2] == [1, 2];
    assert FineApply(0, c, Scan(1)).open == OpenAt(limit, 13);
  }

  lemma EachGoes(limit: int, n: nat)
    requires limit >= 1 && n <= (if limit >= 2 then 12 else 11)
    ensures Goes(limit, n)
  {
    match n {
      case 3 => FirstBegins(limit);
      case 4 => FirstScans(limit);
      case 5 => FirstStamps(limit);
      case 6 => FirstFails(limit);
      case 7 => RetryIsIssued(limit);
      case 8 => LeaseRunsOut(limit);
      case 9 => SecondBegins(limit);
      case 10 => RetryLands(limit);
      case 11 => SecondScans(limit);
      case 12 => SecondScansOn(limit);
      case _ => Stages(limit);
    }
  }

  ghost predicate Reaches(steps: seq<FineStep>, c: Fine) {
    FineRun(0, steps) == Some(c)
  }

  lemma RunExtends(steps: seq<FineStep>, c: Fine, step: FineStep)
    requires Reaches(steps, c) && FineEnabled(c, step)
    ensures Reaches(steps + [step], FineApply(0, c, step))
  {
    assert (steps + [step])[..|steps|] == steps;
  }

  lemma ScheduleStarts(limit: int)
    ensures Reaches(Schedule(limit, 0), StateAt(limit, 0))
  {
    assert StateAt(limit, 0) == FineInit;
  }

  lemma ScheduleExtends(limit: int, n: nat)
    requires Reaches(Schedule(limit, n), StateAt(limit, n)) && Goes(limit, n)
    ensures Reaches(Schedule(limit, n + 1), StateAt(limit, n + 1))
  {
    RunExtends(Schedule(limit, n), StateAt(limit, n), StepAt(limit, n));
    assert Schedule(limit, n + 1) == Schedule(limit, n) + [StepAt(limit, n)];
  }

  lemma {:induction false} ScheduleRuns(limit: int, n: nat)
    requires limit >= 1 && n <= (if limit >= 2 then 13 else 12)
    ensures Reaches(Schedule(limit, n), StateAt(limit, n))
  {
    if n == 0 {
      ScheduleStarts(limit);
    } else {
      var m := n - 1;
      ScheduleRuns(limit, m);
      EachGoes(limit, m);
      ScheduleExtends(limit, m);
    }
  }

  // ----- What it shows -----

  lemma SecondCanStamp(limit: int, n: nat, picked: seq<RowId>, claims: map<RowId, Token>)
    requires (limit == 1 && n == 12 && picked == [1]) || (limit == 2 && n == 13 && picked == [2, 1])
    requires claims == map[1 := "b", 2 := "c"] - (if limit == 1 then {2} else {})
    ensures FineEnabled(StateAt(limit, n), StampRows(1, 1, picked, claims, true))
  {
    assert FreshClaims(StateAt(limit, n).s, picked, claims);
  }

  /** With a limit of two the fetch locks row 1 before row 2 and answers with row 2 first. */
  lemma LockOrderIsLost() returns (steps: seq<FineStep>, stamp: FineStep)
    ensures FineRun(0, steps).Some? && stamp.StampRows? && FineEnabled(FineRun(0, steps).value, stamp)
    ensures FineRun(0, steps).value.open[stamp.f].held == [1, 2] && stamp.picked == [2, 1]
  {
    var claims := map[1 := "b", 2 := "c"];
    ScheduleRuns(2, 13);
    SecondCanStamp(2, 13, [2, 1], claims);
    steps, stamp := Schedule(2, 13), StampRows(1, 1, [2, 1], claims, true);
  }

  lemma NothingInTheWay(n: nat)
    requires n <= 12
    ensures !InTheWay(StateAt(1, n), 1, 2)
  {
  }

  lemma NeverACause()
    ensures !HadCause(0, Schedule(1, 12), 1, 2)
  {
    var steps := Schedule(1, 12);
    forall n | 0 <= n <= 12 && FineRun(0, steps[..n]).Some? ensures !InTheWay(FineRun(0, steps[..n]).value, 1, 2) {
      ScheduleRuns(1, n);
      assert steps[..n] == Schedule(1, n);
      NothingInTheWay(n);
    }
  }

  /** With a limit of one it passes row 2 over, although nothing was ever in the way of row 2. */
  lemma PassedOverWithoutCause() returns (steps: seq<FineStep>, stamp: FineStep)
    ensures FineRun(0, steps).Some? && stamp.StampRows? && FineEnabled(FineRun(0, steps).value, stamp)
    ensures 2 in AsFetch(FineRun(0, steps).value, stamp).skip && !HadCause(0, steps, stamp.f, 2)
  {
    var claims := map[1 := "b", 2 := "c"] - {2};
    ScheduleRuns(1, 12);
    SecondCanStamp(1, 12, [1], claims);
    NeverACause();
    steps, stamp := Schedule(1, 12), StampRows(1, 1, [1], claims, true);
    var c := StateAt(1, 12);
    assert 1 in c.open[1].held && !Before(c.s.tables.active, 1, 2);
  }
}
