/**
 * One subscribed topic: the pump goroutine decodes raw messages and offers them on an unbuffered channel,
 * the consumer goroutine handles them. A step is one scheduling choice of either goroutine, or something
 * the broker or the owner of the context does.
 */
module KafkaPipeline {
  import opened Wrappers

  datatype Msg = Msg(offset: nat, decodable: bool)

  datatype Pump =
    | Selecting                    // at the outer select
    | Offering(msg: Msg)           // at the inner select, with a decoded message
    | PumpEnded(dropped: seq<Msg>) // returned, channel closed; what the cancel made it nack undelivered

  datatype Consumer = Receiving | Handling(msg: Msg) | ConsumerEnded

  datatype Verdict = Succeeds | ReturnsError | Panics

  /** One run of the handler on one envelope. */
  datatype Handled = Handled(msg: Msg, verdict: Verdict)

  /** `taken` came off the raw channel, `forwarded` reached the consumer; the last three list what was done. */
  datatype Pipe = Pipe(
    raw: seq<Msg>, closed: bool, cancelled: bool, pump: Pump, consumer: Consumer,
    taken: seq<Msg>, forwarded: seq<Msg>, handled: seq<Handled>, acked: seq<Msg>, nacked: seq<Msg>)

  datatype Step =
    | Deliver(msg: Msg)
    | CloseRaw
    | Cancel
    | Take
    | HandOff
    | GiveUp
    | PumpReturns
    | Handle(verdict: Verdict)
    | ConsumerReturns

  const Fresh := Pipe([], false, false, Selecting, Receiving, [], [], [], [], [])

  predicate Enabled(p: Pipe, step: Step) {
    match step
    case Deliver(msg) => !p.closed && msg !in p.raw && msg !in p.taken
    case CloseRaw => true
    case Cancel => true
    case Take => p.pump.Selecting? && p.raw != []
    case HandOff => p.pump.Offering? && p.consumer.Receiving?
    case GiveUp => p.pump.Offering? && p.cancelled
    case PumpReturns => p.pump.Selecting? && (p.cancelled || (p.closed && p.raw == []))
    case Handle(_) => p.consumer.Handling?
    case ConsumerReturns => p.consumer.Receiving? && p.pump.PumpEnded?
  }

  function Apply(p: Pipe, step: Step): Pipe
    requires Enabled(p, step)
  {
    match step
    case Deliver(msg) => p.(raw := p.raw + [msg])
    case CloseRaw => p.(closed := true)
    case Cancel => p.(cancelled := true)
    case Take =>
      var msg := p.raw[0];
      var p1 := p.(raw := p.raw[1..], taken := p.taken + [msg]);
      if msg.decodable then p1.(pump := Offering(msg)) else p1.(nacked := p.nacked + [msg])
    case HandOff =>
      p.(pump := Selecting, consumer := Handling(p.pump.msg), forwarded := p.forwarded + [p.pump.msg])
    case GiveUp => p.(pump := PumpEnded([p.pump.msg]), nacked := p.nacked + [p.pump.msg])
    case PumpReturns => p.(pump := PumpEnded([]))
    case Handle(verdict) =>
      var msg := p.consumer.msg;
      var p1 := p.(consumer := Receiving, handled := p.handled + [Handled(msg, verdict)]);
      if verdict.Succeeds? then p1.(acked := p.acked + [msg]) else p1.(nacked := p.nacked + [msg])
    case ConsumerReturns => p.(consumer := ConsumerEnded)
  }

  predicate Ended(p: Pipe) {
    p.pump.PumpEnded? && p.consumer.ConsumerEnded?
  }

  ghost predicate ValidRun(p: Pipe, steps: seq<Step>)
    decreases |steps|
  {
    steps == [] || (Enabled(p, steps[0]) && ValidRun(Apply(p, steps[0]), steps[1..]))
  }

  function Run(p: Pipe, steps: seq<Step>): Pipe
    requires ValidRun(p, steps)
    decreases |steps|
  {
    if steps == [] then p else Run(Apply(p, steps[0]), steps[1..])
  }

  // ----- Every message is settled once -----

  function Decodable(s: seq<Msg>): seq<Msg> {
    if s == [] then [] else
      var before := Decodable(s[..|s| - 1]);
      if s[|s| - 1].decodable then before + [s[|s| - 1]] else before
  }

  /** The messages whose handler returned nil, in order. */
  function Accepted(h: seq<Handled>): seq<Msg> {
    if h == [] then [] else
      var before := Accepted(h[..|h| - 1]);
      if h[|h| - 1].verdict.Succeeds? then before + [h[|h| - 1].msg] else before
  }

  function Messages(h: seq<Handled>): seq<Msg> {
    if h == [] then [] else Messages(h[..|h| - 1]) + [h[|h| - 1].msg]
  }

  lemma {:induction false} AcceptedAre(h: seq<Handled>, m: Msg)
    ensures m in Accepted(h) <==> Handled(m, Succeeds) in h
  {
    if h != [] {
      AcceptedAre(h[..|h| - 1], m);
    }
  }

  lemma {:induction false} DecodableAre(s: seq<Msg>, m: Msg)
    ensures m in Decodable(s) <==> m in s && m.decodable
  {
    if s != [] {
      DecodableAre(s[..|s| - 1], m);
    }
  }

  lemma {:induction false} MessagesAt(h: seq<Handled>, i: nat)
    requires i < |h|
    ensures |Messages(h)| == |h| && Messages(h)[i] == h[i].msg
  {
    if |h| > 1 {
      MessagesAt(h[..|h| - 1], if i < |h| - 1 then i else 0);
    }
  }

  /** The decoded message the pump has in hand, or dropped on its way out. */
  function InHand(pump: Pump): seq<Msg> {
    match pump
    case Selecting => []
    case Offering(msg) => [msg]
    case PumpEnded(dropped) => dropped
  }

  function Unsettled(p: Pipe): multiset<Msg> {
    (if p.pump.Offering? then multiset{p.pump.msg} else multiset{})
    + (if p.consumer.Handling? then multiset{p.consumer.msg} else multiset{})
  }

  ghost predicate Counted(p: Pipe) {
    multiset(p.taken) == multiset(p.acked) + multiset(p.nacked) + Unsettled(p)
  }

  ghost predicate InOrder(p: Pipe) {
    && Decodable(p.taken) == p.forwarded + InHand(p.pump)
    && p.forwarded == Messages(p.handled) + (if p.consumer.Handling? then [p.consumer.msg] else [])
    && p.acked == Accepted(p.handled)
  }

  ghost predicate WellEnded(p: Pipe) {
    && Distinct(p.taken + p.raw)
    && (p.pump.PumpEnded? && p.pump.dropped != [] ==>
          p.cancelled && |p.pump.dropped| == 1 && p.pump.dropped[0] in p.nacked)
    && (p.consumer.ConsumerEnded? ==> p.pump.PumpEnded?)
    && (p.pump.PumpEnded? && !p.cancelled ==> p.closed && p.raw == [])
  }

  ghost predicate Inv(p: Pipe) {
    Counted(p) && InOrder(p) && WellEnded(p)
  }

  lemma DecodableAppend(s: seq<Msg>, m: Msg)
    ensures Decodable(s + [m]) == Decodable(s) + if m.decodable then [m] else []
  {
    assert (s + [m])[..|s|] == s;
  }

  lemma CountedTake(p: Pipe)
    requires Counted(p) && Enabled(p, Take)
    ensures Counted(Apply(p, Take))
  {
    var p', m := Apply(p, Take), p.raw[0];
    assert Unsettled(p') == Unsettled(p) + if m.decodable then multiset{m} else multiset{};
    if !m.decodable {
      assert multiset(p'.nacked) == multiset(p.nacked) + multiset{m};
    }
  }

  lemma CountedHandOff(p: Pipe)
    requires Counted(p) && Enabled(p, HandOff)
    ensures Counted(Apply(p, HandOff))
  {
  }

  lemma CountedHandle(p: Pipe, verdict: Verdict)
    requires Counted(p) && Enabled(p, Handle(verdict))
    ensures Counted(Apply(p, Handle(verdict)))
  {
  }

  lemma CountedStep(p: Pipe, step: Step)
    requires Counted(p) && Enabled(p, step)
    ensures Counted(Apply(p, step))
  {
    match step {
      case Take => CountedTake(p);
      case HandOff => CountedHandOff(p);
      case Handle(verdict) => CountedHandle(p, verdict);
      case _ =>
    }
  }

  lemma InOrderHandle(p: Pipe, verdict: Verdict)
    requires InOrder(p) && Enabled(p, Handle(verdict))
    ensures InOrder(Apply(p, Handle(verdict)))
  {
    var h := p.handled + [Handled(p.consumer.msg, verdict)];
    assert h[..|p.handled|] == p.handled;
  }

  lemma InOrderTake(p: Pipe)
    requires InOrder(p) && Enabled(p, Take)
    ensures InOrder(Apply(p, Take))
  {
    DecodableAppend(p.taken, p.raw[0]);
  }

  lemma InOrderStep(p: Pipe, step: Step)
    requires InOrder(p) && Enabled(p, step)
    ensures InOrder(Apply(p, step))
  {
    match step {
      case Take => InOrderTake(p);
      case HandOff =>
        assert p.forwarded + InHand(p.pump) == (p.forwarded + [p.pump.msg]) + [];
      case Handle(verdict) => InOrderHandle(p, verdict);
      case _ =>
    }
  }

  lemma WellEndedStep(p: Pipe, step: Step)
    requires WellEnded(p) && Enabled(p, step)
    ensures WellEnded(Apply(p, step))
  {
    if step.Take? {
      assert p.taken + p.raw == (p.taken + [p.raw[0]]) + p.raw[1..];
    } else if step.Deliver? {
      assert p.taken + (p.raw + [step.msg]) == (p.taken + p.raw) + [step.msg];
    }
  }

  lemma CancelledStep(p: Pipe, step: Step)
    requires Enabled(p, step)
    ensures Apply(p, step).cancelled == (p.cancelled || step.Cancel?)
  {
  }

  lemma InvStep(p: Pipe, step: Step)
    requires Inv(p) && Enabled(p, step)
    ensures Inv(Apply(p, step))
  {
    CountedStep(p, step);
    InOrderStep(p, step);
    WellEndedStep(p, step);
  }

  lemma {:induction false} InvRun(p: Pipe, steps: seq<Step>)
    requires Inv(p) && ValidRun(p, steps)
    ensures Inv(Run(p, steps))
    decreases |steps|
  {
    if steps != [] {
      InvStep(p, steps[0]);
      InvRun(Apply(p, steps[0]), steps[1..]);
    }
  }

  lemma {:induction false} CountsOne(s: seq<Msg>, m: Msg)
    requires Distinct(s) && m in s
    ensures multiset(s)[m] == 1
  {
    var i :| 0 <= i < |s| && s[i] == m;
    assert s == s[..i] + [m] + s[i + 1..];
  }

  /**
   * Once both goroutines have returned, each message taken off the raw channel was acked or nacked exactly
   * once. The handler ran on the decodable ones in order, all but at most the last, which a cancel nacked;
   * the acked ones are those it accepted.
   */
  lemma SettledExactlyOnce(steps: seq<Step>, m: Msg)
    requires ValidRun(Fresh, steps) && Ended(Run(Fresh, steps))
    ensures var p := Run(Fresh, steps);
            && (m in p.taken ==> multiset(p.acked)[m] + multiset(p.nacked)[m] == 1)
            && (m !in p.taken ==> m !in p.acked && m !in p.nacked)
            && p.acked == Accepted(p.handled) && p.forwarded == Messages(p.handled)
            && Decodable(p.taken) == p.forwarded + p.pump.dropped
            && |p.pump.dropped| <= 1 && (p.pump.dropped != [] ==> p.cancelled && p.pump.dropped[0] in p.nacked)
  {
    var p := Run(Fresh, steps);
    InvRun(Fresh, steps);
    assert m in p.taken ==> m in multiset(p.taken);
    assert m in p.acked ==> m in multiset(p.acked);
    assert m in p.nacked ==> m in multiset(p.nacked);
    if m in p.taken {
      forall i, j | 0 <= i < j < |p.taken| ensures p.taken[i] != p.taken[j] {
        assert (p.taken + p.raw)[i] != (p.taken + p.raw)[j];
      }
      CountsOne(p.taken, m);
    }
  }

  /**
   * Which of the two it was: acked exactly when its handler returned nil; a message that does not decode, that
   * a cancel kept from the handler, or whose handler failed or panicked is nacked.
   */
  lemma AckedIffHandlerSucceeded(steps: seq<Step>, m: Msg)
    requires ValidRun(Fresh, steps) && Ended(Run(Fresh, steps))
    ensures var p := Run(Fresh, steps);
            && (m in p.acked <==> Handled(m, Succeeds) in p.handled)
            && (m in p.nacked <==> m in p.taken && Handled(m, Succeeds) !in p.handled)
            && (m.decodable && m in p.taken <==> m in p.forwarded || m in p.pump.dropped)
            && |p.forwarded| == |p.handled|
            && forall i :: 0 <= i < |p.forwarded| ==> p.forwarded[i] == p.handled[i].msg
  {
    var p := Run(Fresh, steps);
    SettledExactlyOnce(steps, m);
    AcceptedAre(p.handled, m);
    DecodableAre(p.taken, m);
    assert m in p.acked <==> m in multiset(p.acked);
    assert m in p.nacked <==> m in multiset(p.nacked);
    if p.handled != [] {
      MessagesAt(p.handled, 0);
    }
    forall i | 0 <= i < |p.forwarded| ensures p.forwarded[i] == p.handled[i].msg {
      MessagesAt(p.handled, i);
    }
  }

  // ----- After a cancel both goroutines return -----

  /** A step of one of the two goroutines, as opposed to the broker or the owner of the context. */
  predicate Internal(step: Step) {
    !step.Deliver? && !step.CloseRaw? && !step.Cancel?
  }

  /** Work left for the two goroutines. */
  function Left(p: Pipe): nat {
    5 * |p.raw|
    + (match p.pump case Selecting => 2 case Offering(_) => 5 case PumpEnded(_) => 0)
    + (match p.consumer case Receiving => 1 case Handling(_) => 2 case ConsumerEnded => 0)
  }

  lemma InternalStepShrinks(p: Pipe, step: Step)
    requires Enabled(p, step) && Internal(step)
    ensures Left(Apply(p, step)) < Left(p) && Apply(p, step).cancelled == p.cancelled
  {
  }

  /** A cancelled pipe is never stuck: some goroutine can move until both have returned. */
  lemma CancelledNeverStuck(p: Pipe)
    requires Inv(p) && p.cancelled && !Ended(p)
    ensures exists step :: Internal(step) && Enabled(p, step)
  {
    if p.pump.Selecting? {
      assert Internal(PumpReturns) && Enabled(p, PumpReturns);
    } else if p.pump.Offering? {
      assert Internal(GiveUp) && Enabled(p, GiveUp);
    } else if p.consumer.Handling? {
      assert Internal(Handle(Succeeds)) && Enabled(p, Handle(Succeeds));
    } else {
      assert Internal(ConsumerReturns) && Enabled(p, ConsumerReturns);
    }
  }

  /** Whatever the scheduler does, the goroutines make only so many moves. */
  lemma {:induction false} InternalRunsAreShort(p: Pipe, steps: seq<Step>)
    requires ValidRun(p, steps) && forall step :: step in steps ==> Internal(step)
    ensures |steps| + Left(Run(p, steps)) <= Left(p) && Run(p, steps).cancelled == p.cancelled
    decreases |steps|
  {
    if steps != [] {
      InternalStepShrinks(p, steps[0]);
      InternalRunsAreShort(Apply(p, steps[0]), steps[1..]);
    }
  }

  // ----- Without a cancel nothing is lost -----

  /** The messages the broker delivered, in order. */
  function Delivered(steps: seq<Step>): seq<Msg> {
    if steps == [] then []
    else (if steps[0].Deliver? then [steps[0].msg] else []) + Delivered(steps[1..])
  }

  lemma DeliveredStep(p: Pipe, step: Step)
    requires Enabled(p, step)
    ensures var p' := Apply(p, step);
            && p'.taken + p'.raw == p.taken + p.raw + (if step.Deliver? then [step.msg] else [])
            && p'.cancelled == (p.cancelled || step.Cancel?)
  {
    if step.Take? {
      assert p.taken + p.raw == (p.taken + [p.raw[0]]) + p.raw[1..];
    }
  }

  lemma {:induction false} TakenAreDelivered(p: Pipe, steps: seq<Step>)
    requires ValidRun(p, steps)
    ensures Run(p, steps).taken + Run(p, steps).raw == p.taken + p.raw + Delivered(steps)
    ensures Run(p, steps).cancelled == (p.cancelled || Cancel in steps)
    decreases |steps|
  {
    if steps != [] {
      DeliveredStep(p, steps[0]);
      TakenAreDelivered(Apply(p, steps[0]), steps[1..]);
      Join3(p.taken + p.raw, if steps[0].Deliver? then [steps[0].msg] else [], Delivered(steps[1..]));
      assert steps == [steps[0]] + steps[1..];
    }
  }

  /** A subscription that ends without a cancel has handled every decodable message delivered to it, in order. */
  lemma CleanEndHandlesAll(steps: seq<Step>)
    requires ValidRun(Fresh, steps) && Ended(Run(Fresh, steps)) && Cancel !in steps
    ensures var p := Run(Fresh, steps);
            && p.closed && p.taken == Delivered(steps) && p.pump.dropped == []
            && Messages(p.handled) == Decodable(Delivered(steps))
  {
    InvRun(Fresh, steps);
    TakenAreDelivered(Fresh, steps);
    assert [] + [] + Delivered(steps) == Delivered(steps);
    CleanEnd(Run(Fresh, steps));
  }

  lemma CleanEnd(p: Pipe)
    requires Inv(p) && Ended(p) && !p.cancelled
    ensures p.closed && p.taken + p.raw == p.taken && p.pump.dropped == [] && Messages(p.handled) == Decodable(p.taken)
  {
    assert p.taken + [] == p.taken && p.forwarded + [] == p.forwarded;
    assert Messages(p.handled) + [] == Messages(p.handled);
  }

  /** What some goroutine can do next once the raw channel is closed. */
  function NextMove(p: Pipe): Step {
    match p.pump
    case Selecting => if p.raw != [] then Take else PumpReturns
    case Offering(_) => if p.consumer.Receiving? then HandOff else Handle(Succeeds)
    case PumpEnded(_) => if p.consumer.Handling? then Handle(Succeeds) else ConsumerReturns
  }

  lemma NextMoveLeads(p: Pipe)
    requires Inv(p) && p.closed && !Ended(p)
    ensures Enabled(p, NextMove(p)) && Internal(NextMove(p)) && Apply(p, NextMove(p)).closed
  {
  }

  lemma Prepend(p: Pipe, step: Step, rest: seq<Step>)
    requires Enabled(p, step) && ValidRun(Apply(p, step), rest)
    ensures ValidRun(p, [step] + rest) && Run(p, [step] + rest) == Run(Apply(p, step), rest)
  {
    assert ([step] + rest)[1..] == rest;
  }

  lemma {:induction false} ClosedCanFinish(p: Pipe) returns (steps: seq<Step>)
    requires Inv(p) && p.closed
    ensures ValidRun(p, steps) && Ended(Run(p, steps)) && forall step :: step in steps ==> Internal(step)
    decreases Left(p)
  {
    if Ended(p) {
      return [];
    }
    var step := NextMove(p);
    NextMoveLeads(p);
    InvStep(p, step);
    InternalStepShrinks(p, step);
    var rest := ClosedCanFinish(Apply(p, step));
    Prepend(p, step, rest);
    steps := [step] + rest;
  }

  /** Whatever has happened, once the broker closes the raw channel both goroutines can finish without a cancel. */
  lemma EveryPipeCanFinish(p: Pipe) returns (moves: seq<Step>)
    requires Inv(p)
    ensures ValidRun(p, [CloseRaw] + moves) && Ended(Run(p, [CloseRaw] + moves))
    ensures forall step :: step in moves ==> Internal(step)
  {
    CloseRawKeeps(p);
    moves := ClosedCanFinish(Apply(p, CloseRaw));
    Prepend(p, CloseRaw, moves);
  }

  lemma CloseRawKeeps(p: Pipe)
    requires Inv(p)
    ensures Enabled(p, CloseRaw) && Inv(Apply(p, CloseRaw)) && Apply(p, CloseRaw).closed
  {
    InvStep(p, CloseRaw);
  }
}
