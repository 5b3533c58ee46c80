/** The consumer module: several topics under one context and one wait group. */
module KafkaLifecycle {
  import opened Wrappers
  import opened KafkaPipeline

  /** One subscription attempt, and what the goroutines started so far and the broker do before the next one. */
  datatype Attempt = Refused | Subscribed(meanwhile: seq<(nat, Step)>)

  datatype StartError = SubscribeFailed(topic: nat)

  function TotalLeft(pipes: seq<Pipe>): nat {
    if pipes == [] then 0 else TotalLeft(pipes[..|pipes| - 1]) + Left(pipes[|pipes| - 1])
  }

  lemma {:induction false} LessLeft(pipes: seq<Pipe>, i: nat, p: Pipe)
    requires i < |pipes| && Left(p) < Left(pipes[i])
    ensures TotalLeft(pipes[i := p]) < TotalLeft(pipes)
  {
    var last := |pipes| - 1;
    if i == last {
      assert pipes[i := p][..last] == pipes[..last];
    } else {
      LessLeft(pipes[..last], i, p);
      assert pipes[i := p][..last] == pipes[..last][i := p];
    }
  }

  lemma Shrinks(pipes: seq<Pipe>, i: nat, step: Step)
    requires i < |pipes| && Enabled(pipes[i], step) && Internal(step)
    ensures TotalLeft(pipes[i := Apply(pipes[i], step)]) < TotalLeft(pipes)
  {
    InternalStepShrinks(pipes[i], step);
    LessLeft(pipes, i, Apply(pipes[i], step));
  }

  class Lifecycle {
    /** The goroutine pairs launched so far, in topic order. */
    var pipes: seq<Pipe>
    var cancelled: bool

    constructor ()
      ensures Valid() && pipes == [] && !cancelled
    {
      pipes, cancelled := [], false;
    }

    ghost predicate Valid()
      reads this
    {
      forall i :: 0 <= i < |pipes| ==> Inv(pipes[i]) && pipes[i].cancelled == cancelled
    }

    /** cancel(): every goroutine of the module sees it. */
    method CancelAll()
      requires Valid()
      modifies this
      ensures Valid() && cancelled && |pipes| == |old(pipes)|
    {
      var i := 0;
      while i < |pipes|
        invariant 0 <= i <= |pipes| == |old(pipes)|
        invariant forall k :: 0 <= k < |pipes| ==> Inv(pipes[k])
        invariant forall k :: 0 <= k < i ==> pipes[k].cancelled
        invariant forall k :: i <= k < |pipes| ==> pipes[k] == old(pipes)[k]
      {
        InvStep(pipes[i], Cancel);
        CancelledStep(pipes[i], Cancel);
        pipes := pipes[i := Apply(pipes[i], Cancel)];
        i := i + 1;
      }
      cancelled := true;
    }

    /** The two goroutines of a new subscription. */
    method Launch()
      requires Valid() && !cancelled
      modifies this`pipes
      ensures Valid() && pipes == old(pipes) + [Fresh]
    {
      assert Inv(Fresh);
      pipes := pipes + [Fresh];
    }

    /** One move in one topic. */
    method Advance(i: nat, step: Step)
      requires Valid() && i < |pipes| && Enabled(pipes[i], step) && !step.Cancel?
      modifies this`pipes
      ensures Valid() && pipes == old(pipes)[i := Apply(old(pipes)[i], step)]
    {
      InvStep(pipes[i], step);
      CancelledStep(pipes[i], step);
      pipes := pipes[i := Apply(pipes[i], step)];
    }

    /** wg.Wait() after a cancel: the scheduler runs goroutines in any order until all have returned. */
    method Wait()
      requires Valid() && cancelled
      modifies this`pipes
      ensures Valid() && |pipes| == |old(pipes)|
      ensures forall i :: 0 <= i < |pipes| ==> Ended(pipes[i])
    {
      while exists i :: 0 <= i < |pipes| && !Ended(pipes[i])
        invariant Valid() && |pipes| == |old(pipes)|
        decreases TotalLeft(pipes)
      {
        var i :| 0 <= i < |pipes| && !Ended(pipes[i]);
        CancelledNeverStuck(pipes[i]);
        var step :| Internal(step) && Enabled(pipes[i], step);
        Shrinks(pipes, i, step);
        Advance(i, step);
      }
    }

    /** What happens between two subscriptions; a step that cannot happen is skipped. */
    method Meanwhile(steps: seq<(nat, Step)>)
      requires Valid() && !cancelled
      modifies this`pipes
      ensures Valid() && |pipes| == |old(pipes)|
    {
      for k := 0 to |steps|
        invariant Valid() && |pipes| == |old(pipes)|
      {
        var (i, step) := steps[k];
        if i < |pipes| && !step.Cancel? && Enabled(pipes[i], step) {
          Advance(i, step);
        }
      }
    }

    /**
     * Subscribes to the topics in turn. Success leaves one live pair per topic; at the first refusal all
     * earlier ones are cancelled and waited for, so an error means that no goroutine is left.
     */
    method Start(attempts: seq<Attempt>) returns (r: Result<(), StartError>)
      requires Valid() && pipes == [] && !cancelled
      modifies this
      ensures Valid()
      ensures r.Ok? <==> forall k :: 0 <= k < |attempts| ==> attempts[k].Subscribed?
      ensures r.Ok? ==> |pipes| == |attempts| && !cancelled
      ensures r.Err? ==> r.error.topic < |attempts| && attempts[r.error.topic].Refused?
                         && |pipes| == r.error.topic && forall i :: 0 <= i < |pipes| ==> Ended(pipes[i])
    {
      var k := 0;
      while k < |attempts|
        invariant 0 <= k <= |attempts| && |pipes| == k && !cancelled && Valid()
        invariant forall j :: 0 <= j < k ==> attempts[j].Subscribed?
      {
        if attempts[k].Refused? {
          CancelAll();
          Wait();
          return Err(SubscribeFailed(k));
        }
        Launch();
        Meanwhile(attempts[k].meanwhile);
        k := k + 1;
      }
      return Ok(());
    }
  }
}
