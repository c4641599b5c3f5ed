/** Calls of runTimer exist in every state: callbacks that do nothing make a legal one. */
module TimerWitness {
  import opened TimerSpec
  import opened TimerRounds
  import opened TimerQueues

  function Quiet(n: nat): (callbacks: seq<seq<Event>>)
    ensures |callbacks| == n && forall ops :: ops in callbacks ==> ops == []
  {
    if n == 0 then [] else [[]] + Quiet(n - 1)
  }

  lemma LegalCons(q: Queue, ev: Event, rest: seq<Event>)
    requires Enabled(q, ev) && (Step(q, ev).Ok? ==> Legal(Step(q, ev).q, rest))
    ensures Legal(q, [ev] + rest)
  {
    assert ([ev] + rest)[0] == ev && ([ev] + rest)[1..] == rest;
  }

  lemma {:induction false} RearmsLegal(q: Queue, n: nat)
    requires q.stage.Rearming? && q.round.next + n == |q.round.batch|
    ensures Legal(q, Rearms(n) + [Finish])
    decreases n
  {
    if n == 0 {
      assert Rearms(0) + [Finish] == [Finish] + [];
      LegalCons(q, Finish, []);
    } else {
      if RearmStep(q).Ok? {
        RearmKeeps(q);
        RearmsLegal(RearmStep(q).q, n - 1);
      }
      assert Rearms(n) + [Finish] == [Rearm] + (Rearms(n - 1) + [Finish]);
      LegalCons(q, Rearm, Rearms(n - 1) + [Finish]);
    }
  }

  lemma {:induction false} FiringsLegal(q: Queue, n: nat)
    requires q.stage.Firing? && q.round.next + n == |q.round.batch|
    ensures Legal(q, Firings(Quiet(n)) + ([EndFiring] + (Rearms(|q.round.batch|) + [Finish])))
    decreases n
  {
    var tail := [EndFiring] + (Rearms(|q.round.batch|) + [Finish]);
    if n == 0 {
      assert Firings(Quiet(0)) + tail == tail;
      RearmsLegal(Step(q, EndFiring).q, |q.round.batch|);
      LegalCons(q, EndFiring, Rearms(|q.round.batch|) + [Finish]);
    } else {
      if TriggerStep(q).Ok? {
        TriggerKeeps(q);
        FiringsLegal(TriggerStep(q).q, n - 1);
      }
      assert Quiet(n) == [[]] + Quiet(n - 1) && Quiet(n)[1..] == Quiet(n - 1) && Quiet(n)[0] == [];
      assert Firings(Quiet(n)) == [Trigger] + ([] + Firings(Quiet(n - 1)));
      assert Firings(Quiet(n)) + tail == [Trigger] + (Firings(Quiet(n - 1)) + tail);
      LegalCons(q, Trigger, Firings(Quiet(n - 1)) + tail);
    }
  }

  /** With one quiet callback for each due timer, runTimer can always be called. */
  lemma QuietCall(q: Queue, now: int)
    requires q.stage.Idle?
    ensures exists callbacks ::
              Legal(q, CallRun(q, now, callbacks)) && forall ops :: ops in callbacks ==> CallbackOps(ops)
  {
    var n := LowerBound(q.timers, Entry(now, SENTINEL));
    var rest := Firings(Quiet(n)) + ([EndFiring] + (Rearms(n) + [Finish]));
    if BeginStep(q, now).Ok? {
      if q.timers == [] { EmptyCall(q, now); } else { FiringsLegal(BeginStep(q, now).q, n); }
    }
    if q.timers != [] {
      LegalCons(q, Begin(now), rest);
    }
    assert Legal(q, CallRun(q, now, Quiet(n)));
  }
}
