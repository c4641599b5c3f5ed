/** Every sequence of calls on the channels of one loop. */
module PollerRuns {
  import opened PollerSpec

  datatype Op<K> = Create(k: K, fd: nat) | Set(k: K, events: Mask) | Remove(k: K) | Drop(k: K)

  /** The kernel hands out unused descriptors; a channel is destroyed only after remove(). */
  ghost predicate Enabled<K(!new)>(p: Poller<K>, op: Op<K>) {
    match op
    case Create(k, fd) => k !in p.chans && FdFree(p, fd)
    case Set(k, _) => k in p.chans
    case Remove(k) => k in p.chans
    case Drop(k) => k in p.chans && p.chans[k].index.New?
  }

  ghost function Step<K(!new)>(p: Poller<K>, op: Op<K>): Result<K>
    requires Enabled(p, op)
  {
    match op
    case Create(k, fd) => Ok(AddChan(p, k, fd))
    case Set(k, events) => SetEvents(p, k, events)
    case Remove(k) => RemoveChannel(p, k)
    case Drop(k) => Ok(DropChan(p, k))
  }

  ghost predicate Legal<K(!new)>(p: Poller<K>, run: seq<Op<K>>)
    decreases |run|
  {
    run == [] || (Enabled(p, run[0]) && (Step(p, run[0]).Ok? ==> Legal(Step(p, run[0]).p, run[1..])))
  }

  ghost function Exec<K(!new)>(p: Poller<K>, run: seq<Op<K>>): Result<K>
    requires Legal(p, run)
    decreases |run|
  {
    if run == [] then Ok(p)
    else if Step(p, run[0]).Ok? then Exec(Step(p, run[0]).p, run[1..])
    else Step(p, run[0])
  }

  /**
   For every sequence of enable, disable and remove calls no epoll_ctl fails,
   and afterwards the index of every channel tracks the kernel set.
   */
  lemma {:induction false} NoCtlEverFails<K(!new)>(p: Poller<K>, run: seq<Op<K>>)
    requires Consistent(p) && Legal(p, run)
    ensures Exec(p, run).Ok? && Consistent(Exec(p, run).p)
    decreases |run|
  {
    if run != [] {
      match run[0] {
        case Create(k, fd) => AddChanConsistent(p, k, fd);
        case Set(k, events) => SetEventsConsistent(p, k, events);
        case Remove(k) => RemoveConsistent(p, k);
        case Drop(k) => DropChanConsistent(p, k);
      }
      NoCtlEverFails(Step(p, run[0]).p, run[1..]);
    }
  }

  /** Consistent but for descriptors that two live channels may share. */
  ghost predicate Tracked<K>(p: Poller<K>) {
    && (forall k :: k in p.chans ==> Tracks(p, k))
    && (forall fd :: fd in p.kernel ==> p.kernel[fd].ptr in p.chans && p.chans[p.kernel[fd].ptr].fd == fd)
    && (forall fd :: fd in p.channels ==> p.channels[fd] in p.chans && p.chans[p.channels[fd]].fd == fd)
  }

  /** Two channels on one descriptor: registering both makes the second call fail. */
  lemma SharedFdFails<K(!new)>(p: Poller<K>, k: K, l: K)
    requires Tracked(p) && k in p.chans && l in p.chans && k != l && p.chans[k].fd == p.chans[l].fd
    ensures var run := [Set(k, READ_EVENT), Set(l, READ_EVENT)];
            Legal(p, run) && Exec(p, run).Failed?
  {
    var run := [Set(k, READ_EVENT), Set(l, READ_EVENT)];
    assert run[1..] == [Set(l, READ_EVENT)] && run[1..][1..] == [];
    assert Tracks(p, k) && Tracks(p, l);
    assert p.chans[k].index.New? && p.chans[l].index.New?;
    var q := SetEvents(p, k, READ_EVENT).p;
    assert SetEvents(p, k, READ_EVENT).Ok?;
    assert SetEvents(q, l, READ_EVENT).Failed?;
  }

  /** No call sequence ever makes an epoll_ctl fail exactly when live channels have distinct descriptors. */
  lemma NoCtlFailsIff<K(!new)>(p: Poller<K>)
    requires Tracked(p)
    ensures (forall run :: Legal(p, run) ==> Exec(p, run).Ok?) <==> DistinctFds(p)
  {
    if DistinctFds(p) {
      forall run | Legal(p, run) ensures Exec(p, run).Ok? { NoCtlEverFails(p, run); }
    } else {
      var k, l :| k in p.chans && l in p.chans && p.chans[k].fd == p.chans[l].fd && k != l;
      SharedFdFails(p, k, l);
    }
  }
}
