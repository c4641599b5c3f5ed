/** One poller under two names for its channels: what happens to one happens to the other. */
module PollerLinks {
  import opened PollerSpec

  /** `names` takes each key of `q` to the key of `p` for the same channel. */
  ghost predicate Linked<A, B>(p: Poller<A>, q: Poller<B>, names: map<B, A>) {
    && names.Keys == q.chans.Keys && names.Values == p.chans.Keys
    && (forall b, c :: b in names && c in names && names[b] == names[c] ==> b == c)
    && (forall b :: b in names ==> q.chans[b] == p.chans[names[b]])
    && q.channels.Keys == p.channels.Keys
    && (forall fd :: fd in q.channels ==> q.channels[fd] in names && p.channels[fd] == names[q.channels[fd]])
    && q.kernel.Keys == p.kernel.Keys
    && (forall fd :: fd in q.kernel ==>
          q.kernel[fd].ptr in names && p.kernel[fd] == Interest(q.kernel[fd].mask, names[q.kernel[fd].ptr]))
  }

  lemma ChanLinked<A, B>(p: Poller<A>, q: Poller<B>, names: map<B, A>, b: B, c: Chan)
    requires Linked(p, q, names) && b in names
    ensures Linked(p.(chans := p.chans[names[b] := c]), q.(chans := q.chans[b := c]), names)
  {
    assert names[b] in names.Values;
  }

  lemma EntryLinked<A, B>(p: Poller<A>, q: Poller<B>, names: map<B, A>, b: B, fd: nat)
    requires Linked(p, q, names) && b in names
    ensures Linked(p.(channels := p.channels[fd := names[b]]), q.(channels := q.channels[fd := b]), names)
    ensures Linked(p.(channels := p.channels - {fd}), q.(channels := q.channels - {fd}), names)
  {
  }

  lemma WatchLinked<A, B>(p: Poller<A>, q: Poller<B>, names: map<B, A>, b: B, fd: nat, mask: Mask)
    requires Linked(p, q, names) && b in names
    ensures Linked(p.(kernel := p.kernel[fd := Interest(mask, names[b])]), q.(kernel := q.kernel[fd := Interest(mask, b)]), names)
    ensures Linked(p.(kernel := p.kernel - {fd}), q.(kernel := q.kernel - {fd}), names)
  {
  }

  lemma SetLinked<A, B>(p: Poller<A>, q: Poller<B>, names: map<B, A>, b: B, mask: Mask)
    requires Linked(p, q, names) && b in names && SetEvents(p, names[b], mask).Ok?
    ensures SetEvents(q, b, mask).Ok? && Linked(SetEvents(p, names[b], mask).p, SetEvents(q, b, mask).p, names)
  {
    InBoth(p, q, names, b);
    SetAccepted(p, q, names, b, mask);
    SetEventsEffect(p, names[b], mask);
    SetEventsEffect(q, b, mask);
    hide SetEvents, Linked;
    var c := q.chans[b];
    var off := c.index.Added? && mask == NONE_EVENT;
    var p1, q1 := p, q;
    if c.index.New? {
      EntryLinked(p, q, names, b, c.fd);
      p1, q1 := p.(channels := p.channels[c.fd := names[b]]), q.(channels := q.channels[c.fd := b]);
    }
    ChanLinked(p1, q1, names, b, Chan(c.fd, mask, if off then Deleted else Added));
    var p2, q2 := p1.(chans := p1.chans[names[b] := Chan(c.fd, mask, if off then Deleted else Added)]),
                  q1.(chans := q1.chans[b := Chan(c.fd, mask, if off then Deleted else Added)]);
    WatchLinked(p2, q2, names, b, c.fd, mask);
  }

  lemma SetAccepted<A, B>(p: Poller<A>, q: Poller<B>, names: map<B, A>, b: B, mask: Mask)
    requires Linked(p, q, names) && b in names && names[b] in p.chans && SetEvents(p, names[b], mask).Ok?
    ensures SetEvents(q, b, mask).Ok?
  {
  }

  lemma {:induction false} PushLinked<A, B>(p: Poller<A>, q: Poller<B>, names: map<B, A>, b: B, masks: seq<Mask>)
    requires Linked(p, q, names) && b in names && PushAll(p, names[b], masks).Ok?
    ensures PushAll(q, b, masks).Ok? && Linked(PushAll(p, names[b], masks).p, PushAll(q, b, masks).p, names)
    decreases |masks|
  {
    hide SetEvents, Linked;
    if masks != [] {
      InBoth(p, q, names, b);
      SetLinked(p, q, names, b, masks[0]);
      PushLinked(SetEvents(p, names[b], masks[0]).p, SetEvents(q, b, masks[0]).p, names, b, masks[1..]);
    }
  }

  lemma InBoth<A, B>(p: Poller<A>, q: Poller<B>, names: map<B, A>, b: B)
    requires Linked(p, q, names) && b in names
    ensures b in q.chans && names[b] in p.chans && q.chans[b] == p.chans[names[b]]
  {
    assert names[b] in names.Values;
  }

  lemma RemoveLinked<A, B>(p: Poller<A>, q: Poller<B>, names: map<B, A>, b: B)
    requires Linked(p, q, names) && b in names && RemoveChannel(p, names[b]).Ok?
    ensures RemoveChannel(q, b).Ok? && Linked(RemoveChannel(p, names[b]).p, RemoveChannel(q, b).p, names)
  {
    InBoth(p, q, names, b);
    RemoveAccepted(p, q, names, b);
    RemoveEffect(p, names[b]);
    RemoveEffect(q, b);
    hide RemoveChannel, Linked;
    var c := q.chans[b];
    EntryLinked(p, q, names, b, c.fd);
    var p1, q1 := p.(channels := p.channels - {c.fd}), q.(channels := q.channels - {c.fd});
    ChanLinked(p1, q1, names, b, c.(index := New));
    var p2, q2 := p1.(chans := p1.chans[names[b] := c.(index := New)]), q1.(chans := q1.chans[b := c.(index := New)]);
    WatchLinked(p2, q2, names, b, c.fd, c.events);
  }

  lemma RemoveAccepted<A, B>(p: Poller<A>, q: Poller<B>, names: map<B, A>, b: B)
    requires Linked(p, q, names) && b in names && names[b] in p.chans && RemoveChannel(p, names[b]).Ok?
    ensures RemoveChannel(q, b).Ok?
  {
  }

  lemma AddLinked<A, B>(p: Poller<A>, q: Poller<B>, names: map<B, A>, a: A, b: B, fd: nat)
    requires Linked(p, q, names) && b !in names && a !in p.chans
    ensures Linked(AddChan(p, a, fd), AddChan(q, b, fd), names[b := a])
  {
    assert names[b := a].Values == names.Values + {a} by {
      forall x | x in names.Values ensures x in names[b := a].Values {
        var k :| k in names && names[k] == x;
        assert names[b := a][k] == x;
      }
      assert names[b := a][b] == a;
    }
    forall k | k in names ensures names[k] != a { assert names[k] in names.Values; }
  }

  lemma DropLinked<A, B>(p: Poller<A>, q: Poller<B>, names: map<B, A>, b: B)
    requires Linked(p, q, names) && b in names
    requires forall fd :: fd in q.channels ==> q.channels[fd] != b
    requires forall fd :: fd in q.kernel ==> q.kernel[fd].ptr != b
    ensures Linked(DropChan(p, names[b]), DropChan(q, b), names - {b})
  {
    assert (names - {b}).Values == names.Values - {names[b]} by {
      forall x | x in names.Values && x != names[b] ensures x in (names - {b}).Values {
        var k :| k in names && names[k] == x;
        assert (names - {b})[k] == x;
      }
    }
  }

  lemma FreeLinked<A, B>(p: Poller<A>, q: Poller<B>, names: map<B, A>, fd: nat)
    requires Linked(p, q, names)
    ensures FdFree(p, fd) <==> FdFree(q, fd)
  {
    forall a | a in p.chans ensures exists b :: b in names && names[b] == a {
      assert a in names.Values;
    }
    forall b | b in names ensures names[b] in p.chans { assert names[b] in names.Values; }
  }
}
