/** The presence tracker over a whole sequence of poll replies, and the trace
    properties it promises: one event per arrival, none for repeats, a fresh
    event after a departure, and no polling after a fatal status. */
module PresenceTrace {
  import opened Types
  import opened Presence

  /** What a run of polls produced: the final state, the new-card events in
      order, how many replies were consumed and the fatal status, if any. */
  datatype Watched = Watched(final: Tracker, events: seq<CardId>, polled: nat, fatal: Option<ErrorStatus>)

  /** The inner poll loop over a sequence of replies; it stops at the first fatal one. */
  function Watch(t: Tracker, ps: seq<PollResult>): (w: Watched)
    ensures w.polled <= |ps|
    ensures w.fatal.None? ==> w.polled == |ps|
    ensures w.fatal.Some? ==> 1 <= w.polled && ps[w.polled - 1] == ReadError(w.fatal.value)
    ensures forall k :: 0 <= k < w.polled - 1 ==> !ps[k].ReadError?
    decreases |ps|
  {
    if ps == [] then Watched(t, [], 0, None)
    else
      var s := React(t, ps[0]);
      match s.outcome
      case Fatal(status) => Watched(t, [], 1, Some(status))
      case NewCard(id) =>
        var w := Watch(s.next, ps[1..]);
        w.(events := [id] + w.events, polled := w.polled + 1)
      case Quiet =>
        var w := Watch(s.next, ps[1..]);
        w.(polled := w.polled + 1)
  }

  /** A non-fatal poll followed by more polls. */
  lemma WatchCons(t: Tracker, p: PollResult, rest: seq<PollResult>)
    requires !p.ReadError?
    ensures var s := React(t, p); var w := Watch(s.next, rest);
      Watch(t, [p] + rest) ==
      w.(events := (if s.outcome.NewCard? then [s.outcome.id] else []) + w.events, polled := w.polled + 1)
  {
  }

  /** Identity equality is exact: sak, uid_size and every significant byte. */
  lemma IdentityEqualityIsExact(p: PollResult, q: PollResult)
    requires p.CardRead? && q.CardRead?
    ensures Identity(p) == Identity(q) <==>
      p.sak == q.sak && p.uidSize == q.uidSize &&
      forall i :: 0 <= i < p.uidSize ==> p.uid[i] == q.uid[i]
  {
  }

  /** The loop's field-by-field comparison is inequality of identities. */
  lemma DiffersIffOtherCard(last: CardId, p: PollResult)
    requires p.CardRead?
    ensures Differs(last, p) <==> last != Identity(p)
  {
  }

  /** A read raises an event exactly when no card was present or the card differs. */
  lemma NewCardIffArrivalOrChange(t: Tracker, p: PollResult)
    requires p.CardRead?
    ensures React(t, p).outcome.NewCard? <==> !t.inField || t.last != Identity(p)
    ensures React(t, p).outcome.Quiet? ==> React(t, p).next == t
  {
  }

  /** From the initial state a read records the card, marks it present and raises one event. */
  lemma FirstReadRaisesEvent(p: PollResult)
    requires p.CardRead?
    ensures React(Initial, p) == Step(Tracker(true, Identity(p)), NewCard(Identity(p)))
    ensures Watch(Initial, [p]).events == [Identity(p)]
  {
  }

  /** Bytes of the buffer beyond uid_size take no part in the tracker's decision. */
  lemma StaleBytesIgnored(t: Tracker, p: PollResult, q: PollResult)
    requires p.CardRead? && q.CardRead?
    requires p.sak == q.sak && p.uidSize == q.uidSize
    requires forall i :: 0 <= i < p.uidSize ==> p.uid[i] == q.uid[i]
    ensures React(t, p) == React(t, q)
  {
  }

  /** A "no card" reply clears presence, raises nothing and keeps the stored card. */
  lemma NoCardClearsPresence(t: Tracker)
    ensures React(t, NoCard) == Step(Tracker(false, t.last), Quiet)
    ensures Watch(t, [NoCard]) == Watched(Tracker(false, t.last), [], 1, None)
  {
  }

  /** While the same card stays in the field, repeated reads change nothing. */
  lemma {:induction false} RepeatsAreSilent(p: PollResult, n: nat)
    requires p.CardRead?
    ensures Watch(Tracker(true, Identity(p)), Repeat(p, n)) ==
      Watched(Tracker(true, Identity(p)), [], n, None)
    decreases n
  {
    if n > 0 {
      NewCardIffArrivalOrChange(Tracker(true, Identity(p)), p);
      assert Repeat(p, n)[1..] == Repeat(p, n - 1);
      RepeatsAreSilent(p, n - 1);
    }
  }

  /** n >= 1 identical reads of a card that is new to the tracker raise exactly one event. */
  lemma {:induction false} RepeatedReadsRaiseOnce(t: Tracker, p: PollResult, n: nat)
    requires p.CardRead? && n >= 1
    requires !t.inField || t.last != Identity(p)
    ensures Watch(t, Repeat(p, n)) == Watched(Tracker(true, Identity(p)), [Identity(p)], n, None)
  {
    NewCardIffArrivalOrChange(t, p);
    assert Repeat(p, n)[1..] == Repeat(p, n - 1);
    RepeatsAreSilent(p, n - 1);
  }

  /** A run without fatal replies composes with whatever follows it. */
  lemma {:induction false} WatchAppend(t: Tracker, a: seq<PollResult>, b: seq<PollResult>)
    requires Watch(t, a).fatal.None?
    ensures var wa := Watch(t, a); var wb := Watch(wa.final, b);
      Watch(t, a + b) == Watched(wb.final, wa.events + wb.events, |a| + wb.polled, wb.fatal)
    decreases |a|
  {
    if a == [] {
      assert a + b == b;
    } else {
      assert (a + b)[0] == a[0];
      assert (a + b)[1..] == a[1..] + b;
      WatchAppend(React(t, a[0]).next, a[1..], b);
    }
  }

  /** A departure resets the dedup: the same card seen before and after a
      run of "no card" replies raises two events. */
  lemma DepartureResetsDedup(p: PollResult, before: nat, gap: nat, after: nat)
    requires p.CardRead? && before >= 1 && gap >= 1 && after >= 1
    ensures Watch(Initial, Repeat(p, before) + Repeat(NoCard, gap) + Repeat(p, after)).events ==
      [Identity(p), Identity(p)]
  {
    var id := Identity(p);
    RepeatedReadsRaiseOnce(Initial, p, before);
    NoCardsKeepLast(Tracker(true, id), gap);
    WatchAppend(Initial, Repeat(p, before), Repeat(NoCard, gap));
    var mid := Tracker(false, id);
    RepeatedReadsRaiseOnce(mid, p, after);
    WatchAppend(Initial, Repeat(p, before) + Repeat(NoCard, gap), Repeat(p, after));
  }

  /** A run of gap >= 1 "no card" replies leaves the tracker empty-handed but remembering the card. */
  lemma {:induction false} NoCardsKeepLast(t: Tracker, gap: nat)
    requires gap >= 1
    ensures Watch(t, Repeat(NoCard, gap)) == Watched(Tracker(false, t.last), [], gap, None)
    decreases gap
  {
    assert Repeat(NoCard, gap)[1..] == Repeat(NoCard, gap - 1);
    if gap > 1 {
      NoCardsKeepLast(Tracker(false, t.last), gap - 1);
    }
  }

  /** A fatal reply ends polling: nothing after it is consulted, and the run
      reports that status after exactly |pre| + 1 polls. */
  lemma {:induction false} FatalStopsPolling(t: Tracker, pre: seq<PollResult>, status: ErrorStatus, post: seq<PollResult>)
    requires Watch(t, pre).fatal.None?
    ensures var w := Watch(t, pre);
      Watch(t, pre + [ReadError(status)] + post) == Watched(w.final, w.events, |pre| + 1, Some(status))
  {
    assert pre + [ReadError(status)] + post == pre + ([ReadError(status)] + post);
    WatchAppend(t, pre, [ReadError(status)] + post);
  }

  /** While no "no card" reply intervenes, consecutive events are different
      cards, and when a card was already present the first event differs
      from it. */
  lemma {:induction false} NoRepeatWhilePresent(t: Tracker, ps: seq<PollResult>)
    requires forall k :: 0 <= k < |ps| ==> !ps[k].NoCard?
    ensures var e := Watch(t, ps).events;
      (t.inField && |e| > 0 ==> e[0] != t.last) &&
      forall k :: 0 <= k < |e| - 1 ==> e[k] != e[k + 1]
    decreases |ps|
  {
    if ps != [] {
      var s := React(t, ps[0]);
      if ps[0].CardRead? {
        NewCardIffArrivalOrChange(t, ps[0]);
        NoRepeatWhilePresent(s.next, ps[1..]);
      }
    }
  }
}
