/** Properties of the main loop over whole event traces: where a run stops,
    that nothing after the stopping event is consulted, that the events it
    raises are those of the presence tracker over the polls it made, and that
    balance requests carry the key most recently set. */
module AppProperties {
  import opened Types
  import opened Presence
  import opened PresenceTrace
  import opened BalanceSession
  import opened App

  /** The poll replies of a trace, in order, with the key presses dropped. */
  function Polls(t: seq<Event>): (ps: seq<PollResult>)
    ensures |ps| <= |t|
    ensures (forall j :: 0 <= j < |t| ==> t[j].Pressed?) ==> ps == []
    decreases |t|
  {
    if t == [] then []
    else (if t[0].Polled? then [t[0].result] else []) + Polls(t[1..])
  }

  lemma PollsCons(t: seq<Event>, i: nat, c: nat)
    requires i < c <= |t|
    ensures Polls(t[i..c]) == (if t[i].Polled? then [t[i].result] else []) + Polls(t[i + 1..c])
  {
  }

  /** A run that ended (or is stuck at the key prompt) does not look at
      anything after its last consumed event. */
  lemma {:induction false} StoppedRunIgnoresRest(l: Loop, t: seq<Event>, u: seq<Event>, i: nat)
    requires i <= |t|
    requires Drive(l, t, i).exit != Polling
    ensures Drive(l, t + u, i) == Drive(l, t, i)
    decreases |t| - i
  {
    assert (t + u)[i] == t[i];
    var h := Handle(l, t[i]);
    if h.stop.None? {
      StoppedRunIgnoresRest(h.loop, t, u, i + 1);
    }
  }

  /** A run stops at the first event that forces an exit, and at no earlier one. */
  lemma {:induction false} RunStopsAtFirstForcedExit(l: Loop, t: seq<Event>, i: nat)
    requires i <= |t|
    ensures var e := Drive(l, t, i);
      (forall j :: i <= j < e.consumed - 1 ==> Forced(t[j]).None?) &&
      (e.exit == Polling ==> forall j :: i <= j < |t| ==> Forced(t[j]).None?) &&
      (e.exit != Polling ==> Forced(t[e.consumed - 1]) == Some(e.exit))
    decreases |t| - i
  {
    if i < |t| {
      var h := Handle(l, t[i]);
      if h.stop.None? {
        RunStopsAtFirstForcedExit(h.loop, t, i + 1);
      }
    }
  }

  /** Only ESC ends a run successfully; only a fatal poll ends it with failure. */
  lemma ExitCause(l: Loop, t: seq<Event>, i: nat)
    requires i <= |t|
    ensures var e := Drive(l, t, i);
      (e.exit == Success <==> e.consumed > i && t[e.consumed - 1].Pressed? && t[e.consumed - 1].key == Esc) &&
      (e.exit == Failure <==> e.consumed > i && t[e.consumed - 1].Polled? && t[e.consumed - 1].result.ReadError?)
  {
  }

  /** The new-card events of the run over trace[i..], and the tracker state
      it ends in, are those of the presence tracker over the polls it made;
      it ended with failure exactly when the tracker met a fatal status. */
  ghost predicate WatchesPolls(l: Loop, t: seq<Event>, i: nat)
    requires i <= |t|
  {
    var e := Drive(l, t, i);
    var w := Watch(l.tracker, Polls(t[i..e.consumed]));
    e.loop.tracker == w.final && e.loop.events == l.events + w.events &&
    (e.exit == Failure <==> w.fatal.Some?)
  }

  lemma WatchesPollsAtStop(l: Loop, t: seq<Event>, i: nat)
    requires i < |t| && Handle(l, t[i]).stop.Some?
    ensures WatchesPolls(l, t, i)
  {
  }

  lemma WatchesPollsStep(l: Loop, t: seq<Event>, i: nat)
    requires i < |t| && Handle(l, t[i]).stop.None?
    requires WatchesPolls(Handle(l, t[i]).loop, t, i + 1)
    ensures WatchesPolls(l, t, i)
  {
    var h := Handle(l, t[i]);
    var e := Drive(h.loop, t, i + 1);
    assert Drive(l, t, i) == e;
    PollsCons(t, i, e.consumed);
    if t[i].Polled? {
      WatchesPollsPolled(l, h, t[i].result, Polls(t[i + 1..e.consumed]));
    } else {
      assert Polls(t[i..e.consumed]) == Polls(t[i + 1..e.consumed]);
    }
  }

  /** The tracker side of one non-fatal poll step: Watch over the poll and the
      rest agrees with Watch over the rest from the state the poll left. */
  lemma WatchesPollsPolled(l: Loop, h: Handled, p: PollResult, rest: seq<PollResult>)
    requires h == Handle(l, Polled(p)) && h.stop.None?
    ensures var w := Watch(h.loop.tracker, rest); var v := Watch(l.tracker, [p] + rest);
      v.final == w.final && l.events + v.events == h.loop.events + w.events && v.fatal == w.fatal
  {
    var s := React(l.tracker, p);
    var first := if s.outcome.NewCard? then [s.outcome.id] else [];
    assert h.loop.tracker == s.next && h.loop.events == l.events + first;
    WatchCons(l.tracker, p, rest);
    var w := Watch(h.loop.tracker, rest);
    assert l.events + (first + w.events) == h.loop.events + w.events;
  }

  lemma {:induction false} RunWatchesPolls(l: Loop, t: seq<Event>, i: nat)
    requires i <= |t|
    ensures WatchesPolls(l, t, i)
    decreases |t| - i
  {
    if i == |t| {
      assert t[i..i] == [];
    } else if Handle(l, t[i]).stop.Some? {
      WatchesPollsAtStop(l, t, i);
    } else {
      RunWatchesPolls(Handle(l, t[i]).loop, t, i + 1);
      WatchesPollsStep(l, t, i);
    }
  }

  /** Keys other than '1', '2', '3' and ESC only show the usage text: nothing changes and the loop goes on. */
  lemma OtherKeysShowUsage(l: Loop, key: char, reply: Reply)
    requires key !in {'1', '2', '3', Esc}
    ensures Handle(l, Pressed(key, reply)) == Handled(l, None)
  {
  }

  /** A balance operation never stops the loop and leaves key, tracker and
      new-card events alone, whatever status the library returns. */
  lemma BalanceFailureIsolated(l: Loop, key: char, reply: Reply)
    requires key == '1' || key == '2'
    ensures var h := Handle(l, Pressed(key, reply));
      h.stop.None? && h.loop.key == l.key && h.loop.tracker == l.tracker &&
      h.loop.events == l.events && |h.loop.requests| == |l.requests| + 1 &&
      h.loop.requests[..|l.requests|] == l.requests && h.loop.requests[|l.requests|].key == l.key
  {
  }

  /** Once a six-byte key is accepted at the prompt, the balance calls that
      follow use exactly those six bytes. */
  lemma {:induction false} SetKeyThenBalanceCalls(l: Loop, r1: Reply, r2: Reply, r3: Reply)
    requires FirstKey(r1.candidates).Some?
    ensures var k := r1.candidates[FirstKey(r1.candidates).value];
      var e := Drive(l, [Pressed('3', r1), Pressed('1', r2), Pressed('2', r3)], 0);
      |k| == KeyLength && e.exit == Polling && e.loop.key == k &&
      e.loop.requests == l.requests + [BalanceGet(AuthKeyA, k), BalanceSet(AuthKeyA, k, r3.entered)]
  {
    var t := [Pressed('3', r1), Pressed('1', r2), Pressed('2', r3)];
    var k := r1.candidates[FirstKey(r1.candidates).value];
    var l1 := Handle(l, t[0]).loop;
    var l2 := Handle(l1, t[1]).loop;
    var l3 := Handle(l2, t[2]).loop;
    assert l1 == l.(key := k);
    assert Drive(l, t, 0) == Drive(l1, t, 1) == Drive(l2, t, 2) == Drive(l3, t, 3);
  }

  /** An event that replaces the key: a '3' whose prompt accepts a token. */
  predicate SetsKey(e: Event) {
    e.Pressed? && e.key == '3' && FirstKey(e.reply.candidates).Some?
  }

  /** l2 keeps l's key and the requests l had issued, and each request it
      added carries that key. */
  predicate KeepsKey(l: Loop, l2: Loop) {
    l2.key == l.key && |l.requests| <= |l2.requests| &&
    l2.requests[..|l.requests|] == l.requests &&
    forall k :: |l.requests| <= k < |l2.requests| ==> l2.requests[k].key == l.key
  }

  lemma KeepsKeyStep(l: Loop, e: Event)
    requires !SetsKey(e)
    ensures KeepsKey(l, Handle(l, e).loop)
  {
  }

  lemma KeepsKeyTrans(l1: Loop, l2: Loop, l3: Loop)
    requires KeepsKey(l1, l2) && KeepsKey(l2, l3)
    ensures KeepsKey(l1, l3)
  {
    assert l3.requests[..|l1.requests|] == l3.requests[..|l2.requests|][..|l1.requests|];
  }

  /** Until an event replaces the key, the run keeps the key it started with,
      keeps every request already issued, and every request it issues carries
      that key, whatever polls and other keys come in between. */
  lemma {:induction false} KeyHeldUntilReplaced(l: Loop, t: seq<Event>, i: nat)
    requires i <= |t|
    requires forall j :: i <= j < |t| ==> !SetsKey(t[j])
    ensures KeepsKey(l, Drive(l, t, i).loop)
    decreases |t| - i
  {
    if i < |t| {
      var h := Handle(l, t[i]);
      KeepsKeyStep(l, t[i]);
      if h.stop.None? {
        KeyHeldUntilReplaced(h.loop, t, i + 1);
        KeepsKeyTrans(l, h.loop, Drive(h.loop, t, i + 1).loop);
      }
    } else {
      assert l.requests[..|l.requests|] == l.requests;
    }
  }

  /** An accepted '3' replaces the key with the accepted token and the loop goes on. */
  lemma AcceptedKeyReplaces(l: Loop, r: Reply)
    requires FirstKey(r.candidates).Some?
    ensures Handle(l, Pressed('3', r)) == Handled(l.(key := r.candidates[FirstKey(r.candidates).value]), None)
  {
  }

  /** After a '3' prompt accepts a six-byte token, every balance request the
      run issues carries exactly those six bytes, until the key is replaced
      again; the requests issued before are kept. */
  lemma BalanceCallsUseLatestKey(l: Loop, r: Reply, u: seq<Event>)
    requires FirstKey(r.candidates).Some?
    requires forall j :: 0 <= j < |u| ==> !SetsKey(u[j])
    ensures var k := r.candidates[FirstKey(r.candidates).value];
      |k| == KeyLength && KeepsKey(l.(key := k), Drive(l, [Pressed('3', r)] + u, 0).loop)
  {
    var t := [Pressed('3', r)] + u;
    var k := r.candidates[FirstKey(r.candidates).value];
    assert t[0] == Pressed('3', r);
    AcceptedKeyReplaces(l, r);
    forall j | 1 <= j < |t|
      ensures !SetsKey(t[j])
    {
      assert t[j] == u[j - 1];
    }
    KeyHeldUntilReplaced(l.(key := k), t, 1);
  }
}
