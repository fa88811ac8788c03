/** The program's main loop: open and reset the reader, then alternate between
    polling for a card while no key is pending and dispatching a pressed key
    to the menu, until ESC or a fatal poll ends the run. The reader is closed
    exactly once on every exit path after a successful open.

    The loop is driven by a finite trace of events. A Polled event stands for
    one pass of the inner loop (no key was pending, so the card-identity query
    ran); a Pressed event stands for a pending key, carrying what the
    operation that key starts then receives from the operator and the
    library. A trace that runs out before the program exits leaves it
    running. */
module App {
  import opened Types
  import opened Presence
  import opened BalanceSession

  const Esc: char := '\U{1B}'

  /** What menu(key) does with a key. */
  datatype Command = GetCreditCmd | AddCreditCmd | SetKeyCmd | Quit | ShowUsage

  /** The key dispatch of menu(). */
  function Menu(key: char): (c: Command)
    ensures c == GetCreditCmd <==> key == '1'
    ensures c == AddCreditCmd <==> key == '2'
    ensures c == SetKeyCmd <==> key == '3'
    ensures c == Quit <==> key == Esc
    ensures c == ShowUsage <==> key !in {'1', '2', '3', Esc}
  {
    match key
    case '1' => GetCreditCmd
    case '2' => AddCreditCmd
    case '3' => SetKeyCmd
    case _ => if key == Esc then Quit else ShowUsage
  }

  /** What the operator and the library supply to the operation a key starts:
      the status and credit BalanceGet returns, the balance typed for
      BalanceSet, and the tokens typed at the key prompt. */
  datatype Reply = Reply(status: Status, credit: Int32, entered: Int32, candidates: seq<seq<byte>>)

  datatype Event = Polled(result: PollResult) | Pressed(key: char, reply: Reply)

  /** How a run ends: EXIT_SUCCESS, EXIT_FAILURE, or not yet ended because the
      trace ran out while polling or while the key prompt was still waiting. */
  datatype Exit = Success | Failure | Polling | AwaitingKey {
    predicate Ended() { Success? || Failure? }
  }

  /** The state the loop carries: the tracker, the auth key, and what it has
      emitted so far (new-card events and balance requests). */
  datatype Loop = Loop(tracker: Tracker, key: seq<byte>, events: seq<CardId>, requests: seq<Request>)

  datatype Handled = Handled(loop: Loop, stop: Option<Exit>)

  /** The exit an event forces whatever the state: a fatal poll, ESC, or a key
      prompt that never receives a six-byte token. */
  function Forced(e: Event): (x: Option<Exit>)
    ensures x == Some(Success) <==> e.Pressed? && e.key == Esc
    ensures x == Some(Failure) <==> e.Polled? && e.result.ReadError?
    ensures x == Some(AwaitingKey) <==> e.Pressed? && e.key == '3' && FirstKey(e.reply.candidates).None?
    ensures x != Some(Polling)
  {
    match e
    case Polled(p) => if p.ReadError? then Some(Failure) else None
    case Pressed(key, reply) =>
      if key == Esc then Some(Success)
      else if key == '3' && FirstKey(reply.candidates).None? then Some(AwaitingKey)
      else None
  }

  /** One event of the loop. */
  function Handle(l: Loop, e: Event): (h: Handled)
    ensures h.stop == Forced(e)
    ensures h.loop.key != l.key ==>
      (e.Pressed? && e.key == '3' && FirstKey(e.reply.candidates).Some? &&
       h.loop.key == e.reply.candidates[FirstKey(e.reply.candidates).value])
    ensures e.Pressed? ==> h.loop.tracker == l.tracker && h.loop.events == l.events
    ensures e.Polled? ==> h.loop.key == l.key && h.loop.requests == l.requests
  {
    match e
    case Polled(p) =>
      var s := React(l.tracker, p);
      (match s.outcome
       case Fatal(_) => Handled(l, Some(Failure))
       case NewCard(id) => Handled(l.(tracker := s.next, events := l.events + [id]), None)
       case Quiet => Handled(l.(tracker := s.next), None))
    case Pressed(key, reply) =>
      match Menu(key)
      case GetCreditCmd => Handled(l.(requests := l.requests + [BalanceGet(AuthKeyA, l.key)]), None)
      case AddCreditCmd => Handled(l.(requests := l.requests + [BalanceSet(AuthKeyA, l.key, reply.entered)]), None)
      case SetKeyCmd =>
        (match FirstKey(reply.candidates)
         case None => Handled(l, Some(AwaitingKey))
         case Some(k) => Handled(l.(key := reply.candidates[k]), None))
      case Quit => Handled(l, Some(Success))
      case ShowUsage => Handled(l, None)
  }

  /** The outcome of the loop: its final state, how many events it consumed
      and how it exits. */
  datatype Ending = Ending(loop: Loop, consumed: nat, exit: Exit)

  /** The loop over trace[i..]. */
  function Drive(l: Loop, trace: seq<Event>, i: nat): (r: Ending)
    requires i <= |trace|
    ensures i <= r.consumed <= |trace|
    ensures r.exit == Polling <==> r.consumed == |trace| && (i == |trace| || Forced(trace[|trace| - 1]).None?)
    ensures r.exit != Polling ==> i < r.consumed && Forced(trace[r.consumed - 1]) == Some(r.exit)
    decreases |trace| - i
  {
    if i == |trace| then Ending(l, i, Polling)
    else
      var h := Handle(l, trace[i]);
      if h.stop.Some? then Ending(h.loop, i + 1, h.stop.value)
      else Drive(h.loop, trace, i + 1)
  }

  /** The state the loop starts from, with the key as it stands on entry. */
  function Start(key: seq<byte>): (l: Loop)
    ensures l.tracker == Initial && l.key == key && l.events == [] && l.requests == []
  {
    Loop(Initial, key, [], [])
  }

  /** The reader handle as the library sees it, with a count of closes. */
  class Reader {
    var isOpen: bool
    var closes: nat

    constructor ()
      ensures !isOpen && closes == 0
    {
      isOpen := false;
      closes := 0;
    }

    /** ReaderOpen(), given the status the library returns. */
    method Open(status: Status) returns (ok: bool)
      modifies this
      ensures ok <==> status == StatusOk
      ensures isOpen == (old(isOpen) || ok) && closes == old(closes)
    {
      ok := status == StatusOk;
      if ok {
        isOpen := true;
      }
    }

    /** ReaderClose(); only an open handle is closed. */
    method Close()
      requires isOpen
      modifies this
      ensures !isOpen && closes == old(closes) + 1
    {
      isOpen := false;
      closes := closes + 1;
    }
  }

  /** One pass of the inner loop: query the card and, on a new card, append
      the event; `l` is the loop state it is called in. */
  method PollOnce(tracker: CardTracker, p: PollResult, seen: seq<CardId>, ghost l: Loop)
    returns (events: seq<CardId>, fatal: bool)
    requires tracker.Valid() && l.tracker == tracker.State() && l.events == seen
    modifies tracker, tracker.oldUid
    ensures tracker.Valid()
    ensures var h := Handle(l, Polled(p));
      (fatal <==> h.stop.Some?) && (fatal ==> events == seen && tracker.State() == l.tracker) &&
      (!fatal ==> h.loop == l.(tracker := tracker.State(), events := events))
  {
    var outcome := tracker.Poll(p);
    events, fatal := seen, outcome.Fatal?;
    if outcome.NewCard? {
      events := events + [outcome.id];
    }
  }

  /** menu(key), with the reply the started operation receives; `issued` are
      the balance requests made so far and `l` is the loop state it is called
      in. It returns the requests with the one the operation issued appended,
      and whether the key prompt is left waiting. */
  method MenuKey(session: Session, key: char, reply: Reply, issued: seq<Request>, ghost l: Loop)
    returns (requests: seq<Request>, waiting: bool)
    requires session.Valid() && l.key == session.appkey[..] && l.requests == issued
    modifies session.appkey
    ensures var h := Handle(l, Pressed(key, reply));
      h.loop == l.(key := session.appkey[..], requests := requests) &&
      (waiting <==> h.stop == Some(AwaitingKey))
  {
    requests, waiting := issued, false;
    match Menu(key) {
      case GetCreditCmd =>
        var request, shown := session.GetCredit(reply.status, reply.credit);
        requests := requests + [request];
      case AddCreditCmd =>
        var request := session.AddCredit(reply.entered);
        requests := requests + [request];
      case SetKeyCmd =>
        var accepted, prompts := session.SetKey(reply.candidates);
        waiting := !accepted;
      case Quit =>
      case ShowUsage =>
    }
  }

  /** The inner loop `while (!_kbhit())`: poll for as long as the trace
      holds poll replies, stopping early at a fatal one. The key and the
      requests are the loop state's other parts, which polling leaves alone. */
  method PollUntilKey(tracker: CardTracker, trace: seq<Event>, start: nat, seen: seq<CardId>,
                      ghost key: seq<byte>, ghost requests: seq<Request>)
    returns (i: nat, events: seq<CardId>, fatal: bool)
    requires tracker.Valid() && start <= |trace|
    modifies tracker, tracker.oldUid
    ensures tracker.Valid() && start <= i <= |trace|
    ensures var l := Loop(tracker.State(), key, events, requests);
      Drive(Loop(old(tracker.State()), key, seen, requests), trace, start) ==
      if fatal then Ending(l, i, Failure) else Drive(l, trace, i)
    ensures !fatal ==> i == |trace| || trace[i].Pressed?
  {
    i, events, fatal := start, seen, false;
    ghost var ending := Drive(Loop(tracker.State(), key, seen, requests), trace, start);
    while i < |trace| && trace[i].Polled?
      invariant start <= i <= |trace|
      invariant tracker.Valid()
      invariant Drive(Loop(tracker.State(), key, events, requests), trace, i) == ending
      decreases |trace| - i
    {
      ghost var before := Loop(tracker.State(), key, events, requests);
      events, fatal := PollOnce(tracker, trace[i].result, events, before);
      i := i + 1;
      if fatal {
        return;
      }
    }
  }

  /** The do-while loop of main() on an open reader: poll while no key is
      pending, dispatch the key, and stop at ESC or a fatal poll; the reader is
      closed on both ways out. */
  method Serve(reader: Reader, session: Session, trace: seq<Event>)
    returns (exit: Exit, consumed: nat, events: seq<CardId>, requests: seq<Request>)
    requires reader.isOpen && session.Valid()
    modifies reader, session.appkey
    ensures var e := Drive(Start(old(session.appkey[..])), trace, 0);
      exit == e.exit && consumed == e.consumed &&
      events == e.loop.events && requests == e.loop.requests && session.appkey[..] == e.loop.key
    ensures reader.closes == old(reader.closes) + (if exit.Ended() then 1 else 0)
    ensures reader.isOpen == !exit.Ended()
  {
    var tracker := new CardTracker();
    events, requests := [], [];
    var i := 0;
    ghost var ending := Drive(Start(session.appkey[..]), trace, 0);
    // do { while (!_kbhit()) { poll } key = _getch(); menu(key); } while (key != ESC)
    while true
      invariant 0 <= i <= |trace|
      invariant tracker.Valid() && fresh(tracker) && fresh(tracker.oldUid)
      invariant reader.isOpen && reader.closes == old(reader.closes)
      invariant Drive(Loop(tracker.State(), session.appkey[..], events, requests), trace, i) == ending
      decreases |trace| - i
    {
      var fatal;
      i, events, fatal := PollUntilKey(tracker, trace, i, events, session.appkey[..], requests);
      if fatal {
        reader.Close();
        return Failure, i, events, requests;
      }
      if i == |trace| {
        return Polling, i, events, requests;
      }

      ghost var before := Loop(tracker.State(), session.appkey[..], events, requests);
      var key := trace[i].key;
      var waiting;
      requests, waiting := MenuKey(session, key, trace[i].reply, requests, before);
      i := i + 1;
      if waiting {
        return AwaitingKey, i, events, requests;
      }
      if key == Esc {
        break;
      }
    }
    reader.Close();
    exit, consumed := Success, i;
  }

  /** main(), given the statuses of ReaderOpen and ReaderReset, the verdict of
      CheckDependencies, and the event trace. It returns the reader handle, how
      the run exits, how many events it consumed, and the new-card events and
      balance requests it emitted. */
  method Run(session: Session, openStatus: Status, resetStatus: Status, dependenciesOk: bool, trace: seq<Event>)
    returns (reader: Reader, exit: Exit, consumed: nat, events: seq<CardId>, requests: seq<Request>)
    requires session.Valid()
    modifies session.appkey
    ensures fresh(reader)
    ensures openStatus != StatusOk ==>
      exit == Failure && reader.closes == 0 && !reader.isOpen &&
      consumed == 0 && events == [] && requests == [] && session.appkey[..] == old(session.appkey[..])
    ensures openStatus == StatusOk && (resetStatus != StatusOk || !dependenciesOk) ==>
      exit == Failure && reader.closes == 1 && !reader.isOpen &&
      consumed == 0 && events == [] && requests == [] && session.appkey[..] == old(session.appkey[..])
    ensures openStatus == StatusOk && resetStatus == StatusOk && dependenciesOk ==>
      var e := Drive(Start(old(session.appkey[..])), trace, 0);
      exit == e.exit && consumed == e.consumed &&
      events == e.loop.events && requests == e.loop.requests && session.appkey[..] == e.loop.key &&
      reader.closes == (if exit.Ended() then 1 else 0) && reader.isOpen == !exit.Ended()
  {
    reader := new Reader();
    var ok := reader.Open(openStatus);
    if !ok {
      return reader, Failure, 0, [], [];
    }
    if resetStatus != StatusOk {
      reader.Close();
      return reader, Failure, 0, [], [];
    }
    if !dependenciesOk {
      reader.Close();
      return reader, Failure, 0, [], [];
    }

    exit, consumed, events, requests := Serve(reader, session, trace);
  }
}
