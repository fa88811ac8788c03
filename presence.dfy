/** The card-presence tracker of the main poll loop: it turns each reply of the
    reader's card-identity query into at most one "new card in field" event,
    suppressing repeats while the same card stays in the field. */
module Presence {
  import opened Types

  /** Size of the uid buffers `uid[10]` and `old_uid[10]`. */
  const UidCapacity: nat := 10

  /** The uid buffer the reader fills; only its first uid_size bytes are meaningful. */
  type UidBuffer = s: seq<byte> | |s| == UidCapacity witness [0, 0, 0, 0, 0, 0, 0, 0, 0, 0]

  /** uid_size as the reader reports it; a length above the buffer size is outside the model. */
  type UidLength = n: int | 0 <= n <= UidCapacity

  /** A card as the tracker compares it: sak and the significant uid bytes. */
  datatype CardId = CardId(sak: byte, uid: seq<byte>)

  /** A status other than success: the only kind the error branch of the poll sees. */
  type ErrorStatus = s: Status | s != StatusOk witness 1

  /** One reply of the card-identity query. */
  datatype PollResult =
    | CardRead(sak: byte, uid: UidBuffer, uidSize: UidLength)  // status OK
    | NoCard                                                    // status "no card"
    | ReadError(status: ErrorStatus)                            // any other status

  /** The identity a successful read denotes. */
  function Identity(p: PollResult): (id: CardId)
    requires p.CardRead?
    ensures |id.uid| == p.uidSize
  {
    CardId(p.sak, p.uid[..p.uidSize])
  }

  /** The comparison the loop makes between the stored card and a new read:
      sak, then the length, then the first uidSize bytes (memcmp). */
  predicate Differs(last: CardId, p: PollResult)
    requires p.CardRead?
  {
    last.sak != p.sak || |last.uid| != p.uidSize ||
    exists i :: 0 <= i < p.uidSize && last.uid[i] != p.uid[i]
  }

  /** The tracker's state: card_in_field and the stored identity. */
  datatype Tracker = Tracker(inField: bool, last: CardId)

  /** card_in_field = false, old_sak = 0, old_uid_size = 0 */
  const Initial: Tracker := Tracker(false, CardId(0, []))

  /** What one poll means to the loop. */
  datatype Outcome = NewCard(id: CardId) | Quiet | Fatal(status: ErrorStatus)

  datatype Step = Step(next: Tracker, outcome: Outcome)

  /** The tracker's reaction to one poll reply. */
  function React(t: Tracker, p: PollResult): (s: Step)
    ensures s.outcome.Fatal? <==> p.ReadError?
    ensures s.outcome.NewCard? ==> p.CardRead? && s.outcome.id == Identity(p) && s.next == Tracker(true, Identity(p))
    ensures s.outcome.Quiet? ==> s.next.last == t.last && s.next.inField == p.CardRead?
    ensures s.outcome.Fatal? ==> s.next == t
  {
    match p
    case CardRead(_, _, _) =>
      if !t.inField || Differs(t.last, p) then Step(Tracker(true, Identity(p)), NewCard(Identity(p)))
      else Step(t, Quiet)
    case NoCard => Step(t.(inField := false), Quiet)
    case ReadError(status) => Step(t, Fatal(status))
  }

  /** memcmp(a, b, n) == 0 */
  method UidEqual(a: array<byte>, b: seq<byte>, n: nat) returns (equal: bool)
    requires n <= a.Length && n <= |b|
    ensures equal <==> a[..n] == b[..n]
  {
    var i := 0;
    while i < n && a[i] == b[i]
      invariant 0 <= i <= n
      invariant forall k :: 0 <= k < i ==> a[k] == b[k]
    {
      i := i + 1;
    }
    equal := i == n;
    if !equal {
      assert a[..n][i] != b[..n][i];
    }
  }

  /** memcpy(dst, src, n): the first n bytes are replaced, the rest kept. */
  method CopyUid(dst: array<byte>, src: seq<byte>, n: nat)
    requires n <= dst.Length && n <= |src|
    modifies dst
    ensures dst[..n] == src[..n]
    ensures dst[n..] == old(dst[n..])
  {
    var i := 0;
    while i < n
      invariant 0 <= i <= n
      invariant forall k :: 0 <= k < i ==> dst[k] == src[k]
      invariant forall k :: n <= k < dst.Length ==> dst[k] == old(dst[k])
    {
      dst[i] := src[i];
      i := i + 1;
    }
  }

  /** The poll loop's locals card_in_field, old_sak, old_uid_size and old_uid. */
  class CardTracker {
    var cardInField: bool
    var oldSak: byte
    var oldUidSize: UidLength
    const oldUid: array<byte>

    ghost predicate Valid()
      reads this
    {
      oldUid.Length == UidCapacity
    }

    /** The abstract state; bytes of old_uid beyond old_uid_size take no part. */
    ghost function State(): Tracker
      reads this, oldUid
      requires Valid()
    {
      Tracker(cardInField, CardId(oldSak, oldUid[..oldUidSize]))
    }

    constructor ()
      ensures Valid() && fresh(oldUid)
      ensures State() == Initial
    {
      cardInField := false;
      oldSak := 0;
      oldUidSize := 0;
      oldUid := new byte[UidCapacity];
    }

    /** Store the read's sak and uid length, and copy its significant uid
        bytes into the stored buffer. */
    method Record(p: PollResult)
      requires Valid() && p.CardRead?
      modifies this, oldUid
      ensures Valid() && cardInField == old(cardInField)
      ensures State().last == Identity(p)
      ensures oldUid[p.uidSize..] == old(oldUid[p.uidSize..])
    {
      oldSak := p.sak;
      oldUidSize := p.uidSize;
      CopyUid(oldUid, p.uid, p.uidSize);
    }

    /** One pass of the inner poll loop, given the reply of the card-identity query. */
    method Poll(p: PollResult) returns (outcome: Outcome)
      requires Valid()
      modifies this, oldUid
      ensures Valid()
      ensures State() == React(old(State()), p).next
      ensures outcome == React(old(State()), p).outcome
      ensures outcome.NewCard? ==> oldUid[p.uidSize..] == old(oldUid[p.uidSize..])
      ensures !outcome.NewCard? ==> oldUid[..] == old(oldUid[..]) && oldSak == old(oldSak) && oldUidSize == old(oldUidSize)
    {
      match p
      case CardRead(sak, uid, uidSize) =>
        if cardInField {
          var differs := oldSak != sak || oldUidSize != uidSize;
          if !differs {
            var same := UidEqual(oldUid, uid, uidSize);
            differs := !same;
            assert same <==> !Differs(CardId(oldSak, oldUid[..oldUidSize]), p);
          }
          if differs {
            Record(p);
            outcome := NewCard(Identity(p));
          } else {
            outcome := Quiet;
          }
        } else {
          Record(p);
          cardInField := true;
          outcome := NewCard(Identity(p));
        }
      case NoCard =>
        cardInField := false;
        outcome := Quiet;
      case ReadError(status) =>
        outcome := Fatal(status);
    }
  }
}
