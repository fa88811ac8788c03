/** The balance session: the 6-byte authentication key held for the whole run
    (static appkey[6]) and the three menu operations that use or replace it.
    The balance calls themselves belong to the closed reader library; each
    operation here returns the request it hands to the library, and takes the
    library's reply as an input. */
module BalanceSession {
  import opened Types

  /** sizeof(appkey) */
  const KeyLength: nat := 6

  /** The authentication mode both balance calls use (MIFARE_AUTHENT1A, key A;
      other modes are not implemented). */
  datatype AuthMode = AuthKeyA

  /** A call handed to the reader library. */
  datatype Request =
    | BalanceGet(mode: AuthMode, key: seq<byte>)
    | BalanceSet(mode: AuthMode, key: seq<byte>, credit: Int32)

  /** The index of the first entered token of exactly KeyLength bytes: the
      one the key prompt accepts after rejecting every entry before it. */
  function FirstKey(candidates: seq<seq<byte>>): (k: Option<nat>)
    ensures k.Some? ==> k.value < |candidates| && |candidates[k.value]| == KeyLength
    ensures k.Some? ==> forall j :: 0 <= j < k.value ==> |candidates[j]| != KeyLength
    ensures k.None? <==> forall j :: 0 <= j < |candidates| ==> |candidates[j]| != KeyLength
    decreases |candidates|
  {
    if candidates == [] then None
    else if |candidates[0]| == KeyLength then Some(0)
    else match FirstKey(candidates[1..])
      case None => None
      case Some(k) => Some(k + 1)
  }

  /** "abc" is refused; "abcdef" after it is accepted. */
  lemma KeyLengthGate()
    ensures FirstKey([[0x61, 0x62, 0x63]]) == None
    ensures FirstKey([[0x61, 0x62, 0x63], [0x61, 0x62, 0x63, 0x64, 0x65, 0x66]]) == Some(1)
  {
  }

  /** The process-wide key store. */
  class Session {
    const appkey: array<byte>

    ghost predicate Valid()
      reads this
    {
      appkey.Length == KeyLength
    }

    /** The key is a static array initialised from an empty string literal,
        so all six bytes start as zero. */
    constructor ()
      ensures Valid() && fresh(appkey)
      ensures appkey[..] == Repeat(0, KeyLength)
    {
      appkey := new byte[KeyLength](_ => 0);
    }

    /** Operation3: prompt until a token of exactly six bytes is entered, then
        copy those six bytes into the key. When the entered tokens run out
        first, the prompt is still waiting and the key is untouched. */
    method SetKey(candidates: seq<seq<byte>>) returns (accepted: bool, prompts: nat)
      requires Valid()
      modifies appkey
      ensures accepted <==> FirstKey(candidates).Some?
      ensures accepted ==> prompts == FirstKey(candidates).value + 1 && appkey[..] == candidates[prompts - 1]
      ensures !accepted ==> prompts == |candidates| && appkey[..] == old(appkey[..])
    {
      var i := 0;
      while i < |candidates| && |candidates[i]| != KeyLength
        invariant 0 <= i <= |candidates|
        invariant forall j :: 0 <= j < i ==> |candidates[j]| != KeyLength
      {
        i := i + 1;
      }
      if i == |candidates| {
        return false, i;
      }
      var entry := candidates[i];
      var k := 0;
      while k < KeyLength
        invariant 0 <= k <= KeyLength
        invariant forall j :: 0 <= j < k ==> appkey[j] == entry[j]
      {
        appkey[k] := entry[k];
        k := k + 1;
      }
      accepted, prompts := true, i + 1;
    }

    /** Operation1: read the balance with the current key; the credit is shown
        only when the library reports success. The key is only read. */
    method GetCredit(status: Status, credit: Int32) returns (request: Request, shown: Option<Int32>)
      requires Valid()
      ensures request == BalanceGet(AuthKeyA, appkey[..]) && |request.key| == KeyLength
      ensures shown.Some? <==> status == StatusOk
      ensures shown.Some? ==> shown.value == credit
    {
      request := BalanceGet(AuthKeyA, appkey[..]);
      if status != StatusOk {
        return request, None;
      }
      shown := Some(credit);
    }

    /** Operation2: write the entered balance with the current key. The
        library's status is only reported; the key is only read. */
    method AddCredit(entered: Int32) returns (request: Request)
      requires Valid()
      ensures request == BalanceSet(AuthKeyA, appkey[..], entered) && |request.key| == KeyLength
    {
      request := BalanceSet(AuthKeyA, appkey[..], entered);
    }
  }
}
