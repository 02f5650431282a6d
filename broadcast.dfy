/**
 * useBroadcast: sends a proved transaction through the core library and
 * exposes txHash, isBroadcasting and broadcastError to the screens. A
 * broadcast is two steps: the call, which sets the flags at once, and its
 * settlement after the awaited network call, which the platform delivers
 * later.
 */
module BroadcastHook {
  import opened Wrappers
  import opened TxPhase

  /** broadcastShield or broadcastPrivate, both on chain "polygon". */
  datatype BroadcastType = ShieldBroadcast | PrivateBroadcast

  const BroadcastFailedFallback: string := "Broadcast failed"

  datatype BroadcasterFields = BroadcasterFields(
    txHash: Option<string>,
    isBroadcasting: bool,
    broadcastError: Option<string>,
    sent: seq<(BroadcastType, string)>,
    pending: nat)

  /** What broadcast as written leaves before its await: busy, no error, one more call awaiting; txHash untouched. */
  function StartedAsWritten(f: BroadcasterFields, kind: BroadcastType, tx: string): BroadcasterFields {
    f.(isBroadcasting := true, broadcastError := None, sent := f.sent + [(kind, tx)], pending := f.pending + 1)
  }

  /** The same, with the previous hash cleared. */
  function Started(f: BroadcasterFields, kind: BroadcastType, tx: string): BroadcasterFields {
    StartedAsWritten(f, kind, tx).(txHash := None)
  }

  class Broadcaster {
    var txHash: Option<string>
    var isBroadcasting: bool
    var broadcastError: Option<string>
    /** Every transaction handed to the core library, with the function it went to. */
    var sent: seq<(BroadcastType, string)>
    /** Broadcasts whose network call has not settled yet. */
    var pending: nat

    function Fields(): BroadcasterFields
      reads this
    {
      BroadcasterFields(txHash, isBroadcasting, broadcastError, sent, pending)
    }

    constructor()
      ensures Fields() == BroadcasterFields(None, false, None, [], 0)
    {
      txHash := None;
      isBroadcasting := false;
      broadcastError := None;
      sent := [];
      pending := 0;
    }

    /**
     * broadcast as written: isBroadcasting set and broadcastError cleared
     * before the call, but txHash left as the previous broadcast set it.
     */
    method BroadcastAsWritten(kind: BroadcastType, serializedTransaction: string)
      modifies this
      ensures Fields() == StartedAsWritten(old(Fields()), kind, serializedTransaction)
    {
      isBroadcasting := true;
      broadcastError := None;
      sent := sent + [(kind, serializedTransaction)];
      pending := pending + 1;
    }

    /** broadcast with the previous transaction's hash cleared as well, so that a hash shown belongs to a settled call. */
    method Broadcast(kind: BroadcastType, serializedTransaction: string)
      modifies this
      ensures Fields() == Started(old(Fields()), kind, serializedTransaction)
      ensures !Truthy(txHash) && !Truthy(broadcastError)
    {
      txHash := None;
      isBroadcasting := true;
      broadcastError := None;
      sent := sent + [(kind, serializedTransaction)];
      pending := pending + 1;
    }

    /**
     * The awaited call settles: its hash, or the thrown error's message
     * ("Broadcast failed" for a non-Error), and isBroadcasting cleared in
     * the finally block. With no call awaiting, nothing happens.
     */
    method Settle(outcome: Result<string, Thrown>)
      modifies this
      ensures old(pending) == 0 ==> Fields() == old(Fields())
      ensures old(pending) > 0 && outcome.Ok? ==>
        Fields() == old(Fields()).(txHash := Some(outcome.value), isBroadcasting := false, pending := old(pending) - 1)
      ensures old(pending) > 0 && outcome.Err? ==>
        Fields() == old(Fields()).(broadcastError := Some(ErrorMessage(outcome.error, BroadcastFailedFallback)),
                                   isBroadcasting := false, pending := old(pending) - 1)
    {
      if pending == 0 {
        return;
      }
      match outcome {
        case Ok(hash) =>
          txHash := Some(hash);
        case Err(thrown) =>
          broadcastError := Some(ErrorMessage(thrown, BroadcastFailedFallback));
      }
      isBroadcasting := false;
      pending := pending - 1;
    }
  }

  /**
   * The screen's phase after a second send, as written: the first send
   * succeeded with hash first, the user went back and sent again, and the
   * new proof result was broadcast. The commit after the broadcast started
   * sees the first send's hash and shows success while the second call is
   * still awaiting.
   */
  method StaleHashAsWritten(first: string, tx: string) returns (phase: Phase, shown: Option<string>, awaiting: nat)
    requires first != "" && tx != ""
    ensures phase == Success && shown == Some(first) && awaiting == 1
  {
    var b := new Broadcaster();
    b.BroadcastAsWritten(PrivateBroadcast, "an earlier transaction");
    b.Settle(Ok(first));
    // Back and a new send: the screen is proving again, nothing broadcast yet.
    var r1 := React(Snapshot(Proving, false, None, Some(tx), None, false, b.txHash, b.broadcastError));
    b.BroadcastAsWritten(PrivateBroadcast, r1.broadcast.value);
    var r2 := React(Snapshot(r1.phase, r1.broadcastStarted, r1.txError, Some(tx), None, false, b.txHash, b.broadcastError));
    phase, shown, awaiting := r2.phase, b.txHash, b.pending;
  }

  /** The same steps with the hash cleared by broadcast: the screen waits in submitting for the call to settle. */
  method StaleHashCorrected(first: string, tx: string) returns (phase: Phase, shown: Option<string>, awaiting: nat)
    requires first != "" && tx != ""
    ensures phase == Submitting && shown == None && awaiting == 1
  {
    var b := new Broadcaster();
    b.Broadcast(PrivateBroadcast, "an earlier transaction");
    b.Settle(Ok(first));
    var r1 := React(Snapshot(Proving, false, None, Some(tx), None, false, b.txHash, b.broadcastError));
    b.Broadcast(PrivateBroadcast, r1.broadcast.value);
    var r2 := React(Snapshot(r1.phase, r1.broadcastStarted, r1.txError, Some(tx), None, false, b.txHash, b.broadcastError));
    phase, shown, awaiting := r2.phase, b.txHash, b.pending;
  }

  /**
   * With the hash cleared, success needs a settlement after the broadcast:
   * a commit that follows the broadcast directly stays in submitting,
   * whatever the proof hook shows.
   */
  lemma NoSuccessBeforeSettle(f: BroadcasterFields, kind: BroadcastType, tx: string, s: Snapshot)
    requires s.phase == Submitting
    requires s.txHash == Started(f, kind, tx).txHash && s.broadcastError == Started(f, kind, tx).broadcastError
    ensures React(s).phase == Submitting && React(s).broadcast.None?
  {
  }
}
