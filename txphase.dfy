/**
 * The phase machine the send, shield and swap screens share. Each screen
 * declares the same three effects; one commit of the screen runs them, in
 * order, against the values that render showed. React is that commit as a
 * function of the render's values.
 */
module TxPhase {
  import opened Wrappers

  /** The union of the three screens' phases; only the swap screen uses Quoting. */
  datatype Phase = Form | Quoting | Proving | Submitting | Success | Error

  /** A string-or-null value used as a condition: null and "" are falsy. */
  predicate Truthy(v: Option<string>) {
    v.Some? && v.value != ""
  }

  /** What a catch block receives: an Error with its message, or any other value. */
  datatype Thrown = ErrorInstance(message: string) | OtherValue

  /** err instanceof Error ? err.message : fallback */
  function ErrorMessage(t: Thrown, fallback: string): string {
    if t.ErrorInstance? then t.message else fallback
  }

  /** The values one render of a screen shows its effects. */
  datatype Snapshot = Snapshot(
    phase: Phase,
    broadcastStarted: bool,
    txError: Option<string>,
    result: Option<string>,
    error: Option<string>,
    isGenerating: bool,
    txHash: Option<string>,
    broadcastError: Option<string>)

  /** What the commit leaves in the screen, and the transaction it broadcasts, if any. */
  datatype Reaction = Reaction(phase: Phase, broadcastStarted: bool, txError: Option<string>, broadcast: Option<string>)

  /** The first effect's guard: a proof result while proving, not yet broadcast. */
  predicate StartsBroadcast(s: Snapshot) {
    s.phase == Proving && Truthy(s.result) && !s.broadcastStarted
  }

  /** The second effect's guard: the proof failed and the worker has stopped. */
  predicate ProofFailed(s: Snapshot) {
    s.phase == Proving && Truthy(s.error) && !s.isGenerating
  }

  /** The third effect's guards, both read against the rendered phase. */
  predicate HashArrived(s: Snapshot) {
    s.phase == Submitting && Truthy(s.txHash)
  }

  predicate BroadcastFailed(s: Snapshot) {
    s.phase == Submitting && Truthy(s.broadcastError)
  }

  /** One commit: the three effects in declaration order; a later setPhase wins over an earlier one. */
  function React(s: Snapshot): Reaction {
    var phase1 := if StartsBroadcast(s) then Submitting else s.phase;
    var phase2 := if ProofFailed(s) then Error else phase1;
    var phase3 := if BroadcastFailed(s) then Error else if HashArrived(s) then Success else phase2;
    var txError :=
      if BroadcastFailed(s) then s.broadcastError
      else if ProofFailed(s) then s.error
      else s.txError;
    Reaction(phase3, s.broadcastStarted || StartsBroadcast(s), txError,
             if StartsBroadcast(s) then s.result else None)
  }

  /**
   * A proof result is broadcast exactly when proving and not yet started,
   * and then it is the result that is broadcast and the flag is set: a
   * second commit in the same phase broadcasts nothing.
   */
  lemma ReactBroadcastsOnce(s: Snapshot)
    ensures React(s).broadcast.Some? <==> s.phase == Proving && Truthy(s.result) && !s.broadcastStarted
    ensures React(s).broadcast.Some? ==> React(s).broadcast == s.result && React(s).broadcastStarted
    ensures React(s).broadcast.Some? && !ProofFailed(s) ==> React(s).phase == Submitting
    ensures s.broadcastStarted ==> React(s).broadcastStarted && React(s).broadcast.None?
  {
  }

  /** Success is reached only from submitting with a transaction hash and no broadcast error. */
  lemma ReactSuccess(s: Snapshot)
    ensures React(s).phase == Success && s.phase != Success ==>
      s.phase == Submitting && Truthy(s.txHash) && !Truthy(s.broadcastError)
    ensures s.phase == Submitting && Truthy(s.txHash) && !Truthy(s.broadcastError) ==> React(s).phase == Success
  {
  }

  /**
   * The error phase is entered from proving when the proof failed, with the
   * proof's error as txError, or from submitting when the broadcast failed,
   * with the broadcast's error.
   */
  lemma ReactError(s: Snapshot)
    ensures React(s).phase == Error && s.phase != Error ==>
      || (ProofFailed(s) && React(s).txError == s.error)
      || (BroadcastFailed(s) && React(s).txError == s.broadcastError)
    ensures ProofFailed(s) || BroadcastFailed(s) ==> React(s).phase == Error && Truthy(React(s).txError)
  {
  }

  /** Form, quoting, success and error are at rest: a commit there changes nothing and broadcasts nothing. */
  lemma ReactAtRest(s: Snapshot)
    requires s.phase in {Form, Quoting, Success, Error}
    ensures React(s) == Reaction(s.phase, s.broadcastStarted, s.txError, None)
  {
  }

  /**
   * An effect that fires changes the phase, one of its own dependencies:
   * so running the effects on every commit acts as React's
   * re-run-on-change does.
   */
  lemma ReactFiringMoves(s: Snapshot)
    requires StartsBroadcast(s) || ProofFailed(s) || HashArrived(s) || BroadcastFailed(s)
    ensures React(s).phase != s.phase
  {
  }

  /** Proving moves only forward: to submitting, or to error. */
  lemma ReactFromProving(s: Snapshot)
    requires s.phase == Proving
    ensures React(s).phase in {Proving, Submitting, Error}
    ensures React(s).phase == Proving <==> !StartsBroadcast(s) && !ProofFailed(s)
  {
  }
}
