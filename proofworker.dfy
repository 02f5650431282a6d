/**
 * The proof worker: a request names one of four proof types and carries an
 * untyped parameter object. The handler converts the parameters, calls the
 * matching prepare function of the core library, forwards its progress
 * reports, and ends with exactly one result or error message.
 */
module ProofWorker {
  import opened Wrappers
  import opened Decimal
  import opened Json

  datatype ProofType = ShieldProof | TransferProof | UnshieldProof | SwapProof

  /** The message the page posts: { type, params }. */
  datatype ProofRequest = ProofRequest(kind: ProofType, params: map<string, JsValue>)

  /** The three messages the worker posts back. */
  datatype WorkerMessage =
    | Progress(progress: int)
    | ProofResult(serializedTransaction: string)
    | ProofError(message: string)

  /** params.name; a property that is not set reads as undefined, written VNull. */
  function Param(params: map<string, JsValue>, name: string): JsValue {
    if name in params then params[name] else VNull
  }

  /** JavaScript truthiness of a value: null, false, 0, "" and 0n are falsy. */
  predicate JsTruthy(v: JsValue) {
    !(v.VNull? || v == VBool(false) || v == VNumber(0) || v == VString("") || v == VBigInt(0))
  }

  /** BigInt(value); None where it throws (undefined, null, malformed text, objects). */
  function BigIntOf(v: JsValue): Option<int> {
    match v
    case VString(s) => ParseBigInt(s)
    case VNumber(n) => Some(n)
    case VBigInt(i) => Some(i)
    case VBool(b) => Some(if b then 1 else 0)
    case _ => None
  }

  /** (params.feeBasisPoints as number) || 85 */
  function FeeOr85(v: JsValue): JsValue {
    if JsTruthy(v) then v else VNumber(85)
  }

  /** The argument object of each prepare function; the casts in the handler change no value. */
  datatype PrepareCall =
    | PrepareShield(chain: JsValue, tokenAddress: JsValue, amount: int, recipientZkAddress: JsValue)
    | PrepareTransfer(chain: JsValue, walletId: JsValue, tokenAddress: JsValue, amount: int, recipientZkAddress: JsValue)
    | PrepareUnshield(chain: JsValue, walletId: JsValue, tokenAddress: JsValue, amount: int, destinationAddress: JsValue)
    | PrepareSwap(chain: JsValue, walletId: JsValue, quote: JsValue, recipientZkAddress: JsValue,
                  feeRecipient: JsValue, feeBasisPoints: JsValue)

  function KindOf(call: PrepareCall): ProofType {
    match call
    case PrepareShield(_, _, _, _) => ShieldProof
    case PrepareTransfer(_, _, _, _, _) => TransferProof
    case PrepareUnshield(_, _, _, _, _) => UnshieldProof
    case PrepareSwap(_, _, _, _, _, _) => SwapProof
  }

  /**
   * The switch on the request type: the prepare call it makes, or the
   * amount BigInt threw on before any call was made.
   */
  function Dispatch(req: ProofRequest): Result<PrepareCall, JsValue> {
    var p := req.params;
    var amount := Param(p, "amount");
    match req.kind
    case ShieldProof =>
      if BigIntOf(amount).None? then Err(amount)
      else Ok(PrepareShield(Param(p, "chain"), Param(p, "tokenAddress"), BigIntOf(amount).value, Param(p, "recipientZkAddress")))
    case TransferProof =>
      if BigIntOf(amount).None? then Err(amount)
      else Ok(PrepareTransfer(Param(p, "chain"), Param(p, "walletId"), Param(p, "tokenAddress"), BigIntOf(amount).value,
                              Param(p, "recipientZkAddress")))
    case UnshieldProof =>
      if BigIntOf(amount).None? then Err(amount)
      else Ok(PrepareUnshield(Param(p, "chain"), Param(p, "walletId"), Param(p, "tokenAddress"), BigIntOf(amount).value,
                              Param(p, "destinationAddress")))
    case SwapProof =>
      Ok(PrepareSwap(Param(p, "chain"), Param(p, "walletId"), Param(p, "quote"), Param(p, "recipientZkAddress"),
                     Param(p, "feeRecipient"), FeeOr85(Param(p, "feeBasisPoints"))))
  }

  /**
   * What one prepare call does: the progress values it passes to onProgress,
   * in order, then the value it resolves with or the message of what it throws.
   */
  datatype Preparation = Preparation(reports: seq<real>, outcome: Result<JsValue, string>)

  /** The code the worker calls but cannot see: the prepare functions, BigInt's error text, and JSON.stringify. */
  datatype WorkerPlatform = WorkerPlatform(
    prepare: PrepareCall -> Preparation,
    bigIntErrorMessage: JsValue -> string,
    stringify: Json -> string)

  /** Math.round: the nearest integer, halves rounded up. */
  function MathRound(x: real): int {
    (x + 0.5).Floor
  }

  /** Math.round gives the integer nearest to its argument, and an integer unchanged. */
  lemma MathRoundNearest(x: real)
    ensures x - 0.5 < MathRound(x) as real <= x + 0.5
    ensures x == x.Floor as real ==> MathRound(x) == x.Floor
  {
  }

  function ProgressMessages(reports: seq<real>): seq<WorkerMessage> {
    seq(|reports|, i requires 0 <= i < |reports| => Progress(MathRound(reports[i])))
  }

  /** The messages after the prepare call settles: 100 and the serialized result, or the error. */
  function Settled(platform: WorkerPlatform, outcome: Result<JsValue, string>): seq<WorkerMessage> {
    match outcome
    case Ok(v) => [Progress(100), ProofResult(platform.stringify(Replace(v)))]
    case Err(m) => [ProofError(m)]
  }

  /** Every message the worker posts for one request, in order. */
  function Emitted(platform: WorkerPlatform, req: ProofRequest): seq<WorkerMessage> {
    match Dispatch(req)
    case Err(amount) => [ProofError(platform.bigIntErrorMessage(amount))]
    case Ok(call) =>
      var prep := platform.prepare(call);
      ProgressMessages(prep.reports) + Settled(platform, prep.outcome)
  }

  /** The request ran to a result: it converted, and the prepare call resolved. */
  predicate Succeeds(platform: WorkerPlatform, req: ProofRequest) {
    Dispatch(req).Ok? && platform.prepare(Dispatch(req).value).outcome.Ok?
  }

  /**
   * The message protocol: only progress messages, then one final message;
   * on success the final two are progress 100 and the serialized result,
   * otherwise the final one is an error and no result is posted.
   */
  lemma EmittedShape(platform: WorkerPlatform, req: ProofRequest)
    ensures var m := Emitted(platform, req);
      && |m| >= 1
      && (forall i :: 0 <= i < |m| - 1 ==> m[i].Progress?)
      && !m[|m| - 1].Progress?
      && (m[|m| - 1].ProofResult? <==> Succeeds(platform, req))
  {
  }

  lemma EmittedOnSuccess(platform: WorkerPlatform, req: ProofRequest)
    requires Succeeds(platform, req)
    ensures var m := Emitted(platform, req);
      var v := platform.prepare(Dispatch(req).value).outcome.value;
      && |m| >= 2
      && m[|m| - 2] == Progress(100)
      && m[|m| - 1] == ProofResult(platform.stringify(Replace(v)))
      && (forall i :: 0 <= i < |m| ==> !m[i].ProofError?)
      && (forall i :: 0 <= i < |m| && m[i].ProofResult? ==> i == |m| - 1)
  {
  }

  lemma EmittedOnFailure(platform: WorkerPlatform, req: ProofRequest)
    requires !Succeeds(platform, req)
    ensures var m := Emitted(platform, req);
      && m[|m| - 1].ProofError?
      && (forall i :: 0 <= i < |m| ==> !m[i].ProofResult?)
      && (forall i :: 0 <= i < |m| && m[i].ProofError? ==> i == |m| - 1)
      && (Dispatch(req).Err? ==> m == [ProofError(platform.bigIntErrorMessage(Dispatch(req).error))])
      && (Dispatch(req).Ok? ==> m[|m| - 1] == ProofError(platform.prepare(Dispatch(req).value).outcome.error))
  {
  }

  /** Each progress report is forwarded rounded, and in order. */
  lemma EmittedProgress(platform: WorkerPlatform, req: ProofRequest)
    requires Dispatch(req).Ok?
    ensures var reports := platform.prepare(Dispatch(req).value).reports;
      var m := Emitted(platform, req);
      && |m| > |reports|
      && forall i :: 0 <= i < |reports| ==> m[i] == Progress(MathRound(reports[i]))
  {
  }

  /**
   * The request type selects its own prepare function, and only a swap
   * never fails before the call; the others fail exactly when BigInt
   * rejects the amount.
   */
  lemma DispatchSelects(req: ProofRequest)
    ensures Dispatch(req).Ok? ==> KindOf(Dispatch(req).value) == req.kind
    ensures Dispatch(req).Err? <==> req.kind != SwapProof && BigIntOf(Param(req.params, "amount")).None?
    ensures Dispatch(req).Ok? && req.kind != SwapProof ==>
      Dispatch(req).value.amount == BigIntOf(Param(req.params, "amount")).value
  {
  }

  /** The swap fee is 85 basis points when it is absent or 0, and the given value when it is truthy. */
  lemma SwapFeeDefault(req: ProofRequest)
    requires req.kind == SwapProof
    ensures var fee := Dispatch(req).value.feeBasisPoints;
      && ("feeBasisPoints" !in req.params ==> fee == VNumber(85))
      && (Param(req.params, "feeBasisPoints") == VNumber(0) ==> fee == VNumber(85))
      && (JsTruthy(Param(req.params, "feeBasisPoints")) ==> fee == req.params["feeBasisPoints"])
      && JsTruthy(fee)
  {
  }

  /** An amount written as a bigint's decimal text reaches the prepare call as that number. */
  lemma AmountText(req: ProofRequest, amount: int)
    requires req.kind != SwapProof
    requires Param(req.params, "amount") == VString(IntToString(amount))
    ensures Dispatch(req).Ok? && Dispatch(req).value.amount == amount
  {
    ParseIntToString(amount);
  }

  /**
   * A bigint property of the result is serialized as its decimal text: the
   * result message parses back to a string that BigInt reads as that number.
   */
  lemma ResultBigIntAsText(codec: JsonCodec, platform: WorkerPlatform, req: ProofRequest, name: string, i: int)
    requires codec.Sound() && platform.stringify == codec.stringify
    requires Succeeds(platform, req)
    requires var v := platform.prepare(Dispatch(req).value).outcome.value;
      v.VObject? && name in v.fields && v.fields[name] == VBigInt(i)
    ensures var m := Emitted(platform, req);
      var parsed := codec.parse(m[|m| - 1].serializedTransaction);
      && parsed.Some? && parsed.value.JObject? && name in parsed.value.fields
      && parsed.value.fields[name].JString? && ParseBigInt(parsed.value.fields[name].s) == Some(i)
  {
    var v := platform.prepare(Dispatch(req).value).outcome.value;
    assert Replace(v).fields[name] == Replace(VBigInt(i));
    BigIntAsDecimal(i);
  }

  /** The worker's global scope: what it has posted, and the code it calls. */
  class WorkerScope {
    var posted: seq<WorkerMessage>
    const platform: WorkerPlatform

    constructor(platform: WorkerPlatform)
      ensures posted == [] && this.platform == platform
    {
      posted := [];
      this.platform := platform;
    }

    /** onProgress: forwards a report rounded to an integer. */
    method OnProgress(progress: real)
      modifies this
      ensures posted == old(posted) + [Progress(MathRound(progress))]
    {
      posted := posted + [Progress(MathRound(progress))];
    }

    /**
     * The message listener for one request. The prepare call invokes
     * onProgress once per report before it settles; the loop plays those
     * invocations in order.
     */
    method HandleRequest(req: ProofRequest)
      modifies this
      ensures posted == old(posted) + Emitted(platform, req)
    {
      var call := Dispatch(req);
      if call.Err? {
        posted := posted + [ProofError(platform.bigIntErrorMessage(call.error))];
        return;
      }
      var prep := platform.prepare(call.value);
      ghost var start := posted;
      var i := 0;
      while i < |prep.reports|
        invariant 0 <= i <= |prep.reports|
        invariant |posted| == |start| + i
        invariant posted[..|start|] == start
        invariant forall k :: 0 <= k < i ==> posted[|start| + k] == Progress(MathRound(prep.reports[k]))
      {
        OnProgress(prep.reports[i]);
        i := i + 1;
      }
      assert posted == start + ProgressMessages(prep.reports);
      match prep.outcome {
        case Ok(v) =>
          OnProgress(100.0);
          posted := posted + [ProofResult(platform.stringify(Replace(v)))];
        case Err(m) =>
          posted := posted + [ProofError(m)];
      }
    }
  }
}
