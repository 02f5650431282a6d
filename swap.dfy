/**
 * The swap screen: a private swap of one token for another. The user
 * picks the tokens and the amount, asks for a quote (the quoting phase),
 * and then asks the proof hook for a swap proof; the shared phase machine
 * takes the screen through proving and submitting to success or error.
 * Changing any input invalidates the quote.
 */
module SwapFlow {
  import opened Wrappers
  import opened Json
  import opened Tokens
  import AppStore
  import opened TxPhase
  import opened BroadcastHook
  import opened ProofWorker
  import opened ProofHook

  const QuoteFailedFallback: string := "Quote failed"
  const ZeroAddress: string := "0x0000000000000000000000000000000000000000"
  const SwapFeeBasisPoints: int := 85

  /** The quote handleGetQuote asked for: the tokens and the parsed amount, as the handler saw them. */
  datatype QuoteRequest = QuoteRequest(sellToken: Token, buyToken: Token, sellAmount: int, useApi: bool)

  /**
   * How the awaited part of handleGetQuote ends: a quote from getSwapQuote
   * (its buyAmount and the whole quote object); the mock estimate text,
   * whose floating-point arithmetic is not modelled; or what was thrown.
   */
  datatype QuoteOutcome =
    | Quoted(buyAmount: int, quote: JsValue)
    | Mocked(estimate: string)
    | QuoteFailed(thrown: Thrown)

  /** The sell select's options: every token but the native one. */
  function SellOptions(): seq<Token> {
    Filter(POLYGON_TOKENS, (t: Token) => !t.isNative)
  }

  /** The buy select's options: every token but the native one and the one being sold. */
  function BuyOptions(sellToken: Token): seq<Token> {
    Filter(POLYGON_TOKENS, (t: Token) => !t.isNative && t.address != sellToken.address)
  }

  /** The buy options are exactly the non-native listed tokens at another address than the sell token's. */
  lemma BuyOptionsExact(sellToken: Token)
    ensures forall t :: t in BuyOptions(sellToken) ==> !t.isNative && t.address != sellToken.address
    ensures forall t :: t in POLYGON_TOKENS && !t.isNative && t.address != sellToken.address ==> t in BuyOptions(sellToken)
    ensures sellToken !in BuyOptions(sellToken)
  {
  }

  /** The sell options are exactly the non-native listed tokens. */
  lemma SellOptionsExact()
    ensures forall t :: t in SellOptions() <==> t in POLYGON_TOKENS && !t.isNative
  {
  }

  /** A string-or-null value as the request object holds it. */
  function OrNull(v: Option<string>): JsValue {
    if v.Some? then VString(v.value) else VNull
  }

  /** The parameters of the swap proof: the current quote, the wallet's own address, no fee recipient, 85 basis points. */
  function SwapParams(walletId: string, swapQuote: Option<JsValue>, railgunAddress: Option<string>): map<string, JsValue> {
    map["chain" := VString("polygon"), "walletId" := VString(walletId),
        "quote" := (if swapQuote.Some? then swapQuote.value else VNull),
        "recipientZkAddress" := OrNull(railgunAddress),
        "feeRecipient" := VString(ZeroAddress), "feeBasisPoints" := VNumber(SwapFeeBasisPoints)]
  }

  /** The worker turns a swap request into prepareSwap with the screen's quote, the wallet's own address and an 85 basis point fee. */
  lemma SwapReachesPrepare(walletId: string, swapQuote: Option<JsValue>, railgunAddress: Option<string>)
    ensures var call := Dispatch(ProofRequest(SwapProof, SwapParams(walletId, swapQuote, railgunAddress)));
      && call.Ok? && call.value.PrepareSwap?
      && call.value.walletId == VString(walletId)
      && call.value.recipientZkAddress == OrNull(railgunAddress)
      && call.value.quote == (if swapQuote.Some? then swapQuote.value else VNull)
      && call.value.feeRecipient == VString(ZeroAddress)
      && call.value.feeBasisPoints == VNumber(85)
  {
  }

  datatype SwapFields = SwapFields(
    phase: Phase, txError: Option<string>, broadcastStarted: bool,
    sellToken: Token, buyToken: Token, sellAmount: string,
    buyEstimate: Option<string>, swapQuote: Option<JsValue>,
    quoting: Option<QuoteRequest>)

  class SwapScreen {
    var phase: Phase
    var txError: Option<string>
    var broadcastStarted: bool
    var sellToken: Token
    var buyToken: Token
    var sellAmount: string
    var buyEstimate: Option<string>
    var swapQuote: Option<JsValue>
    /** The quote request whose await has not settled. */
    var quoting: Option<QuoteRequest>
    /** The list the token selects offer and look up: POLYGON_TOKENS. */
    const tokens: seq<Token>
    const hook: ProofWorkerHook
    const broadcaster: Broadcaster

    function Fields(): SwapFields
      reads this
    {
      SwapFields(phase, txError, broadcastStarted, sellToken, buyToken, sellAmount, buyEstimate, swapQuote, quoting)
    }

    /** What this render shows its effects. */
    function Shown(): Snapshot
      reads this, hook, broadcaster
    {
      Snapshot(phase, broadcastStarted, txError, hook.result, hook.error, hook.isGenerating,
               broadcaster.txHash, broadcaster.broadcastError)
    }

    /** The screen opens on the form selling USDC for WETH, with nothing typed and no quote. */
    constructor(hook: ProofWorkerHook, broadcaster: Broadcaster)
      ensures Fields() == SwapFields(Form, None, false, POLYGON_TOKENS[1], POLYGON_TOKENS[3], "", None, None, None)
      ensures this.hook == hook && this.broadcaster == broadcaster && tokens == POLYGON_TOKENS
    {
      tokens := POLYGON_TOKENS;
      phase := Form;
      txError := None;
      broadcastStarted := false;
      sellToken := POLYGON_TOKENS[1];
      buyToken := POLYGON_TOKENS[3];
      sellAmount := "";
      buyEstimate := None;
      swapQuote := None;
      quoting := None;
      this.hook := hook;
      this.broadcaster := broadcaster;
    }

    /**
     * handleGetQuote up to its first await. Without an amount nothing
     * happens. Otherwise the screen enters quoting; an amount
     * parseTokenAmount throws on ends in the error phase with BigInt's
     * message, and any other waits for the quote (from the API when a key
     * is configured, else the mock).
     */
    method HandleGetQuote(apiKey: Option<string>, bigIntError: string)
      modifies this
      ensures old(sellAmount) == "" ==> Fields() == old(Fields())
      ensures old(sellAmount) != "" && ParseTokenAmount(old(sellAmount), old(sellToken).decimals).None? ==>
        Fields() == old(Fields()).(phase := Error, txError := Some(bigIntError))
      ensures old(sellAmount) != "" && ParseTokenAmount(old(sellAmount), old(sellToken).decimals).Some? ==>
        Fields() == old(Fields()).(phase := Quoting,
          quoting := Some(QuoteRequest(old(sellToken), old(buyToken),
                                       ParseTokenAmount(old(sellAmount), old(sellToken).decimals).value, Truthy(apiKey))))
    {
      if sellAmount == "" {
        return;
      }
      phase := Quoting;
      var parsed := ParseTokenAmount(sellAmount, sellToken.decimals);
      if parsed.None? {
        txError := Some(bigIntError);
        phase := Error;
        return;
      }
      quoting := Some(QuoteRequest(sellToken, buyToken, parsed.value, Truthy(apiKey)));
    }

    /**
     * The rest of handleGetQuote once its await settles: the estimate is the
     * quote's buyAmount in the buy token the handler saw, and the screen
     * returns to the form; a failure ends in the error phase. With no
     * quote awaiting, nothing happens.
     */
    method QuoteSettled(outcome: QuoteOutcome)
      modifies this
      ensures old(quoting).None? ==> Fields() == old(Fields())
      ensures old(quoting).Some? && outcome.Quoted? ==>
        Fields() == old(Fields()).(buyEstimate := Some(FormatTokenAmount(outcome.buyAmount, old(quoting).value.buyToken.decimals)),
                                   swapQuote := Some(outcome.quote), phase := Form, quoting := None)
      ensures old(quoting).Some? && outcome.Mocked? ==>
        Fields() == old(Fields()).(buyEstimate := Some(outcome.estimate), swapQuote := None, phase := Form, quoting := None)
      ensures old(quoting).Some? && outcome.QuoteFailed? ==>
        Fields() == old(Fields()).(txError := Some(ErrorMessage(outcome.thrown, QuoteFailedFallback)), phase := Error, quoting := None)
    {
      if quoting.None? {
        return;
      }
      var request := quoting.value;
      quoting := None;
      match outcome {
        case Quoted(buyAmount, quote) =>
          buyEstimate := Some(FormatTokenAmount(buyAmount, request.buyToken.decimals));
          swapQuote := Some(quote);
          phase := Form;
        case Mocked(estimate) =>
          buyEstimate := Some(estimate);
          swapQuote := None;
          phase := Form;
        case QuoteFailed(thrown) =>
          txError := Some(ErrorMessage(thrown, QuoteFailedFallback));
          phase := Error;
      }
    }

    /**
     * handleSwap. Nothing happens without an amount, an estimate and a
     * wallet id. Otherwise the screen enters proving and requests a swap
     * proof with the current quote.
     */
    method HandleSwap(walletId: Option<string>, railgunAddress: Option<string>)
      requires hook.Valid()
      modifies this, hook
      ensures hook.Valid()
      ensures !(old(sellAmount) != "" && Truthy(old(buyEstimate)) && Truthy(walletId)) ==>
        Fields() == old(Fields()) && hook.Fields() == old(hook.Fields())
      ensures old(sellAmount) != "" && Truthy(old(buyEstimate)) && Truthy(walletId) ==>
        && Fields() == old(Fields()).(phase := Proving, broadcastStarted := false)
        && hook.Fields() == Generated(old(hook.Fields()), SwapProof, SwapParams(walletId.value, old(swapQuote), railgunAddress))
    {
      if sellAmount == "" || !Truthy(buyEstimate) || !Truthy(walletId) {
        return;
      }
      broadcastStarted := false;
      phase := Proving;
      hook.GenerateProof(SwapProof, SwapParams(walletId.value, swapQuote, railgunAddress));
    }

    /** The three effects of one commit, each reading the values the render showed; a result is broadcast as "private". */
    method Commit()
      modifies this, broadcaster
      ensures var r := React(old(Shown()));
        && Fields() == old(Fields()).(phase := r.phase, broadcastStarted := r.broadcastStarted, txError := r.txError)
        && (r.broadcast.None? ==> broadcaster.Fields() == old(broadcaster.Fields()))
        && (r.broadcast.Some? ==> broadcaster.Fields() == StartedAsWritten(old(broadcaster.Fields()), PrivateBroadcast, r.broadcast.value))
    {
      var p, result, error, generating := phase, hook.result, hook.error, hook.isGenerating;
      var hash, failure := broadcaster.txHash, broadcaster.broadcastError;
      if p == Proving && Truthy(result) && !broadcastStarted {
        broadcastStarted := true;
        phase := Submitting;
        broadcaster.BroadcastAsWritten(PrivateBroadcast, result.value);
      }
      if p == Proving && Truthy(error) && !generating {
        txError := error;
        phase := Error;
      }
      if p == Submitting && Truthy(hash) {
        phase := Success;
      }
      if p == Submitting && Truthy(failure) {
        txError := failure;
        phase := Error;
      }
    }

    /** The back arrow of the progress view: cancel the proof and return to the form, inputs and quote kept. */
    method Back()
      requires phase in {Proving, Submitting, Success, Error}
      requires hook.Valid()
      modifies this, hook
      ensures hook.Valid()
      ensures Fields() == old(Fields()).(phase := Form)
      ensures hook.Fields() == Cancelled(old(hook.Fields()))
    {
      hook.Cancel();
      phase := Form;
    }

    /** Retry on the error view: clear the error and return to the form. */
    method Retry()
      requires phase == Error
      modifies this
      ensures Fields() == old(Fields()).(phase := Form, txError := None)
    {
      txError := None;
      phase := Form;
    }

    /** Done on the success or error view, or the form's own back arrow: to the dashboard. */
    method Done(store: AppStore.WalletStore)
      modifies store
      ensures store.state == old(store.state).(screen := AppStore.Dashboard)
    {
      store.SetScreen(AppStore.Dashboard);
    }

    /** The sell select: a listed token becomes the sell token and the quote is dropped. */
    method SelectSellToken(address: string)
      modifies this
      ensures TokenWithAddress(tokens, address).Some? ==>
        Fields() == old(Fields()).(sellToken := TokenWithAddress(tokens, address).value, buyEstimate := None, swapQuote := None)
      ensures TokenWithAddress(tokens, address).None? ==> Fields() == old(Fields())
    {
      var t := TokenWithAddress(tokens, address);
      if t.Some? {
        sellToken := t.value;
        buyEstimate := None;
        swapQuote := None;
      }
    }

    /** The buy select: a listed token becomes the buy token and the quote is dropped. */
    method SelectBuyToken(address: string)
      modifies this
      ensures TokenWithAddress(tokens, address).Some? ==>
        Fields() == old(Fields()).(buyToken := TokenWithAddress(tokens, address).value, buyEstimate := None, swapQuote := None)
      ensures TokenWithAddress(tokens, address).None? ==> Fields() == old(Fields())
    {
      var t := TokenWithAddress(tokens, address);
      if t.Some? {
        buyToken := t.value;
        buyEstimate := None;
        swapQuote := None;
      }
    }

    /** The amount input, given the text after its character filter: the quote is dropped. */
    method SetSellAmount(value: string)
      modifies this
      ensures Fields() == old(Fields()).(sellAmount := value, buyEstimate := None, swapQuote := None)
    {
      sellAmount := value;
      buyEstimate := None;
      swapQuote := None;
    }
  }

  /** The WETH option of a select names WETH. */
  lemma WethListed()
    ensures TokenWithAddress(POLYGON_TOKENS, POLYGON_TOKENS[3].address) == Some(POLYGON_TOKENS[3])
  {
  }

  /**
   * The buy token is not moved when the sell token is set to it: from the
   * opening state, selling WETH leaves WETH as the buy token too, although
   * the buy select no longer offers it.
   */
  method SellTokenCanEqualBuyToken() returns (sell: Token, buy: Token, offered: bool)
    ensures sell == buy && !offered
  {
    var hook := new ProofWorkerHook();
    var broadcaster := new Broadcaster();
    var screen := new SwapScreen(hook, broadcaster);
    WethListed();
    screen.SelectSellToken(POLYGON_TOKENS[3].address);
    sell, buy := screen.sellToken, screen.buyToken;
    BuyOptionsExact(sell);
    offered := buy in BuyOptions(sell);
  }
}
