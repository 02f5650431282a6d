/**
 * The shield screen: moves a public token balance into the private pool,
 * to the wallet's own 0zk address. Shielding asks the proof hook for a
 * shield proof, and the shared phase machine takes the screen through
 * proving and submitting to success or error; the proved transaction is
 * broadcast as a shield.
 */
module ShieldFlow {
  import opened Wrappers
  import opened Decimal
  import opened Json
  import opened Tokens
  import AppStore
  import opened TxPhase
  import opened BroadcastHook
  import opened ProofWorker
  import opened ProofHook

  /** The parameters of the shield proof: the amount as decimal text, the wallet's own address as recipient. */
  function ShieldParams(token: Token, amount: int, railgunAddress: string): map<string, JsValue> {
    map["chain" := VString("polygon"), "tokenAddress" := VString(token.address),
        "amount" := VString(IntToString(amount)), "recipientZkAddress" := VString(railgunAddress)]
  }

  /** The worker turns a shield request into prepareShield to the wallet's own address with exactly the parsed amount. */
  lemma ShieldReachesPrepare(token: Token, amount: int, railgunAddress: string)
    ensures var call := Dispatch(ProofRequest(ShieldProof, ShieldParams(token, amount, railgunAddress)));
      call == Ok(PrepareShield(VString("polygon"), VString(token.address), amount, VString(railgunAddress)))
  {
    var req := ProofRequest(ShieldProof, ShieldParams(token, amount, railgunAddress));
    AmountText(req, amount);
  }

  datatype ShieldFields = ShieldFields(phase: Phase, txError: Option<string>, broadcastStarted: bool, amount: string, token: Token)

  class ShieldScreen {
    var phase: Phase
    var txError: Option<string>
    var broadcastStarted: bool
    var amount: string
    var token: Token
    /** The list the token selects offer and look up: POLYGON_TOKENS. */
    const tokens: seq<Token>
    const hook: ProofWorkerHook
    const broadcaster: Broadcaster

    function Fields(): ShieldFields
      reads this
    {
      ShieldFields(phase, txError, broadcastStarted, amount, token)
    }

    /** What this render shows its effects. */
    function Shown(): Snapshot
      reads this, hook, broadcaster
    {
      Snapshot(phase, broadcastStarted, txError, hook.result, hook.error, hook.isGenerating,
               broadcaster.txHash, broadcaster.broadcastError)
    }

    /** The screen opens on the form with USDC selected and nothing typed. */
    constructor(hook: ProofWorkerHook, broadcaster: Broadcaster)
      ensures Fields() == ShieldFields(Form, None, false, "", POLYGON_TOKENS[1])
      ensures this.hook == hook && this.broadcaster == broadcaster && tokens == POLYGON_TOKENS
    {
      tokens := POLYGON_TOKENS;
      phase := Form;
      txError := None;
      broadcastStarted := false;
      amount := "";
      token := POLYGON_TOKENS[1];
      this.hook := hook;
      this.broadcaster := broadcaster;
    }

    /**
     * handleShield. Nothing happens without an amount and the wallet's
     * railgunAddress. Otherwise the screen enters proving and requests a
     * shield proof to that address; when parseTokenAmount throws, the
     * handler stops after entering proving and no proof is requested.
     */
    method HandleShield(railgunAddress: Option<string>)
      requires hook.Valid()
      modifies this, hook
      ensures hook.Valid()
      ensures !(old(amount) != "" && Truthy(railgunAddress)) ==>
        Fields() == old(Fields()) && hook.Fields() == old(hook.Fields())
      ensures old(amount) != "" && Truthy(railgunAddress) ==>
        && Fields() == old(Fields()).(phase := Proving, broadcastStarted := false)
        && var parsed := ParseTokenAmount(amount, token.decimals);
           && (parsed.None? ==> hook.Fields() == old(hook.Fields()))
           && (parsed.Some? ==>
                 hook.Fields() == Generated(old(hook.Fields()), ShieldProof, ShieldParams(token, parsed.value, railgunAddress.value)))
    {
      if amount == "" || !Truthy(railgunAddress) {
        return;
      }
      broadcastStarted := false;
      phase := Proving;
      var parsed := ParseTokenAmount(amount, token.decimals);
      if parsed.None? {
        return;
      }
      hook.GenerateProof(ShieldProof, ShieldParams(token, parsed.value, railgunAddress.value));
    }

    /** The three effects of one commit, each reading the values the render showed; a result is broadcast as "shield". */
    method Commit()
      modifies this, broadcaster
      ensures var r := React(old(Shown()));
        && Fields() == old(Fields()).(phase := r.phase, broadcastStarted := r.broadcastStarted, txError := r.txError)
        && (r.broadcast.None? ==> broadcaster.Fields() == old(broadcaster.Fields()))
        && (r.broadcast.Some? ==> broadcaster.Fields() == StartedAsWritten(old(broadcaster.Fields()), ShieldBroadcast, r.broadcast.value))
    {
      var p, result, error, generating := phase, hook.result, hook.error, hook.isGenerating;
      var hash, failure := broadcaster.txHash, broadcaster.broadcastError;
      if p == Proving && Truthy(result) && !broadcastStarted {
        broadcastStarted := true;
        phase := Submitting;
        broadcaster.BroadcastAsWritten(ShieldBroadcast, result.value);
      }
      if p == Proving && Truthy(error) && !generating {
        txError := error;
        phase := Error;
      }
      if p == Submitting && Truthy(hash) {
        phase := Success;
      }
      if p == Submitting && Truthy(failure) {
        txError := failure;
        phase := Error;
      }
    }

    /** The back arrow of the progress view: cancel the proof and return to the form, inputs kept. */
    method Back()
      requires phase != Form
      requires hook.Valid()
      modifies this, hook
      ensures hook.Valid()
      ensures Fields() == old(Fields()).(phase := Form)
      ensures hook.Fields() == Cancelled(old(hook.Fields()))
    {
      hook.Cancel();
      phase := Form;
    }

    /** Retry on the error view: clear the error and return to the form, inputs kept. */
    method Retry()
      requires phase == Error
      modifies this
      ensures Fields() == old(Fields()).(phase := Form, txError := None)
    {
      txError := None;
      phase := Form;
    }

    /** Done on the success or error view, or the form's own back arrow: to the dashboard. */
    method Done(store: AppStore.WalletStore)
      modifies store
      ensures store.state == old(store.state).(screen := AppStore.Dashboard)
    {
      store.SetScreen(AppStore.Dashboard);
    }

    /** The amount input, given the text after its character filter. */
    method SetAmount(value: string)
      modifies this
      ensures Fields() == old(Fields()).(amount := value)
    {
      amount := value;
    }

    /** The token select: an address not in the list leaves the selection as it is. */
    method SelectToken(address: string)
      modifies this
      ensures TokenWithAddress(tokens, address).Some? ==> Fields() == old(Fields()).(token := TokenWithAddress(tokens, address).value)
      ensures TokenWithAddress(tokens, address).None? ==> Fields() == old(Fields())
    {
      var t := TokenWithAddress(tokens, address);
      if t.Some? {
        token := t.value;
      }
    }

    /** MAX, shown only while the public balances hold the selected token: the amount becomes that balance. */
    method UseMax(publicBalances: seq<AppStore.TokenBalance>)
      requires Truthy(AppStore.BalanceOf(publicBalances, token.address))
      modifies this
      ensures Fields() == old(Fields()).(amount := AppStore.BalanceOf(publicBalances, old(token).address).value)
    {
      amount := AppStore.BalanceOf(publicBalances, token.address).value;
    }
  }
}
