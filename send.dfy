/**
 * The send screen: a private transfer to another 0zk address. The form
 * holds recipient, token and amount; sending asks the proof hook for a
 * transfer proof, and the shared phase machine takes the screen through
 * proving and submitting to success or error.
 */
module SendFlow {
  import opened Wrappers
  import opened Decimal
  import opened JsText
  import opened Json
  import opened Tokens
  import AppStore
  import opened TxPhase
  import opened BroadcastHook
  import opened ProofWorker
  import opened ProofHook

  /** recipient.startsWith("0zk") && recipient.length > 10, the length in UTF-16 code units. */
  predicate IsValidRecipient(recipient: string) {
    StartsWith(recipient, "0zk") && Utf16Length(recipient) > 10
  }

  /** A valid recipient is "0zk" followed by text of at least eight more UTF-16 code units. */
  lemma ValidRecipientMeans(recipient: string)
    ensures IsValidRecipient(recipient) <==>
      |recipient| >= 3 && recipient[0] == '0' && recipient[1] == 'z' && recipient[2] == 'k' && Utf16Length(recipient) >= 11
  {
    if |recipient| >= 3 && recipient[0] == '0' && recipient[1] == 'z' && recipient[2] == 'k' {
      assert recipient[..3] == "0zk";
    }
  }

  /** Inside the Basic Multilingual Plane, valid means at least 11 characters starting "0zk". */
  lemma ValidBmpRecipient(recipient: string)
    requires forall i :: 0 <= i < |recipient| ==> (recipient[i] as int) < 0x1_0000
    ensures IsValidRecipient(recipient) <==>
      |recipient| >= 11 && recipient[0] == '0' && recipient[1] == 'z' && recipient[2] == 'k'
  {
    Utf16LengthBmp(recipient);
    ValidRecipientMeans(recipient);
  }

  /** The recipient the scenarios below type in. */
  lemma SampleRecipientValid()
    ensures IsValidRecipient("0zk00000000")
  {
    var r := "0zk00000000";
    assert forall i :: 0 <= i < |r| ==> (r[i] as int) < 0x1_0000;
    ValidBmpRecipient(r);
  }

  /** "0zk" and four emoji: seven characters, but eleven code units, so valid. */
  lemma AstralRecipientValid()
    ensures IsValidRecipient("0zk\U{1F600}\U{1F600}\U{1F600}\U{1F600}")
    ensures |"0zk\U{1F600}\U{1F600}\U{1F600}\U{1F600}"| == 7
  {
    var r := "0zk\U{1F600}\U{1F600}\U{1F600}\U{1F600}";
    assert r[..3] == "0zk";
    assert Utf16Length(r[6..]) == 2;
    assert Utf16Length(r[5..]) == 4;
    assert Utf16Length(r[4..]) == 6;
    assert Utf16Length(r[3..]) == 8;
  }

  /** The parameters of the transfer proof; the amount travels as its decimal text. */
  function TransferParams(walletId: string, token: Token, amount: int, recipient: string): map<string, JsValue> {
    map["chain" := VString("polygon"), "walletId" := VString(walletId), "tokenAddress" := VString(token.address),
        "amount" := VString(IntToString(amount)), "recipientZkAddress" := VString(recipient)]
  }

  /** The worker turns a send request into prepareTransfer on Polygon with exactly the parsed amount. */
  lemma SendReachesPrepare(walletId: string, token: Token, amount: int, recipient: string)
    ensures var call := Dispatch(ProofRequest(TransferProof, TransferParams(walletId, token, amount, recipient)));
      call == Ok(PrepareTransfer(VString("polygon"), VString(walletId), VString(token.address), amount, VString(recipient)))
  {
    var req := ProofRequest(TransferProof, TransferParams(walletId, token, amount, recipient));
    AmountText(req, amount);
  }

  datatype SendFields = SendFields(
    phase: Phase, txError: Option<string>, broadcastStarted: bool,
    recipient: string, amount: string, token: Token)

  class SendScreen {
    var phase: Phase
    var txError: Option<string>
    var broadcastStarted: bool
    var recipient: string
    var amount: string
    var token: Token
    /** The list the token selects offer and look up: POLYGON_TOKENS. */
    const tokens: seq<Token>
    const hook: ProofWorkerHook
    const broadcaster: Broadcaster

    function Fields(): SendFields
      reads this
    {
      SendFields(phase, txError, broadcastStarted, recipient, amount, token)
    }

    /** What this render shows its effects. */
    function Shown(): Snapshot
      reads this, hook, broadcaster
    {
      Snapshot(phase, broadcastStarted, txError, hook.result, hook.error, hook.isGenerating,
               broadcaster.txHash, broadcaster.broadcastError)
    }

    /** The screen opens on the form with USDC selected and nothing typed. */
    constructor(hook: ProofWorkerHook, broadcaster: Broadcaster)
      ensures Fields() == SendFields(Form, None, false, "", "", POLYGON_TOKENS[1])
      ensures this.hook == hook && this.broadcaster == broadcaster && tokens == POLYGON_TOKENS
    {
      tokens := POLYGON_TOKENS;
      phase := Form;
      txError := None;
      broadcastStarted := false;
      recipient := "";
      amount := "";
      token := POLYGON_TOKENS[1];
      this.hook := hook;
      this.broadcaster := broadcaster;
    }

    /**
     * handleSend. Nothing happens without an amount, a valid recipient and
     * a wallet id. Otherwise the screen enters proving and requests a
     * transfer proof; when parseTokenAmount throws, the handler stops after
     * entering proving and no proof is requested.
     */
    method HandleSend(walletId: Option<string>)
      requires hook.Valid()
      modifies this, hook
      ensures hook.Valid()
      ensures !(old(amount) != "" && IsValidRecipient(old(recipient)) && Truthy(walletId)) ==>
        Fields() == old(Fields()) && hook.Fields() == old(hook.Fields())
      ensures old(amount) != "" && IsValidRecipient(old(recipient)) && Truthy(walletId) ==>
        && Fields() == old(Fields()).(phase := Proving, broadcastStarted := false)
        && var parsed := ParseTokenAmount(amount, token.decimals);
           && (parsed.None? ==> hook.Fields() == old(hook.Fields()))
           && (parsed.Some? ==>
                 hook.Fields() == Generated(old(hook.Fields()), TransferProof, TransferParams(walletId.value, token, parsed.value, recipient)))
    {
      if amount == "" || !IsValidRecipient(recipient) || !Truthy(walletId) {
        return;
      }
      broadcastStarted := false;
      phase := Proving;
      var parsed := ParseTokenAmount(amount, token.decimals);
      if parsed.None? {
        return;
      }
      hook.GenerateProof(TransferProof, TransferParams(walletId.value, token, parsed.value, recipient));
    }

    /** The three effects of one commit, each reading the values the render showed; a result is broadcast as "private". */
    method Commit()
      modifies this, broadcaster
      ensures var r := React(old(Shown()));
        && Fields() == old(Fields()).(phase := r.phase, broadcastStarted := r.broadcastStarted, txError := r.txError)
        && (r.broadcast.None? ==> broadcaster.Fields() == old(broadcaster.Fields()))
        && (r.broadcast.Some? ==> broadcaster.Fields() == StartedAsWritten(old(broadcaster.Fields()), PrivateBroadcast, r.broadcast.value))
    {
      var p, result, error, generating := phase, hook.result, hook.error, hook.isGenerating;
      var hash, failure := broadcaster.txHash, broadcaster.broadcastError;
      if p == Proving && Truthy(result) && !broadcastStarted {
        broadcastStarted := true;
        phase := Submitting;
        broadcaster.BroadcastAsWritten(PrivateBroadcast, result.value);
      }
      if p == Proving && Truthy(error) && !generating {
        txError := error;
        phase := Error;
      }
      if p == Submitting && Truthy(hash) {
        phase := Success;
      }
      if p == Submitting && Truthy(failure) {
        txError := failure;
        phase := Error;
      }
    }

    /** The back arrow of the progress view: cancel the proof and return to the form, inputs kept. */
    method Back()
      requires phase != Form
      requires hook.Valid()
      modifies this, hook
      ensures hook.Valid()
      ensures Fields() == old(Fields()).(phase := Form)
      ensures hook.Fields() == Cancelled(old(hook.Fields()))
    {
      hook.Cancel();
      phase := Form;
    }

    /** Retry on the error view: clear the error and return to the form, inputs kept. */
    method Retry()
      requires phase == Error
      modifies this
      ensures Fields() == old(Fields()).(phase := Form, txError := None)
    {
      txError := None;
      phase := Form;
    }

    /** Done on the success or error view, or the form's own back arrow: to the dashboard. */
    method Done(store: AppStore.WalletStore)
      modifies store
      ensures store.state == old(store.state).(screen := AppStore.Dashboard)
    {
      store.SetScreen(AppStore.Dashboard);
    }

    method SetRecipient(value: string)
      modifies this
      ensures Fields() == old(Fields()).(recipient := value)
    {
      recipient := value;
    }

    /** The amount input, given the text after its character filter. */
    method SetAmount(value: string)
      modifies this
      ensures Fields() == old(Fields()).(amount := value)
    {
      amount := value;
    }

    /** The token select: an address not in the list leaves the selection as it is. */
    method SelectToken(address: string)
      modifies this
      ensures TokenWithAddress(tokens, address).Some? ==> Fields() == old(Fields()).(token := TokenWithAddress(tokens, address).value)
      ensures TokenWithAddress(tokens, address).None? ==> Fields() == old(Fields())
    {
      var t := TokenWithAddress(tokens, address);
      if t.Some? {
        token := t.value;
      }
    }

    /** MAX, shown only while the private balances hold the selected token: the amount becomes that balance. */
    method UseMax(privateBalances: seq<AppStore.TokenBalance>)
      requires Truthy(AppStore.BalanceOf(privateBalances, token.address))
      modifies this
      ensures Fields() == old(Fields()).(amount := AppStore.BalanceOf(privateBalances, old(token).address).value)
    {
      amount := AppStore.BalanceOf(privateBalances, token.address).value;
    }
  }

  /** From the form: send, the proof of worker w arrives as tx, and the next commit starts its broadcast. */
  method SendThroughProof(s: SendScreen, w: nat, tx: string)
    requires s.phase == Form && s.amount != "" && IsValidRecipient(s.recipient)
    requires ParseTokenAmount(s.amount, s.token.decimals).Some?
    requires s.hook.Valid() && s.hook.nextWorker == w && tx != ""
    modifies s, s.hook, s.broadcaster
    ensures s.hook.Valid() && s.hook.nextWorker == w + 1
    ensures s.phase == Submitting && s.broadcastStarted
    ensures s.amount == old(s.amount) && s.recipient == old(s.recipient) && s.token == old(s.token)
    ensures s.broadcaster.Fields() == StartedAsWritten(old(s.broadcaster.Fields()), PrivateBroadcast, tx)
  {
    s.HandleSend(Some("wallet"));
    s.hook.OnMessage(w, ProofResult(tx));
    s.Commit();
  }

  /** A new send screen with a valid recipient and an amount typed. */
  method ReadyToSend() returns (s: SendScreen)
    ensures fresh(s) && fresh(s.hook) && fresh(s.broadcaster)
    ensures s.phase == Form && IsValidRecipient(s.recipient) && s.amount != ""
    ensures ParseTokenAmount(s.amount, s.token.decimals).Some?
    ensures s.hook.Valid() && s.hook.nextWorker == 0
    ensures s.broadcaster.pending == 0
  {
    SampleRecipientValid();
    var hook := new ProofWorkerHook();
    var b := new Broadcaster();
    s := new SendScreen(hook, b);
    s.SetRecipient("0zk00000000");
    s.SetAmount("1");
    ParseTokenAmountWhole("1", s.token.decimals);
  }

  /** A new send screen whose first send succeeded with hash first. */
  method FirstSendSucceeds(first: string, tx: string) returns (s: SendScreen)
    requires first != "" && tx != ""
    ensures fresh(s) && fresh(s.hook) && fresh(s.broadcaster)
    ensures s.phase == Success && IsValidRecipient(s.recipient) && s.amount != ""
    ensures ParseTokenAmount(s.amount, s.token.decimals).Some?
    ensures s.hook.Valid() && s.hook.nextWorker == 1
    ensures s.broadcaster.txHash == Some(first) && s.broadcaster.pending == 0
  {
    s := ReadyToSend();
    SendThroughProof(s, 0, tx);
    s.broadcaster.Settle(Ok(first));
    s.Commit();
  }

  /**
   * The stale hash on the send screen itself: after a first send succeeded
   * with hash first, Back and a second send whose proof arrives as tx. The
   * commit after its broadcast started shows success with the first send's
   * hash while the second call is still awaiting.
   */
  method SecondSendShowsStaleHash(first: string, tx1: string, tx2: string)
    returns (phase: Phase, shown: Option<string>, awaiting: nat)
    requires first != "" && tx1 != "" && tx2 != ""
    ensures phase == Success && shown == Some(first) && awaiting == 1
  {
    var s := FirstSendSucceeds(first, tx1);
    s.Back();
    SendThroughProof(s, 1, tx2);
    s.Commit();
    phase, shown, awaiting := s.phase, s.broadcaster.txHash, s.broadcaster.pending;
  }
}
