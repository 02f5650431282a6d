/**
 * The web app's global state: one flat record that every setter replaces
 * with a copy in which its own fields are overwritten (a zustand store).
 */
module AppStore {
  import opened Wrappers
  import opened Bytes
  import opened JsText

  datatype Screen = Onboarding | Login | Creating | Dashboard | Send | Receive | Shield | Swap | Unshield

  datatype EngineStatus = Idle | Initializing | Ready | Error

  datatype TokenBalance = TokenBalance(symbol: string, name: string, balance: string, usdValue: string, address: string, decimals: int)

  /** The store's fields; null is None. */
  datatype State = State(
    isAuthenticated: bool,
    isInitializing: bool,
    engineStatus: EngineStatus,
    engineError: Option<string>,
    pendingAuthSecret: Option<seq<byte>>,
    pendingMnemonic: Option<string>,
    creationError: Option<string>,
    smartWalletAddress: Option<string>,
    railgunAddress: Option<string>,
    walletId: Option<string>,
    railgunEncryptionKey: Option<string>,
    chain: string,
    publicBalances: seq<TokenBalance>,
    privateBalances: seq<TokenBalance>,
    isScanning: bool,
    screen: Screen,
    proofProgress: Option<int>)

  /** The balance row is for the token at address, ignoring case. */
  predicate IsBalanceOf(b: TokenBalance, address: string) {
    ToLowerAscii(b.address) == ToLowerAscii(address)
  }

  /** balances.find((b) => b.address.toLowerCase() === address.toLowerCase())?.balance */
  function BalanceOf(balances: seq<TokenBalance>, address: string): (r: Option<string>)
    ensures r.None? <==> forall i :: 0 <= i < |balances| ==> !IsBalanceOf(balances[i], address)
    ensures r.Some? ==> exists i :: 0 <= i < |balances| && IsBalanceOf(balances[i], address) && r.value == balances[i].balance
  {
    if balances == [] then None
    else if IsBalanceOf(balances[0], address) then Some(balances[0].balance)
    else
      var r := BalanceOf(balances[1..], address);
      assert forall i :: 1 <= i < |balances| ==> balances[i] == balances[1..][i - 1];
      r
  }

  /** The state the store is created with. */
  function Initial(): State {
    State(false, true, Idle, None, None, None, None, None, None, None, None, "polygon", [], [], false, Onboarding, None)
  }

  /** What setAuthenticated writes: signed in, the wallet's four values, and the dashboard. */
  function Authenticated(s: State, address: string, railgunAddress: string, walletId: string, railgunEncryptionKey: string): State {
    s.(isAuthenticated := true, smartWalletAddress := Some(address), railgunAddress := Some(railgunAddress),
       walletId := Some(walletId), railgunEncryptionKey := Some(railgunEncryptionKey), screen := Dashboard)
  }

  /** What reset writes: everything of the session, but not isInitializing, isScanning or chain. */
  function Reset(s: State): State {
    s.(isAuthenticated := false, smartWalletAddress := None, railgunAddress := None, walletId := None,
       railgunEncryptionKey := None, publicBalances := [], privateBalances := [], screen := Onboarding,
       proofProgress := None, engineStatus := Idle, engineError := None, pendingAuthSecret := None,
       pendingMnemonic := None, creationError := None)
  }

  /** An error status always comes with its message. */
  predicate ErrorRecorded(s: State) {
    s.engineStatus == Error ==> s.engineError.Some?
  }

  /** Reset returns the store to its initial state, keeping only isInitializing, isScanning and chain. */
  lemma ResetIsInitial(s: State)
    ensures Reset(s) == Initial().(isInitializing := s.isInitializing, isScanning := s.isScanning, chain := s.chain)
    ensures Reset(s).isInitializing == s.isInitializing && Reset(s).isScanning == s.isScanning && Reset(s).chain == s.chain
  {
  }

  /** Resetting twice is resetting once, and a fresh store is already reset. */
  lemma ResetIdempotent(s: State)
    ensures Reset(Reset(s)) == Reset(s)
    ensures Reset(Initial()) == Initial()
  {
  }

  /** Reset forgets a sign-in entirely. */
  lemma ResetForgetsAuthentication(s: State, address: string, railgunAddress: string, walletId: string, railgunEncryptionKey: string)
    ensures Reset(Authenticated(s, address, railgunAddress, walletId, railgunEncryptionKey)) == Reset(s)
  {
  }

  /** Signing in leaves no wallet field null and shows the dashboard. */
  lemma AuthenticatedShape(s: State, address: string, railgunAddress: string, walletId: string, railgunEncryptionKey: string)
    ensures var t := Authenticated(s, address, railgunAddress, walletId, railgunEncryptionKey);
      && t.isAuthenticated && t.screen == Dashboard
      && t.smartWalletAddress.Some? && t.railgunAddress.Some? && t.walletId.Some? && t.railgunEncryptionKey.Some?
      && t.(isAuthenticated := s.isAuthenticated, smartWalletAddress := s.smartWalletAddress, railgunAddress := s.railgunAddress,
            walletId := s.walletId, railgunEncryptionKey := s.railgunEncryptionKey, screen := s.screen) == s
  {
  }

  /** The initial state and every reset state record no unexplained engine error. */
  lemma ResetErrorRecorded(s: State)
    ensures ErrorRecorded(Initial()) && ErrorRecorded(Reset(s))
    ensures !Reset(s).isAuthenticated && Reset(s).engineStatus == Idle
  {
  }

  /** useWalletStore: the state and its actions. */
  class WalletStore {
    var state: State

    constructor()
      ensures state == Initial()
    {
      state := Initial();
    }

    method SetAuthenticated(address: string, railgunAddress: string, walletId: string, railgunEncryptionKey: string)
      modifies this
      ensures state == Authenticated(old(state), address, railgunAddress, walletId, railgunEncryptionKey)
    {
      state := state.(isAuthenticated := true, smartWalletAddress := Some(address), railgunAddress := Some(railgunAddress),
                      walletId := Some(walletId), railgunEncryptionKey := Some(railgunEncryptionKey), screen := Dashboard);
    }

    method SetScreen(screen: Screen)
      modifies this
      ensures state == old(state).(screen := screen)
    {
      state := state.(screen := screen);
    }

    method SetPublicBalances(balances: seq<TokenBalance>)
      modifies this
      ensures state == old(state).(publicBalances := balances)
    {
      state := state.(publicBalances := balances);
    }

    method SetPrivateBalances(balances: seq<TokenBalance>)
      modifies this
      ensures state == old(state).(privateBalances := balances)
    {
      state := state.(privateBalances := balances);
    }

    method SetScanning(scanning: bool)
      modifies this
      ensures state == old(state).(isScanning := scanning)
    {
      state := state.(isScanning := scanning);
    }

    method SetProofProgress(progress: Option<int>)
      modifies this
      ensures state == old(state).(proofProgress := progress)
    {
      state := state.(proofProgress := progress);
    }

    method SetInitializing(init: bool)
      modifies this
      ensures state == old(state).(isInitializing := init)
    {
      state := state.(isInitializing := init);
    }

    method SetEngineStatus(status: EngineStatus)
      modifies this
      ensures state == old(state).(engineStatus := status)
    {
      state := state.(engineStatus := status);
    }

    /** setEngineError: the status becomes error and the message is kept, together. */
    method SetEngineError(error: string)
      modifies this
      ensures state == old(state).(engineStatus := Error, engineError := Some(error))
      ensures ErrorRecorded(state)
    {
      state := state.(engineStatus := Error, engineError := Some(error));
    }

    method SetPendingAuthSecret(secret: Option<seq<byte>>)
      modifies this
      ensures state == old(state).(pendingAuthSecret := secret)
    {
      state := state.(pendingAuthSecret := secret);
    }

    method SetPendingMnemonic(mnemonic: Option<string>)
      modifies this
      ensures state == old(state).(pendingMnemonic := mnemonic)
    {
      state := state.(pendingMnemonic := mnemonic);
    }

    method SetCreationError(error: Option<string>)
      modifies this
      ensures state == old(state).(creationError := error)
    {
      state := state.(creationError := error);
    }

    method ResetAll()
      modifies this
      ensures state == Reset(old(state))
    {
      state := state.(isAuthenticated := false, smartWalletAddress := None, railgunAddress := None, walletId := None,
                      railgunEncryptionKey := None, publicBalances := [], privateBalances := [], screen := Onboarding,
                      proofProgress := None, engineStatus := Idle, engineError := None, pendingAuthSecret := None,
                      pendingMnemonic := None, creationError := None);
    }
  }
}
