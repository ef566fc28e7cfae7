/**
 * The task menu the Cypress plugin registers with `on('task', ...)`: each
 * task is the ordered list of awaited driver calls its handler makes, and
 * an envelope that turns the calls' outcomes into the task's reply. The
 * MetaMask/Playwright calls themselves are opaque: a `World` gives the
 * outcome of each call for the session handles the handler passes on.
 */
module SynpressTasks {
  import opened Wrappers

  /** Opaque handles of the Playwright objects the plugin keeps. */
  datatype BrowserContext = BrowserContext(id: nat)
  datatype Page = Page(id: nat)

  /** The arguments of `getPlaywrightMetamask(context, metamaskExtensionPage, metamaskExtensionId)`. */
  datatype MetaMaskSession = MetaMaskSession(
    context: Option<BrowserContext>,
    extensionPage: Option<Page>,
    extensionId: Option<string>)

  /** What a failed call raises. */
  datatype TaskError =
    | DriverError(reason: string)
      /** A JavaScript TypeError, e.g. reading a property of `undefined`. */
    | TypeError(message: string)

  /** The `Network` object passed to MetaMask's add-network flow. */
  datatype NetworkSettings = NetworkSettings(
    name: string, rpcUrl: string, chainId: int, symbol: string, blockExplorerUrl: string)

  /** The selectors the handlers use on the extension page. */
  datatype Locator =
    | AccountButton
    | CurrentNetwork
    | AccountDetailsCloseButton
    | SwitchToNetworkButton
      /** `Selectors.portfolio.singleToken` narrowed with `.nth(index)`. */
    | SingleToken(index: nat)

  /** A method of the MetaMask object `getPlaywrightMetamask` builds. */
  datatype Action =
    | ConnectToDapp(accounts: Option<seq<string>>)
    | AddNewAccount(accountName: string)
    | SwitchAccount(accountName: string)
    | RenameAccount(currentAccountName: string, newAccountName: string)
    | SwitchNetwork(networkName: string, isTestnet: Option<bool>)
    | AddNetwork(network: NetworkSettings)
    | ConfirmTransaction
    | AddNewToken
    | ApproveNewNetwork
    | ApproveSwitchNetwork
    | ProvidePublicEncryptionKey
    | Decrypt
    | ConfirmSignature
    | ConfirmTransactionAndWaitForMining

  /** One awaited call of a handler. */
  datatype DriverCall =
    | MetaMaskCall(action: Action)
      /** `metamaskExtensionPage.locator(l).innerText()`. */
    | ReadText(locator: Locator)
      /** `metamaskExtensionPage.locator(l).click()`. */
    | Click(locator: Locator)
      /** `expect(metamaskExtensionPage.locator(l)).toHaveText(text)`. */
    | ExpectText(locator: Locator, text: string)
      /** `expect(metamaskExtensionPage.locator(l)).toContainText(text)`. */
    | ExpectContainsText(locator: Locator, text: string)
      /** `waitFor(() => metamaskExtensionPage.locator(l).isVisible(), timeoutMs, shouldThrow)`. */
    | WaitForVisible(locator: Locator, timeoutMs: nat, shouldThrow: bool)

  /** A call the handler makes on `metamaskExtensionPage` itself, not through the MetaMask object. */
  predicate OnExtensionPage(c: DriverCall) {
    !c.MetaMaskCall?
  }

  /** How a call settled: resolved (with the text it read, if any) or rejected. */
  datatype Outcome = Done(text: string) | Failed(error: TaskError)

  /** The opaque behaviour of the browser and the wallet. */
  type World = (MetaMaskSession, DriverCall) -> Outcome

  const PageUndefined := TypeError("Cannot read properties of undefined (reading 'locator')")

  /**
   * The outcome of one call. A call on the extension page while no page
   * handle is set dereferences `undefined` and throws; everything else is
   * up to the world.
   */
  function Perform(session: MetaMaskSession, world: World, c: DriverCall): (o: Outcome)
    ensures OnExtensionPage(c) && session.extensionPage.None? ==> o == Failed(PageUndefined)
    ensures !OnExtensionPage(c) || session.extensionPage.Some? ==> o == world(session, c)
  {
    if OnExtensionPage(c) && session.extensionPage.None? then Failed(PageUndefined) else world(session, c)
  }

  /** Every call of a script resolves. */
  predicate AllSucceed(script: seq<DriverCall>, session: MetaMaskSession, world: World) {
    forall i :: 0 <= i < |script| ==> Perform(session, world, script[i]).Done?
  }

  /** The calls a handler actually made, and the error that stopped it, if one did. */
  datatype Execution = Execution(performed: seq<DriverCall>, failure: Option<TaskError>)

  /**
   * Runs a script as `await` statements run: in order, stopping at the
   * first call that rejects.
   */
  function Execute(script: seq<DriverCall>, session: MetaMaskSession, world: World): (x: Execution)
    ensures x.performed <= script
    ensures x.failure.None? <==> AllSucceed(script, session, world)
    ensures x.failure.None? ==> x.performed == script
    ensures x.failure.Some? ==>
      |x.performed| > 0 &&
      Perform(session, world, x.performed[|x.performed| - 1]) == Failed(x.failure.value) &&
      forall i :: 0 <= i < |x.performed| - 1 ==> Perform(session, world, x.performed[i]).Done?
  {
    if script == [] then Execution([], None)
    else
      match Perform(session, world, script[0])
      case Failed(e) => Execution([script[0]], Some(e))
      case Done(_) =>
        var rest := Execute(script[1..], session, world);
        assert forall i :: 1 <= i < |script| ==> script[i] == script[1..][i - 1];
        Execution([script[0]] + rest.performed, rest.failure)
  }

  /** The tasks that read the extension session and drive the wallet. */
  datatype Task =
    | GetAccount
    | GetNetwork
    | ConnectToDapp(accounts: Option<seq<string>>)
    | AddNewAccount(accountName: string)
    | SwitchAccount(accountName: string)
    | RenameAccount(currentAccountName: string, newAccountName: string)
    | SwitchNetwork(networkName: string, isTestnet: Option<bool>)
    | ConnectToAnvil(rpcUrl: string, chainId: int)
    | AddNetwork(network: NetworkSettings)
    | DeployToken
    | AddNewToken
    | ApproveNewNetwork
    | ApproveSwitchNetwork
    | ProvidePublicEncryptionKey
    | Decrypt
    | ConfirmSignature
    | ConfirmTransaction
    | ConfirmTransactionAndWaitForMining

  /** How a task turns a failure into its reply. */
  datatype Envelope =
      /** `.then(() => true).catch(() => false)` or try/catch returning false. */
    | SwallowsFailure
      /** Awaits every call, then `return true`; a rejection propagates. */
    | PropagatesFailure
      /** Returns what the last call read; a rejection propagates. */
    | ReturnsValue

  /** The envelope of each task, as a table. */
  function EnvelopeOf(t: Task): Envelope {
    if t.GetAccount? || t.GetNetwork? then ReturnsValue
    else if t.AddNewAccount? || t.SwitchAccount? || t.RenameAccount? || t.AddNetwork?
         || t.DeployToken? || t.AddNewToken? || t.ApproveNewNetwork? || t.ApproveSwitchNetwork?
    then PropagatesFailure
    else SwallowsFailure
  }

  /** The settings `connectToAnvil` adds the local chain with. */
  function AnvilNetwork(rpcUrl: string, chainId: int): NetworkSettings {
    NetworkSettings("Anvil", rpcUrl, chainId, "ETH", "https://etherscan.io/")
  }

  /** The awaited calls of each handler, in order. */
  function Script(t: Task): (s: seq<DriverCall>)
    ensures |s| >= 1
    ensures EnvelopeOf(t) == ReturnsValue ==> |s| == 1 && s[0].ReadText?
  {
    match t
    case GetAccount => [ReadText(AccountButton)]
    case GetNetwork => [ReadText(CurrentNetwork)]
    case ConnectToDapp(accounts) => [MetaMaskCall(Action.ConnectToDapp(accounts))]
    case AddNewAccount(name) =>
      [MetaMaskCall(Action.AddNewAccount(name)), ExpectText(AccountButton, name)]
    case SwitchAccount(name) =>
      [MetaMaskCall(Action.SwitchAccount(name)), ExpectText(AccountButton, name)]
    case RenameAccount(current, renamed) =>
      [MetaMaskCall(Action.RenameAccount(current, renamed)), Click(AccountDetailsCloseButton),
       ExpectText(AccountButton, renamed)]
    case SwitchNetwork(name, isTestnet) => [MetaMaskCall(Action.SwitchNetwork(name, isTestnet))]
    case ConnectToAnvil(rpcUrl, chainId) =>
      [MetaMaskCall(Action.AddNetwork(AnvilNetwork(rpcUrl, chainId))),
       MetaMaskCall(Action.SwitchNetwork("Anvil", None))]
    case AddNetwork(network) =>
      [MetaMaskCall(Action.AddNetwork(network)), WaitForVisible(SwitchToNetworkButton, 3000, false),
       Click(SwitchToNetworkButton)]
    case DeployToken => [MetaMaskCall(Action.ConfirmTransaction)]
    case AddNewToken => [MetaMaskCall(Action.AddNewToken), ExpectContainsText(SingleToken(1), "TST")]
    case ApproveNewNetwork => [MetaMaskCall(Action.ApproveNewNetwork)]
    case ApproveSwitchNetwork => [MetaMaskCall(Action.ApproveSwitchNetwork)]
    case ProvidePublicEncryptionKey => [MetaMaskCall(Action.ProvidePublicEncryptionKey)]
    case Decrypt => [MetaMaskCall(Action.Decrypt)]
    case ConfirmSignature => [MetaMaskCall(Action.ConfirmSignature)]
    case ConfirmTransaction => [MetaMaskCall(Action.ConfirmTransaction)]
    case ConfirmTransactionAndWaitForMining => [MetaMaskCall(Action.ConfirmTransactionAndWaitForMining)]
  }

  /** What a task answers over the control channel, or the error it raises. */
  datatype TaskReply = BoolReply(b: bool) | TextReply(text: string) | Raised(error: TaskError)

  function SwallowFailure(x: Execution): TaskReply {
    BoolReply(x.failure.None?)
  }

  function TrueOrRaise(x: Execution): TaskReply {
    match x.failure
    case None => BoolReply(true)
    case Some(e) => Raised(e)
  }

  function TextOrRaise(o: Outcome): TaskReply {
    match o
    case Done(text) => TextReply(text)
    case Failed(e) => Raised(e)
  }

  /** The reply of each handler, written handler by handler. */
  function Reply(t: Task, session: MetaMaskSession, world: World): (r: TaskReply)
    ensures EnvelopeOf(t) == SwallowsFailure ==>
      r == BoolReply(AllSucceed(Script(t), session, world))
    ensures EnvelopeOf(t) == PropagatesFailure ==>
      (r == BoolReply(true) <==> AllSucceed(Script(t), session, world)) &&
      (r != BoolReply(true) ==> r.Raised? && Execute(Script(t), session, world).failure == Some(r.error))
    ensures EnvelopeOf(t) == ReturnsValue ==>
      match Perform(session, world, Script(t)[0])
      case Done(text) => r == TextReply(text)
      case Failed(e) => r == Raised(e)
  {
    var x := Execute(Script(t), session, world);
    match t
    case GetAccount => TextOrRaise(Perform(session, world, ReadText(AccountButton)))
    case GetNetwork => TextOrRaise(Perform(session, world, ReadText(CurrentNetwork)))
    case ConnectToDapp(_) => SwallowFailure(x)
    case AddNewAccount(_) => TrueOrRaise(x)
    case SwitchAccount(_) => TrueOrRaise(x)
    case RenameAccount(_, _) => TrueOrRaise(x)
    case SwitchNetwork(_, _) => SwallowFailure(x)
    case ConnectToAnvil(_, _) => SwallowFailure(x)
    case AddNetwork(_) => TrueOrRaise(x)
    case DeployToken => TrueOrRaise(x)
    case AddNewToken => TrueOrRaise(x)
    case ApproveNewNetwork => TrueOrRaise(x)
    case ApproveSwitchNetwork => TrueOrRaise(x)
    case ProvidePublicEncryptionKey => SwallowFailure(x)
    case Decrypt => SwallowFailure(x)
    case ConfirmSignature => SwallowFailure(x)
    case ConfirmTransaction => SwallowFailure(x)
    case ConfirmTransactionAndWaitForMining => SwallowFailure(x)
  }

  /** A swallowing task never raises, whatever the driver does. */
  lemma SwallowingNeverRaises(t: Task, session: MetaMaskSession, world: World)
    requires EnvelopeOf(t) == SwallowsFailure
    ensures Reply(t, session, world).BoolReply?
  {
  }

  /**
   * `connectToAnvil` switches to the Anvil network only after adding it
   * succeeded, and answers true only if both calls succeeded.
   */
  lemma ConnectToAnvilOrder(rpcUrl: string, chainId: int, session: MetaMaskSession, world: World)
    ensures
      var add := MetaMaskCall(Action.AddNetwork(AnvilNetwork(rpcUrl, chainId)));
      var switch := MetaMaskCall(Action.SwitchNetwork("Anvil", None));
      var x := Execute(Script(ConnectToAnvil(rpcUrl, chainId)), session, world);
      (world(session, add).Failed? ==> x.performed == [add]) &&
      (world(session, add).Done? ==> x.performed == [add, switch]) &&
      (Reply(ConnectToAnvil(rpcUrl, chainId), session, world) == BoolReply(true) <==>
         world(session, add).Done? && world(session, switch).Done?)
  {
  }

  /** Without an extension page, every task that reads the page first raises the TypeError. */
  lemma ValueTaskWithoutPage(t: Task, session: MetaMaskSession, world: World)
    requires EnvelopeOf(t) == ReturnsValue && session.extensionPage.None?
    ensures Reply(t, session, world) == Raised(PageUndefined)
  {
  }
}
