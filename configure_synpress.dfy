/**
 * The Cypress plugin's own decisions: which configured browsers it keeps,
 * what it does to the launch arguments, the once-only wallet import before
 * the first spec, and the Anvil tasks that replace the node pool. The
 * module-level variables the hooks share are the fields of `Plugin`.
 */
module ConfigureSynpress {
  import opened Wrappers
  import opened Decimal
  import opened SynpressTasks

  // ---------------------------------------------------------------------
  // Browser filter and the returned configuration
  // ---------------------------------------------------------------------

  datatype Browser = Browser(name: string, family: string, channel: string)

  /** The Cypress configuration: the browser list and every other setting. */
  datatype PluginConfig = PluginConfig(browsers: seq<Browser>, settings: map<string, string>)

  /** The error `configureSynpress` throws, with its message. */
  datatype ConfigError = NoChromeBrowser(message: string)

  const NoChromeMessage := "No Chrome browser found in the configuration"

  predicate IsChrome(b: Browser) {
    b.name == "chrome"
  }

  /** r is s with some elements left out, the rest in their original order. */
  predicate IsSubsequence(r: seq<Browser>, s: seq<Browser>)
    decreases |s|
  {
    r == [] || (s != [] && ((r[0] == s[0] && IsSubsequence(r[1..], s[1..])) || IsSubsequence(r, s[1..])))
  }

  /**
   * r is exactly the chrome-named browsers of bs, in order: only chrome
   * browsers, in bs's order, each as often as in bs.
   */
  ghost predicate IsChromeSelection(r: seq<Browser>, bs: seq<Browser>) {
    (forall i :: 0 <= i < |r| ==> IsChrome(r[i])) &&
    IsSubsequence(r, bs) &&
    (forall b :: IsChrome(b) ==> multiset(r)[b] == multiset(bs)[b])
  }

  /** `config.browsers.filter((b) => b.name === 'chrome')`. */
  function ChromeBrowsers(bs: seq<Browser>): (r: seq<Browser>)
    ensures IsChromeSelection(r, bs)
  {
    if bs == [] then []
    else
      assert bs == [bs[0]] + bs[1..];
      if IsChrome(bs[0]) then
        var rest := ChromeBrowsers(bs[1..]);
        assert ([bs[0]] + rest)[1..] == rest;
        [bs[0]] + rest
      else ChromeBrowsers(bs[1..])
  }

  lemma {:induction false} SubsequenceMultiset(r: seq<Browser>, s: seq<Browser>)
    ensures IsSubsequence(r, s) ==> multiset(r) <= multiset(s)
    decreases |s|
  {
    if r != [] && s != [] {
      assert s == [s[0]] + s[1..];
      assert r == [r[0]] + r[1..];
      SubsequenceMultiset(r[1..], s[1..]);
      SubsequenceMultiset(r, s[1..]);
    }
  }

  /** The chrome selection of a list is unique: the filter is the only one. */
  lemma {:induction false} ChromeSelectionUnique(bs: seq<Browser>, r: seq<Browser>)
    requires IsChromeSelection(r, bs)
    ensures r == ChromeBrowsers(bs)
    decreases |bs|
  {
    if bs != [] {
      var b := bs[0];
      assert bs == [b] + bs[1..];
      SubsequenceMultiset(r, bs[1..]);
      if IsChrome(b) {
        assert multiset(r)[b] == multiset(bs[1..])[b] + 1;
        assert r != [] && r[0] == b && IsSubsequence(r[1..], bs[1..]);
        assert r == [b] + r[1..];
        assert forall i :: 0 <= i < |r[1..]| ==> r[1..][i] == r[i + 1];
        ChromeSelectionUnique(bs[1..], r[1..]);
      } else {
        assert r != [] ==> r[0] != b;
        assert forall c :: IsChrome(c) ==> multiset(bs)[c] == multiset(bs[1..])[c];
        ChromeSelectionUnique(bs[1..], r);
      }
    }
  }

  /** A list has no chrome browser exactly when its chrome selection is empty. */
  lemma NoChromeIffEmptySelection(bs: seq<Browser>)
    ensures ChromeBrowsers(bs) == [] <==> forall i :: 0 <= i < |bs| ==> !IsChrome(bs[i])
  {
  }

  /**
   * What `configureSynpress` returns: `{...config, browsers}` with the
   * chrome browsers, or the error it throws when there are none (the hooks
   * are then never registered).
   */
  function Configure(config: PluginConfig): (r: Result<PluginConfig, ConfigError>)
    ensures r.Err? <==> forall i :: 0 <= i < |config.browsers| ==> !IsChrome(config.browsers[i])
    ensures r.Err? ==> r.error == NoChromeBrowser(NoChromeMessage)
    ensures r.Ok? ==> r.value.settings == config.settings && IsChromeSelection(r.value.browsers, config.browsers)
  {
    var browsers := ChromeBrowsers(config.browsers);
    NoChromeIffEmptySelection(config.browsers);
    if |browsers| == 0 then Err(NoChromeBrowser(NoChromeMessage)) else Ok(config.(browsers := browsers))
  }

  // ---------------------------------------------------------------------
  // before:browser:launch
  // ---------------------------------------------------------------------

  /**
   * The launch options Cypress hands to the hook. In the legacy form the
   * options are the argument array itself and have no `extensions` list.
   */
  class LaunchOptions {
    const isArray: bool
    var args: seq<string>
    var extensions: seq<string>

    constructor (isArray: bool, args: seq<string>, extensions: seq<string>)
      ensures this.isArray == isArray && this.args == args && this.extensions == extensions
    {
      this.isArray, this.args, this.extensions := isArray, args, extensions;
    }
  }

  /** The argument lists of launch options, as values. */
  datatype LaunchLists = LaunchLists(args: seq<string>, extensions: seq<string>)

  /** What `initMetaMask()` resolves with. */
  datatype MetaMaskLaunch = MetaMaskLaunch(extensions: seq<string>, browserArgs: seq<string>)

  datatype LaunchError =
    | InitFailed(error: TaskError)
      /** `launchOptions.extensions.push` on the array form: `extensions` is undefined. */
    | ExtensionsUndefined

  /** `xs` followed by `ys`, with `xs` left as it was. */
  predicate Extends(r: seq<string>, xs: seq<string>, ys: seq<string>) {
    |r| == |xs| + |ys| && r[..|xs|] == xs && r[|xs|..] == ys
  }

  /**
   * The lists after the hook. Only a chromium browser gets MetaMask's
   * extensions and arguments, appended after the ones already there; a
   * failure leaves both lists as they were.
   */
  function LaunchStep(isArray: bool, current: LaunchLists, family: string, init: Result<MetaMaskLaunch, TaskError>)
    : (r: Result<LaunchLists, LaunchError>)
    ensures family != "chromium" ==> r == Ok(current)
    ensures family == "chromium" && init.Err? ==> r == Err(InitFailed(init.error))
    ensures family == "chromium" && init.Ok? && isArray ==> r == Err(ExtensionsUndefined)
    ensures family == "chromium" && init.Ok? && !isArray ==>
      r.Ok? &&
      Extends(r.value.args, current.args, init.value.browserArgs) &&
      Extends(r.value.extensions, current.extensions, init.value.extensions)
  {
    if family != "chromium" then Ok(current)
    else match init
      case Err(e) => Err(InitFailed(e))
      case Ok(mm) =>
        if isArray then Err(ExtensionsUndefined)
        else Ok(LaunchLists(current.args + mm.browserArgs, current.extensions + mm.extensions))
  }

  // ---------------------------------------------------------------------
  // before:spec
  // ---------------------------------------------------------------------

  /** What `importMetaMaskWallet(rdpPort)` resolves with. */
  datatype ImportedWallet = ImportedWallet(
    context: Option<BrowserContext>,
    metamaskExtensionId: Option<string>,
    extensionPage: Option<Page>,
    cypressPage: Option<Page>)

  /** The session variables `metamaskInitialized`, `context`, `metamaskExtensionId`, `metamaskExtensionPage`. */
  datatype SessionState = SessionState(
    initialized: bool,
    context: Option<BrowserContext>,
    extensionId: Option<string>,
    extensionPage: Option<Page>)

  const InitialSession := SessionState(false, None, None, None)

  /** `_extensionPage && _metamaskExtensionId`: a page, and an id that is not the empty string. */
  predicate Adoptable(w: ImportedWallet) {
    w.extensionPage.Some? && w.metamaskExtensionId.Some? && w.metamaskExtensionId.value != ""
  }

  /**
   * The session after one `before:spec`. Once initialised nothing changes;
   * otherwise a failed import propagates and leaves the session as it was,
   * and a completed one marks the session initialised, adopting its handles
   * only when they are usable.
   */
  function BeforeSpecStep(st: SessionState, imported: Result<ImportedWallet, TaskError>)
    : (r: Result<SessionState, TaskError>)
    ensures st.initialized ==> r == Ok(st)
    ensures !st.initialized && imported.Err? ==> r == Err(imported.error)
    ensures !st.initialized && imported.Ok? ==> r.Ok? && r.value.initialized
    ensures !st.initialized && imported.Ok? && Adoptable(imported.value) ==>
      r.value.context == imported.value.context &&
      r.value.extensionId == imported.value.metamaskExtensionId &&
      r.value.extensionPage == imported.value.extensionPage
    ensures !st.initialized && imported.Ok? && !Adoptable(imported.value) ==>
      r.value == st.(initialized := true)
  {
    if st.initialized then Ok(st)
    else match imported
      case Err(e) => Err(e)
      case Ok(w) =>
        if Adoptable(w) then
          Ok(SessionState(true, w.context, w.metamaskExtensionId, w.extensionPage))
        else
          Ok(st.(initialized := true))
  }

  /** The session after a series of `before:spec` calls with the given import outcomes. */
  function RunSpecs(st: SessionState, imports: seq<Result<ImportedWallet, TaskError>>): SessionState
    decreases |imports|
  {
    if imports == [] then st
    else
      var next := match BeforeSpecStep(st, imports[0]) case Ok(s) => s case Err(_) => st;
      RunSpecs(next, imports[1..])
  }

  /** Once the import has completed, later `before:spec` calls change nothing. */
  lemma {:induction false} InitializedIsFinal(st: SessionState, imports: seq<Result<ImportedWallet, TaskError>>)
    requires st.initialized
    ensures RunSpecs(st, imports) == st
    decreases |imports|
  {
    if imports != [] {
      InitializedIsFinal(st, imports[1..]);
    }
  }

  /**
   * From an uninitialised session, the state after a series of calls is
   * the one the first completed import produced; failed imports before it
   * leave no trace, and with no completed import the session stays
   * uninitialised and unchanged.
   */
  lemma {:induction false} FirstCompletedImportDecides(st: SessionState, imports: seq<Result<ImportedWallet, TaskError>>)
    requires !st.initialized
    ensures (forall i :: 0 <= i < |imports| ==> imports[i].Err?) ==> RunSpecs(st, imports) == st
    ensures forall i :: 0 <= i < |imports| && imports[i].Ok? && (forall j :: 0 <= j < i ==> imports[j].Err?) ==>
      RunSpecs(st, imports) == BeforeSpecStep(st, imports[i]).value
    decreases |imports|
  {
    if imports != [] {
      FirstCompletedImportDecides(st, imports[1..]);
      assert forall i :: 1 <= i < |imports| ==> imports[1..][i - 1] == imports[i];
      match imports[0]
      case Ok(_) =>
        var next := BeforeSpecStep(st, imports[0]).value;
        InitializedIsFinal(next, imports[1..]);
      case Err(_) =>
    }
  }

  // ---------------------------------------------------------------------
  // Anvil node descriptor
  // ---------------------------------------------------------------------

  /** A started Anvil instance, as `pool.start` resolves with it. */
  datatype AnvilInstance = AnvilInstance(host: string, port: nat)

  /** The part of `CreateAnvilOptions` the plugin reads. */
  datatype AnvilOptions = AnvilOptions(chainId: Option<int>)

  /** The `{ anvil, rpcUrl, chainId }` that `createAnvilNode` returns. */
  datatype AnvilNode = AnvilNode(anvil: AnvilInstance, rpcUrl: string, chainId: int)

  const DefaultAnvilChainId := 31337

  /**
   * The descriptor of a started node: `options?.chainId ?? 31337`, and the
   * URL `http://host:port`, whose port part is the shortest numeral that
   * reads back as the port (no leading zero).
   */
  function AnvilDescriptor(anvil: AnvilInstance, options: Option<AnvilOptions>): (r: AnvilNode)
    ensures r.anvil == anvil
    ensures options.Some? && options.value.chainId.Some? ==> r.chainId == options.value.chainId.value
    ensures options.None? || options.value.chainId.None? ==> r.chainId == DefaultAnvilChainId
    ensures
      var h := |anvil.host|;
      |r.rpcUrl| > 8 + h &&
      r.rpcUrl[..7] == "http://" && r.rpcUrl[7..7 + h] == anvil.host && r.rpcUrl[7 + h] == ':' &&
      AllDigits(r.rpcUrl[8 + h..]) && DecimalValue(r.rpcUrl[8 + h..]) == anvil.port
    ensures r.rpcUrl[8 + |anvil.host|] == '0' ==> |r.rpcUrl| == 9 + |anvil.host|
  {
    var rpcUrl := "http://" + anvil.host + ":" + NatToDecimal(anvil.port);
    DecimalRoundTrip(anvil.port);
    RpcUrlParts(anvil.host, NatToDecimal(anvil.port));
    var chainId := match options
      case Some(AnvilOptions(Some(c))) => c
      case _ => DefaultAnvilChainId;
    AnvilNode(anvil, rpcUrl, chainId)
  }

  /** Where the host and the port sit in `http://host:port`. */
  lemma RpcUrlParts(host: string, port: string)
    ensures
      var u := "http://" + host + ":" + port;
      var h := |host|;
      |u| == 8 + h + |port| && u[..7] == "http://" && u[7..7 + h] == host && u[7 + h] == ':' && u[8 + h..] == port
  {
    var u := "http://" + host + ":" + port;
    assert u == ("http://" + host + ":") + port;
  }

  /** The Anvil instance pool `createPool()` makes; only its identity matters here. */
  class AnvilPool {
    var instances: seq<nat>

    constructor ()
      ensures instances == []
    {
      instances := [];
    }
  }

  const PoolUndefined := TypeError("Cannot read properties of undefined (reading 'empty')")

  // ---------------------------------------------------------------------
  // The plugin's module-level state and its hooks
  // ---------------------------------------------------------------------

  class Plugin {
    var metamaskInitialized: bool
    var rdpPort: Option<int>
    var context: Option<BrowserContext>
    var metamaskExtensionId: Option<string>
    var metamaskExtensionPage: Option<Page>
    var pool: Option<AnvilPool>

    /** The variables as the module is first loaded: all unset. */
    constructor ()
      ensures Session() == InitialSession && rdpPort == None && pool == None
    {
      metamaskInitialized := false;
      rdpPort, context, metamaskExtensionId, metamaskExtensionPage, pool := None, None, None, None, None;
    }

    function Session(): SessionState
      reads this
    {
      SessionState(metamaskInitialized, context, metamaskExtensionId, metamaskExtensionPage)
    }

    /** The handles every task passes to `getPlaywrightMetamask`. */
    function Handles(): MetaMaskSession
      reads this
    {
      MetaMaskSession(context, metamaskExtensionPage, metamaskExtensionId)
    }

    /**
     * `before:browser:launch`: records the debugging port `ensureRdpPort`
     * picks for the argument list, then, for chromium, appends MetaMask's
     * extensions and arguments in place and returns the same options.
     */
    method BeforeBrowserLaunch(
      browser: Browser,
      launchOptions: LaunchOptions,
      ensureRdpPort: seq<string> -> int,
      initMetaMask: Result<MetaMaskLaunch, TaskError>)
      returns (r: Result<LaunchOptions, LaunchError>)
      modifies this, launchOptions
      ensures rdpPort == Some(ensureRdpPort(old(launchOptions.args)))
      ensures Session() == old(Session()) && pool == old(pool)
      ensures
        match LaunchStep(launchOptions.isArray, old(LaunchLists(launchOptions.args, launchOptions.extensions)),
                         browser.family, initMetaMask)
        case Ok(lists) =>
          r == Ok(launchOptions) && launchOptions.args == lists.args && launchOptions.extensions == lists.extensions
        case Err(e) =>
          r == Err(e) && launchOptions.args == old(launchOptions.args) &&
          launchOptions.extensions == old(launchOptions.extensions)
    {
      rdpPort := Some(ensureRdpPort(launchOptions.args));
      if browser.family == "chromium" {
        match initMetaMask {
          case Err(e) =>
            return Err(InitFailed(e));
          case Ok(mm) =>
            if launchOptions.isArray {
              return Err(ExtensionsUndefined);
            }
            launchOptions.extensions := launchOptions.extensions + mm.extensions;
            launchOptions.args := launchOptions.args + mm.browserArgs;
        }
      }
      r := Ok(launchOptions);
    }

    /**
     * `before:spec`: imports the wallet through the port recorded at launch
     * while the session is not initialised; `importWallet` gives the
     * import's outcome for that port.
     */
    method BeforeSpec(importWallet: Option<int> -> Result<ImportedWallet, TaskError>)
      returns (r: Result<(), TaskError>)
      modifies this
      ensures rdpPort == old(rdpPort) && pool == old(pool)
      ensures
        match BeforeSpecStep(old(Session()), importWallet(old(rdpPort)))
        case Ok(s) => r == Ok(()) && Session() == s
        case Err(e) => r == Err(e) && Session() == old(Session())
    {
      r := Ok(());
      if !metamaskInitialized {
        match importWallet(rdpPort) {
          case Err(e) =>
            return Err(e);
          case Ok(w) =>
            if Adoptable(w) {
              context := w.context;
              metamaskExtensionId := w.metamaskExtensionId;
              metamaskExtensionPage := w.extensionPage;
            }
            metamaskInitialized := true;
        }
      }
    }

    /** A task of the menu, run against the session handles as they stand. */
    method RunTask(t: Task, world: World) returns (r: TaskReply)
      ensures r == Reply(t, Handles(), world)
      ensures EnvelopeOf(t) == SwallowsFailure ==> r == BoolReply(AllSucceed(Script(t), Handles(), world))
    {
      var handles := MetaMaskSession(context, metamaskExtensionPage, metamaskExtensionId);
      r := Reply(t, handles, world);
    }

    /**
     * `createAnvilNode(options)`: replaces the pool with a fresh one, starts
     * node number `instances().length` of it (0, the pool being new) and
     * describes it; `start` gives the outcome of `pool.start`.
     */
    method CreateAnvilNode(options: Option<AnvilOptions>, start: (nat, Option<AnvilOptions>) -> Result<AnvilInstance, TaskError>)
      returns (r: Result<AnvilNode, TaskError>)
      modifies this
      ensures pool.Some? && fresh(pool.value) && pool.value.instances == []
      ensures Session() == old(Session()) && rdpPort == old(rdpPort)
      ensures
        match start(0, options)
        case Ok(anvil) => r == Ok(AnvilDescriptor(anvil, options))
        case Err(e) => r == Err(e)
    {
      var p := new AnvilPool();
      pool := Some(p);
      var nodeId := |p.instances|;
      match start(nodeId, options) {
        case Ok(anvil) => r := Ok(AnvilDescriptor(anvil, options));
        case Err(e) => r := Err(e);
      }
    }

    /**
     * `emptyAnvilNode()`: true once `pool.empty()` resolves (its outcome is
     * `empty`); raises when no pool was ever created, or when emptying fails.
     */
    method EmptyAnvilNode(empty: Result<(), TaskError>) returns (r: TaskReply)
      ensures pool.None? ==> r == Raised(PoolUndefined)
      ensures pool.Some? && empty.Ok? ==> r == BoolReply(true)
      ensures pool.Some? && empty.Err? ==> r == Raised(empty.error)
    {
      if pool.None? {
        return Raised(PoolUndefined);
      }
      match empty {
        case Ok(_) => r := BoolReply(true);
        case Err(e) => r := Raised(e);
      }
    }
  }
}
