# Synpress control logic in Dafny

This project models the two pieces of decision logic in Synpress, a tool that
lets Cypress and Playwright end-to-end tests drive the MetaMask browser
wallet:

- **Network selection and release lookup** (`helpers.js`). `setNetwork`
  updates three module-level variables (`networkName`, `networkId`,
  `isTestnet`). It uses a closed table of known network names and a
  custom-object case; `getNetwork` reads the variables back.
  `getMetamaskReleases` derives the archive name, download URL and tag for a
  MetaMask version. For `latest` it takes them from the newest entry of the
  GitHub release listing.
- **The Cypress plugin** (`configureSynpress.ts`). It keeps only the
  `chrome` browsers of the configuration and fails if there are none. Its
  `before:browser:launch` hook records the remote-debugging port and appends
  MetaMask's extension and browser arguments for chromium browsers. Its
  `before:spec` hook imports the wallet once. It also registers a menu of
  tasks: each one either swallows failures into `false`, or returns `true` and
  propagates failures, or returns a value. `createAnvilNode` builds a
  descriptor for a local Anvil chain.

Files and modules:

- `wrappers.dfy` (`Wrappers`): `Option` and `Result`.
- `decimal.dfy` (`Decimal`): decimal rendering of a port number, with its
  reading back.
- `helpers.dfy` (`Helpers`):
  - the class `NetworkSelection`, whose fields are the three module variables;
  - the pure transition `SetNetworkStep` that specifies it;
  - the release lookup.
- `synpress_tasks.dfy` (`SynpressTasks`):
  - the menu of tasks, where each task is the ordered list of awaited driver calls
    its handler makes (`Script`);
  - sequential execution that stops at the first rejected call (`Execute`);
  - the reply envelope (`Reply`), checked against an independent
    classification table (`EnvelopeOf`).
- `configure_synpress.dfy` (`ConfigureSynpress`):
  - the browser filter and the returned configuration;
  - the launch hook over a mutable `LaunchOptions` object;
  - the `before:spec` transition and its behaviour over any series of calls;
  - the Anvil descriptor;
  - the class `Plugin`, whose fields are the module-level variables the hooks
    share (`metamaskInitialized`, `rdpPort`, `context`,
    `metamaskExtensionId`, `metamaskExtensionPage`, `pool`).

Every MetaMask and Playwright call is opaque. A `World` argument gives the
outcome of each call: it resolves, possibly with a text, or it rejects with an
error. The model only decides which calls are made, in what order, and what
each task answers. The same holds for the outcomes of `ensureRdpPort`,
`initMetaMask`, `importMetaMaskWallet`, `pool.start`, `pool.empty` and the
GitHub listing request: each is a parameter.

Behaviour of the code that the model keeps:

- `setNetwork(null)` throws: `typeof null` is `'object'`, so the object branch
  reads `null.networkName`. The state is unchanged.
- The release listing is fetched before the version is looked at, so an
  explicit version fails too when the fetch fails.
- Every error `getMetamaskReleases` raises names an undefined download URL.
- In the legacy array form of the launch options, a chromium browser makes
  `launchOptions.extensions.push` throw. The arguments are then left alone.
- `before:spec` marks the session initialised even when the import returned
  no usable page or id. An empty extension id counts as unusable, because
  the code tests its truthiness.
- A call made on `metamaskExtensionPage` itself raises a TypeError while that
  page is unset. getAccount and getNetwork always make such a call first, so
  they raise it. Tasks that call MetaMask first raise that call's own
  rejection if it rejects.
- `createAnvilNode` always starts node 0, because `instances()` is read from
  a pool created on the line before.

The code has no session-readiness check: tasks run on whatever handles are set.

## Model

| member | source | states |
|---|---|---|
| Helpers.SetNetworkStep | helpers.js:13-40 | a name in the known-network table yields exactly that table entry; any other name, and any non-object value, leaves the state unchanged; an object yields its networkName, chainId and isTestnet; only `null` raises |
| Helpers.KnownNetworkIds | helpers.js:14-33 | the table maps mainnet to 1 (not a testnet), and ropsten, kovan, rinkeby and goerli to 3, 42, 4 and 5 (all testnets), each under its own name |
| Helpers.MainnetResets | helpers.js:14-17 | selecting mainnet gives (mainnet, 1, false) whatever the prior state |
| Helpers.SetNetworkIdempotent | helpers.js:13-40 | applying the same argument twice gives the same state as applying it once |
| Helpers.NetworkSelection.constructor | helpers.js:8-10 | the module starts in (mainnet, 1, false) |
| Helpers.NetworkSelection.SetNetwork | helpers.js:13-40 | the variables become the successful result of SetNetworkStep from the old state; on the null error they stay as they were |
| Helpers.NetworkSelection.GetNetwork | helpers.js:41-43 | returns the current triple and changes nothing |
| Helpers.ExplicitRelease | helpers.js:77-81 | the tag is `metamask-chrome-` + version, the filename is the tag + `.zip`, and the URL is the release download prefix + `v` + version + `/` + filename |
| Helpers.ExplicitTagNamesVersion | helpers.js:78-80 | the version can be read back off the tag, so different versions give different names |
| Helpers.GetMetamaskReleases | helpers.js:64-92 | a failed fetch raises whatever the version; an explicit version gives ExplicitRelease; for latest, undefined or empty the result is the first asset and tag of the first release, and it raises exactly when that release or asset is missing; every error's URL is undefined |
| Decimal.NatToDecimal | wallets/metamask/src/cypress/configureSynpress.ts:161 | the numeral of a port is non-empty, all digits, and starts with 0 only for 0 |
| Decimal.DecimalRoundTrip | wallets/metamask/src/cypress/configureSynpress.ts:161 | reading the rendered port back gives the port |
| SynpressTasks.Perform | wallets/metamask/src/cypress/configureSynpress.ts:71-81 | a call on the extension page while no page is set raises the TypeError; any other call has the world's outcome |
| SynpressTasks.Execute | wallets/metamask/src/cypress/configureSynpress.ts:92-102 | the calls made are a prefix of the script; it completes exactly when every call resolves; otherwise the last call made is the first one that rejected, and its error is the failure |
| SynpressTasks.Script | wallets/metamask/src/cypress/configureSynpress.ts:71-317 | every handler awaits at least one call; each value task reads exactly one text from the page |
| SynpressTasks.Reply | wallets/metamask/src/cypress/configureSynpress.ts:69-318 | swallowing tasks answer true exactly when every call resolves, and false otherwise, never raising; propagating tasks answer true exactly when every call resolves and otherwise raise the first failure; value tasks return the text read or raise its error |
| SynpressTasks.SwallowingNeverRaises | wallets/metamask/src/cypress/configureSynpress.ts:83-90 | a swallowing task always answers a boolean |
| SynpressTasks.ConnectToAnvilOrder | wallets/metamask/src/cypress/configureSynpress.ts:174-198 | switchNetwork('Anvil') is called only after adding the Anvil network resolved; the answer is true exactly when both calls resolve |
| SynpressTasks.ValueTaskWithoutPage | wallets/metamask/src/cypress/configureSynpress.ts:71-81 | getAccount and getNetwork raise the TypeError while no extension page is set |
| ConfigureSynpress.ChromeBrowsers | wallets/metamask/src/cypress/configureSynpress.ts:28 | the result holds only chrome browsers, is a subsequence of the input in its order, and keeps every chrome browser as often as the input has it |
| ConfigureSynpress.ChromeSelectionUnique | wallets/metamask/src/cypress/configureSynpress.ts:28 | any list with those three properties is the filter's result |
| ConfigureSynpress.NoChromeIffEmptySelection | wallets/metamask/src/cypress/configureSynpress.ts:28-31 | the filter is empty exactly when no browser is named chrome |
| ConfigureSynpress.Configure | wallets/metamask/src/cypress/configureSynpress.ts:28-31 | fails, with the 'No Chrome browser found in the configuration' error, exactly when no browser is named chrome; otherwise returns the input settings unchanged with the chrome selection as its browsers |
| ConfigureSynpress.LaunchStep | wallets/metamask/src/cypress/configureSynpress.ts:33-46 | non-chromium browsers keep their lists; for chromium a failed initMetaMask propagates, the array form raises, and otherwise MetaMask's arguments and extensions follow the existing ones, which are unchanged |
| ConfigureSynpress.Plugin.BeforeBrowserLaunch | wallets/metamask/src/cypress/configureSynpress.ts:33-46 | rdpPort becomes ensureRdpPort of the argument list; the options object's lists become LaunchStep's result and the same object is returned; on an error they are untouched; the session is unchanged |
| ConfigureSynpress.BeforeSpecStep | wallets/metamask/src/cypress/configureSynpress.ts:48-67 | an initialised session is left alone; otherwise a failed import propagates, and a completed one marks the session initialised, adopting context, id and page only when page and a non-empty id are present |
| ConfigureSynpress.InitializedIsFinal | wallets/metamask/src/cypress/configureSynpress.ts:48-67 | once initialised, any number of further before:spec calls change nothing |
| ConfigureSynpress.FirstCompletedImportDecides | wallets/metamask/src/cypress/configureSynpress.ts:48-67 | from an uninitialised session, only failed imports leave the state as it was; otherwise the state is the one produced by the first completed import |
| ConfigureSynpress.Plugin.constructor | wallets/metamask/src/cypress/configureSynpress.ts:13-22 | the module starts uninitialised with every handle, the port and the pool unset |
| ConfigureSynpress.Plugin.BeforeSpec | wallets/metamask/src/cypress/configureSynpress.ts:48-67 | the session becomes BeforeSpecStep's result for the import through the recorded port; on an import error it is unchanged and the error propagates |
| ConfigureSynpress.Plugin.RunTask | wallets/metamask/src/cypress/configureSynpress.ts:69-318 | a task's answer is Reply for the session handles as they stand; reads nothing else and changes no plugin state |
| ConfigureSynpress.AnvilDescriptor | wallets/metamask/src/cypress/configureSynpress.ts:155-167 | chainId is options.chainId when given, otherwise 31337; rpcUrl is `http://`, then the host, then `:`, then the shortest numeral (no leading zero) that reads back as the port |
| ConfigureSynpress.Plugin.CreateAnvilNode | wallets/metamask/src/cypress/configureSynpress.ts:155-167 | a fresh, empty pool replaces any previous one; node 0 is started; the answer is its descriptor, or the start error |
| ConfigureSynpress.Plugin.EmptyAnvilNode | wallets/metamask/src/cypress/configureSynpress.ts:169-172 | raises a TypeError when no pool was created; otherwise true when emptying resolves, or the emptying error |

## Left out

- `getSynpressPath`, `checkDirExist`, `download`, `extract` and `prepareMetamask` (helpers.js): filesystem, environment and network I/O.
- The HTTP request of `getMetamaskReleases`: its outcome for the listing URL is a parameter.
- Helpers.SetNetworkStep: `Number(network.chainId)` is taken as an integer. NaN and the parsing of strings are not modelled. An object missing a field is not modelled either.
- Helpers.GetMetamaskReleases: the listing is taken to be an array of well-formed releases. The wording of the error message is not modelled, only its URL part and its cause.
- `ensureRdpPort` comes from another package: it is a function parameter, and any change it makes to the argument list is not modelled.
- `getPlaywrightMetamask`, `importMetaMaskWallet`, `initMetaMask`, `waitFor`, locators and `expect` assertions are opaque. Their bodies are not part of this model. `getPlaywrightMetamask` is assumed not to throw.
- `pool.start` and `pool.empty` spawn and stop processes. Only their outcomes are modelled, and the pool's record of started instances is not kept.
- Hooks and tasks are async event handlers run by Cypress. They are modelled as sequential method calls, and registration itself is not modelled. The hooks exist only when `Configure` succeeds.
- The `console.error` logging in `connectToAnvil`'s catch block: logging is output only and changes no answer.
- ConfigureSynpress.Plugin.BeforeSpec: its contract cannot say that the import is not attempted once initialised. The import's outcome is a pure parameter.
- In `RunSpecs`, a rejected `before:spec` is assumed to be followed by further calls. Whether Cypress carries on after such a rejection is not modelled.
- The commented-out `cypressPage` tracking in `before:spec` is read but never stored, as in the code.
- The Keplr fixtures, `testWithSynpress`, the cache tests and the build configuration are outside the modelled core. So are cache-key derivation, the profile store and extension discovery, whose implementations are not part of this model.
