/**
 * The network selection state and the MetaMask release lookup of the
 * legacy helper module: `setNetwork`/`getNetwork` over three module-level
 * variables, and the filename, download URL and tag that
 * `getMetamaskReleases` derives for a version.
 */
module Helpers {
  import opened Wrappers

  // ---------------------------------------------------------------------
  // Network selection
  // ---------------------------------------------------------------------

  /** The triple `getNetwork` reports. */
  datatype Network = Network(networkName: string, networkId: int, isTestnet: bool)

  /** The argument of `setNetwork`, classified by its JavaScript type. */
  datatype NetworkArg =
    | NameArg(name: string)
      /** A non-null object; `chainId` is the value `Number(network.chainId)` yields. */
    | ObjectArg(networkName: string, chainId: int, isTestnet: bool)
      /** `null`, whose `typeof` is also 'object'. */
    | NullArg
      /** `undefined`, a number, a boolean, a function: no branch applies. */
    | OtherArg

  /** Reading `network.networkName` of `null` throws before anything is assigned. */
  datatype SetNetworkError = NullDereference

  /** The state the module starts in. */
  const InitialNetwork := Network("mainnet", 1, false)

  /** The closed table of network names `setNetwork` recognises. */
  const KnownNetworks: map<string, Network> := map[
    "mainnet" := Network("mainnet", 1, false),
    "ropsten" := Network("ropsten", 3, true),
    "kovan" := Network("kovan", 42, true),
    "rinkeby" := Network("rinkeby", 4, true),
    "goerli" := Network("goerli", 5, true)
  ]

  /**
   * The state after `setNetwork(arg)` from `current`, following
   * `setNetwork`'s if/else chain; an error leaves the state as it was.
   */
  function SetNetworkStep(current: Network, arg: NetworkArg): (r: Result<Network, SetNetworkError>)
    ensures arg.NameArg? && arg.name in KnownNetworks ==> r == Ok(KnownNetworks[arg.name])
    ensures arg.NameArg? && arg.name !in KnownNetworks ==> r == Ok(current)
    ensures arg.ObjectArg? ==>
      r.Ok? && r.value.networkName == arg.networkName &&
      r.value.networkId == arg.chainId && r.value.isTestnet == arg.isTestnet
    ensures arg.OtherArg? ==> r == Ok(current)
    ensures r.Err? <==> arg.NullArg?
  {
    match arg
    case NameArg(name) =>
      if name == "mainnet" then Ok(Network("mainnet", 1, false))
      else if name == "ropsten" then Ok(Network("ropsten", 3, true))
      else if name == "kovan" then Ok(Network("kovan", 42, true))
      else if name == "rinkeby" then Ok(Network("rinkeby", 4, true))
      else if name == "goerli" then Ok(Network("goerli", 5, true))
      else Ok(current)
    case ObjectArg(networkName, chainId, isTestnet) => Ok(Network(networkName, chainId, isTestnet))
    case NullArg => Err(NullDereference)
    case OtherArg => Ok(current)
  }

  /** Every named testnet of the table is a testnet; mainnet is the only other entry. */
  lemma KnownNetworkIds(name: string)
    requires name in KnownNetworks
    ensures KnownNetworks[name].networkName == name
    ensures KnownNetworks[name].isTestnet <==> name != "mainnet"
    ensures name == "mainnet" ==> KnownNetworks[name].networkId == 1
    ensures name == "ropsten" ==> KnownNetworks[name].networkId == 3
    ensures name == "kovan" ==> KnownNetworks[name].networkId == 42
    ensures name == "rinkeby" ==> KnownNetworks[name].networkId == 4
    ensures name == "goerli" ==> KnownNetworks[name].networkId == 5
  {
  }

  /** Selecting mainnet gives the initial state, whatever the state was. */
  lemma MainnetResets(current: Network)
    ensures SetNetworkStep(current, NameArg("mainnet")) == Ok(InitialNetwork)
  {
  }

  /** Setting the same network twice is the same as setting it once. */
  lemma SetNetworkIdempotent(current: Network, arg: NetworkArg)
    ensures SetNetworkStep(current, arg).Ok? ==>
      SetNetworkStep(SetNetworkStep(current, arg).value, arg) == SetNetworkStep(current, arg)
  {
  }

  /** The three module-level variables `networkName`, `networkId`, `isTestnet`. */
  class NetworkSelection {
    var networkName: string
    var networkId: int
    var isTestnet: bool

    function Current(): Network
      reads this
    {
      Network(networkName, networkId, isTestnet)
    }

    constructor ()
      ensures Current() == InitialNetwork
    {
      networkName, networkId, isTestnet := "mainnet", 1, false;
    }

    /** `setNetwork(arg)`: reassigns the three variables as the table says. */
    method SetNetwork(arg: NetworkArg) returns (r: Result<(), SetNetworkError>)
      modifies this
      ensures SetNetworkStep(old(Current()), arg).Ok? ==>
        r == Ok(()) && Current() == SetNetworkStep(old(Current()), arg).value
      ensures SetNetworkStep(old(Current()), arg).Err? ==>
        r == Err(SetNetworkStep(old(Current()), arg).error) && Current() == old(Current())
    {
      r := Ok(());
      match arg {
        case NameArg(name) =>
          if name == "mainnet" {
            networkName, networkId, isTestnet := "mainnet", 1, false;
          } else if name == "ropsten" {
            networkName, networkId, isTestnet := "ropsten", 3, true;
          } else if name == "kovan" {
            networkName, networkId, isTestnet := "kovan", 42, true;
          } else if name == "rinkeby" {
            networkName, networkId, isTestnet := "rinkeby", 4, true;
          } else if name == "goerli" {
            networkName, networkId, isTestnet := "goerli", 5, true;
          }
        case ObjectArg(n, chainId, testnet) =>
          networkName, networkId, isTestnet := n, chainId, testnet;
        case NullArg =>
          r := Err(NullDereference);
        case OtherArg =>
      }
    }

    /** `getNetwork()`: the current triple, read without changing it. */
    method GetNetwork() returns (n: Network)
      ensures n.networkName == networkName && n.networkId == networkId && n.isTestnet == isTestnet
    {
      n := Network(networkName, networkId, isTestnet);
    }
  }

  // ---------------------------------------------------------------------
  // MetaMask release lookup
  // ---------------------------------------------------------------------

  /** One downloadable file of a GitHub release. */
  datatype Asset = Asset(name: string, browserDownloadUrl: string)

  /** One entry of the GitHub releases listing, newest first. */
  datatype Release = Release(tagName: string, assets: seq<Asset>)

  /** What `getMetamaskReleases` returns. */
  datatype ReleaseRef = ReleaseRef(filename: string, downloadUrl: string, tagName: string)

  /** Why the lookup raised. */
  datatype ReleaseFailure =
    | FetchFailed(reason: string)
      /** `response.data[0]` is undefined: the listing is empty. */
    | NoRelease
      /** `response.data[0].assets[0]` is undefined: the newest release has no asset. */
    | NoAsset

  /**
   * The error `getMetamaskReleases` raises: its message names the local
   * `downloadUrl` as it stood when the failure happened (`None` renders as
   * "undefined") and the underlying failure.
   */
  datatype ReleaseError = ReleaseError(downloadUrl: Option<string>, cause: ReleaseFailure)

  const ReleasesApiUrl := "https://api.github.com/repos/metamask/metamask-extension/releases"
  const DownloadUrlPrefix := "https://github.com/MetaMask/metamask-extension/releases/download/v"
  const ChromeTagPrefix := "metamask-chrome-"

  /** `version === 'latest' || !version`: undefined, null, '' and 'latest' ask for the newest release. */
  predicate WantsLatest(version: Option<string>) {
    version == None || version == Some("") || version == Some("latest")
  }

  /** The names derived from an explicit version. */
  function ExplicitRelease(version: string): (r: ReleaseRef)
    ensures r.tagName == ChromeTagPrefix + version
    ensures r.filename == r.tagName + ".zip"
    ensures r.downloadUrl == DownloadUrlPrefix + version + "/" + r.filename
  {
    ReleaseRef(
      "metamask-chrome-" + version + ".zip",
      "https://github.com/MetaMask/metamask-extension/releases/download/v" + version
        + "/metamask-chrome-" + version + ".zip",
      "metamask-chrome-" + version)
  }

  /** The version an explicit tag was made from can be read back off it. */
  lemma ExplicitTagNamesVersion(v: string, w: string)
    ensures ExplicitRelease(v).tagName[|ChromeTagPrefix|..] == v
    ensures ExplicitRelease(v) == ExplicitRelease(w) ==> v == w
  {
  }

  /**
   * `getMetamaskReleases(version)`, with the outcome of the listing request
   * to `ReleasesApiUrl` given as `fetch`. The request is made first, for
   * every version.
   */
  function GetMetamaskReleases(version: Option<string>, fetch: string -> Result<seq<Release>, string>)
    : (r: Result<ReleaseRef, ReleaseError>)
    ensures fetch(ReleasesApiUrl).Err? ==> r == Err(ReleaseError(None, FetchFailed(fetch(ReleasesApiUrl).error)))
    ensures fetch(ReleasesApiUrl).Ok? && !WantsLatest(version) ==> r == Ok(ExplicitRelease(version.value))
    ensures fetch(ReleasesApiUrl).Ok? && WantsLatest(version) ==>
      var releases := fetch(ReleasesApiUrl).value;
      (r.Ok? <==> |releases| > 0 && |releases[0].assets| > 0) &&
      (r.Ok? ==> r.value == ReleaseRef(releases[0].assets[0].name,
                                       releases[0].assets[0].browserDownloadUrl,
                                       releases[0].tagName))
    ensures r.Err? ==> r.error.downloadUrl == None
  {
    match fetch(ReleasesApiUrl)
    case Err(reason) => Err(ReleaseError(None, FetchFailed(reason)))
    case Ok(releases) =>
      if WantsLatest(version) then
        if |releases| == 0 then Err(ReleaseError(None, NoRelease))
        else if |releases[0].assets| == 0 then Err(ReleaseError(None, NoAsset))
        else
          var asset := releases[0].assets[0];
          Ok(ReleaseRef(asset.name, asset.browserDownloadUrl, releases[0].tagName))
      else
        Ok(ExplicitRelease(version.value))
  }
}
