/**
 * Backend selection (`createFhevmInstance`): the chain id is read from the provider; chain
 * 31337 goes to the mock backend when the node's FHEVM metadata is valid, and every other
 * chain goes to the relayer SDK, whose one-time `initSDK` is guarded by a global flag. The
 * node's and the SDK's replies are parameters.
 */
module FhevmBootstrap {
  import opened Common
  import opened JsString

  /** `Eip1193Provider | string`: an injected provider or an RPC URL. */
  datatype Provider = RpcUrl(url: string) | Injected(provider: ObjectRef)

  const HardhatChainId: int := 31337
  const DefaultRpcUrl: string := "http://localhost:8545"
  const DefaultGatewayChainId: int := 55815
  const DecryptionVerifier: string := "0x5ffdaAB0373E62E2ea2944776209aEf29E631A64"
  const InputVerificationVerifier: string := "0x812b06e1CDCE800494b79fFE4f925A504a9A9810"
  const MetadataUnavailable: string :=
    "Hardhat node metadata not available. Please ensure Hardhat node is running with FHEVM support."
  const MockFailurePrefix: string := "Mock instance creation failed: "
  const SdkNotLoaded: string := "Relayer SDK not loaded"

  // ---------------------------------------------------------------------------
  // getChainId

  /**
   * `getChainId(provider)`: for an RPC URL the network's chain id; for an injected provider
   * the `eth_chainId` reply parsed as hexadecimal (`None` is NaN). A failing request is an
   * error with its message.
   */
  function GetChainId(provider: Provider, networkChainId: Result<int, string>, ethChainId: Result<string, string>)
    : (r: Result<Option<int>, string>)
    ensures provider.RpcUrl? ==> r == (if networkChainId.Ok? then Ok(Some(networkChainId.value)) else Err(networkChainId.error))
    ensures provider.Injected? && ethChainId.Ok? ==> r == Ok(ParseIntHex(ethChainId.value))
    ensures provider.Injected? && ethChainId.Err? ==> r == Err(ethChainId.error)
  {
    match provider
    case RpcUrl(_) => if networkChainId.Ok? then Ok(Some(networkChainId.value)) else Err(networkChainId.error)
    case Injected(_) => if ethChainId.Ok? then Ok(ParseIntHex(ethChainId.value)) else Err(ethChainId.error)
  }

  /** A wallet that answers `eth_chainId` in the usual `0x` form selects the chain it names. */
  lemma InjectedChainId(p: ObjectRef, n: nat, networkChainId: Result<int, string>)
    ensures GetChainId(Injected(p), networkChainId, Ok("0x" + NatToString(n, 16))) == Ok(Some(n))
  {
    ParseIntHexOfQuantity(n);
  }

  // ---------------------------------------------------------------------------
  // tryFetchHardhatNodeMetadata

  /** The `web3_clientVersion` reply: a string, some other JSON value, or a failed request. */
  datatype VersionReply = VersionString(version: string) | VersionOther | VersionFailed

  /** The `fhevm_relayer_metadata` reply; an empty string stands for a missing or falsy field. */
  datatype Metadata = Metadata(aclAddress: string, inputVerifierAddress: string, kmsVerifierAddress: string,
                               gatewayChainId: Option<int>)
  datatype MetadataReply = MetadataObject(metadata: Metadata) | MetadataNull | MetadataFailed

  predicate IsHardhatNode(version: VersionReply) {
    version.VersionString? && Contains(ToLower(version.version), "hardhat")
  }

  predicate HasAddresses(m: Metadata) {
    m.aclAddress != "" && m.inputVerifierAddress != "" && m.kmsVerifierAddress != ""
  }

  /** `tryFetchHardhatNodeMetadata`: the metadata, when the node says it is Hardhat and lists the three addresses. */
  function AcceptMetadata(version: VersionReply, reply: MetadataReply): (r: Option<Metadata>)
    ensures r.Some? <==> IsHardhatNode(version) && reply.MetadataObject? && HasAddresses(reply.metadata)
    ensures r.Some? ==> r.value == reply.metadata
  {
    if !version.VersionString? || !Contains(ToLower(version.version), "hardhat") then None
    else match reply
      case MetadataObject(m) => if HasAddresses(m) then Some(m) else None
      case _ => None
  }

  /** The client-version test ignores case: a version string and its lower-cased form are judged alike. */
  lemma AcceptMetadataIgnoresCase(version: string, reply: MetadataReply)
    ensures AcceptMetadata(VersionString(version), reply) == AcceptMetadata(VersionString(ToLower(version)), reply)
  {
    ToLowerIdempotent(version);
  }

  // ---------------------------------------------------------------------------
  // createFhevmInstance

  /** The configuration handed to `MockFhevmInstance.create`. */
  datatype MockConfig = MockConfig(
    rpcUrl: string,
    aclContractAddress: string,
    chainId: int,
    gatewayChainId: int,
    inputVerifierContractAddress: string,
    kmsContractAddress: string,
    verifyingContractAddressDecryption: string,
    verifyingContractAddressInputVerification: string)

  /** The instance returned: the mock adapter, or a relayer-SDK instance configured for `network`. */
  datatype Backend = Mock(config: MockConfig, instance: ObjectRef) | Relayer(network: Provider, instance: ObjectRef)

  /** Everything the environment answers during one `createFhevmInstance` call. */
  datatype Environment = Environment(
    networkChainId: Result<int, string>,
    ethChainId: Result<string, string>,
    clientVersion: VersionReply,
    metadata: MetadataReply,
    mockCreate: Result<ObjectRef, string>,
    sdkLoad: Result<(), string>,
    sdkPresent: bool,
    initSdk: Result<(), string>,
    relayerCreate: Result<ObjectRef, string>)

  /** The URL the mock path talks to: the provider itself when it is a URL. */
  function RpcUrlOf(provider: Provider): (r: string)
    ensures provider.RpcUrl? ==> r == provider.url
    ensures provider.Injected? ==> r == DefaultRpcUrl
  {
    if provider.RpcUrl? then provider.url else DefaultRpcUrl
  }

  /** The mock configuration for accepted metadata: the metadata's addresses, gateway 55815 unless it names one. */
  function MockConfigFor(provider: Provider, chainId: int, m: Metadata): (c: MockConfig)
    ensures c.chainId == chainId && c.rpcUrl == RpcUrlOf(provider)
    ensures c.aclContractAddress == m.aclAddress && c.inputVerifierContractAddress == m.inputVerifierAddress
    ensures c.kmsContractAddress == m.kmsVerifierAddress
    ensures c.gatewayChainId == if m.gatewayChainId.Some? && m.gatewayChainId.value != 0 then m.gatewayChainId.value
                                else DefaultGatewayChainId
  {
    var gateway := if m.gatewayChainId.Some? && m.gatewayChainId.value != 0 then m.gatewayChainId.value
                   else DefaultGatewayChainId;
    MockConfig(RpcUrlOf(provider), m.aclAddress, chainId, gateway, m.inputVerifierAddress, m.kmsVerifierAddress,
               DecryptionVerifier, InputVerificationVerifier)
  }

  /**
   * The global `window.relayerSDK` flag. `initializations` counts the `initSDK` calls that
   * completed; the flag is set exactly when one has.
   */
  class RelayerSdk {
    var initialized: bool
    ghost var initializations: nat

    ghost predicate Valid()
      reads this
    {
      initializations <= 1 && (initialized <==> initializations == 1)
    }

    constructor ()
      ensures Valid() && !initialized && initializations == 0
    {
      initialized := false;
      initializations := 0;
    }

    /**
     * `createFhevmInstance({ provider, onStatusChange })`. `notified` lists the status
     * notifications in the order they were made.
     */
    method CreateInstance(provider: Provider, env: Environment) returns (r: Result<Backend, string>, notified: seq<string>)
      requires Valid()
      modifies this
      ensures Valid()
      ensures old(initialized) ==> initialized && initializations == old(initializations)
      ensures InstanceOutcome(old(initialized), provider, env, r, notified)
      ensures var chain := GetChainId(provider, env.networkChainId, env.ethChainId);
              if chain.Err? || chain.value == Some(HardhatChainId) then unchanged(this)
              else initialized == (old(initialized) || (env.sdkLoad.Ok? && env.sdkPresent && env.initSdk.Ok?))
    {
      var chainId := GetChainId(provider, env.networkChainId, env.ethChainId);
      if chainId.Err? {
        return Err(chainId.error), [];
      }
      if chainId.value == Some(HardhatChainId) {
        r, notified := CreateMockInstance(provider, env);
        return;
      }
      r, notified := CreateRelayerInstance(provider, env);
    }

    /** The relayer path: load the SDK, initialise it once, then create the instance. */
    method CreateRelayerInstance(provider: Provider, env: Environment) returns (r: Result<Backend, string>, notified: seq<string>)
      requires Valid()
      modifies this
      ensures Valid()
      ensures old(initialized) ==> initialized && initializations == old(initializations)
      ensures RelayerOutcome(old(initialized), provider, env, r, notified)
      ensures initialized == (old(initialized) || (env.sdkLoad.Ok? && env.sdkPresent && env.initSdk.Ok?))
    {
      notified := ["sdk-loading"];
      if env.sdkLoad.Err? {
        return Err(env.sdkLoad.error), notified;
      }
      notified := notified + ["sdk-loaded"];
      if !env.sdkPresent {
        return Err(SdkNotLoaded), notified;
      }
      if !initialized {
        notified := notified + ["sdk-initializing"];
        if env.initSdk.Err? {
          return Err(env.initSdk.error), notified;
        }
        initialized := true;
        initializations := initializations + 1;
      }
      notified := notified + ["creating-instance"];
      if env.relayerCreate.Err? {
        return Err(env.relayerCreate.error), notified;
      }
      return Ok(Relayer(provider, env.relayerCreate.value)), notified;
    }
  }

  /** The mock path on chain 31337: accept the node's metadata, then create the mock instance. */
  method CreateMockInstance(provider: Provider, env: Environment) returns (r: Result<Backend, string>, notified: seq<string>)
    ensures MockOutcome(provider, env, r, notified)
  {
    var rpcUrl := RpcUrlOf(provider);
    var metadata := AcceptMetadata(env.clientVersion, env.metadata);
    if metadata.None? {
      return Err(MetadataUnavailable), [];
    }
    notified := ["creating-mock"];
    var m := metadata.value;
    if env.mockCreate.Err? {
      return Err(MockFailurePrefix + env.mockCreate.error), notified;
    }
    var config := MockConfig(rpcUrl, m.aclAddress, HardhatChainId,
                             if m.gatewayChainId.Some? && m.gatewayChainId.value != 0 then m.gatewayChainId.value
                             else DefaultGatewayChainId,
                             m.inputVerifierAddress, m.kmsVerifierAddress,
                             DecryptionVerifier, InputVerificationVerifier);
    return Ok(Mock(config, env.mockCreate.value)), notified;
  }

  /** The mock path: "creating-mock" then the mock, or the metadata error with no notification. */
  ghost predicate MockOutcome(provider: Provider, env: Environment, r: Result<Backend, string>, notified: seq<string>) {
    var metadata := AcceptMetadata(env.clientVersion, env.metadata);
    if metadata.None? then r == Err(MetadataUnavailable) && notified == []
    else
      notified == ["creating-mock"]
      && if env.mockCreate.Err? then r == Err(MockFailurePrefix + env.mockCreate.error)
         else r == Ok(Mock(MockConfigFor(provider, HardhatChainId, metadata.value), env.mockCreate.value))
  }

  /** The relayer path: the notifications made before the step that failed, or all of them and the instance. */
  ghost predicate RelayerOutcome(wasInitialized: bool, provider: Provider, env: Environment,
                                 r: Result<Backend, string>, notified: seq<string>) {
    var init := if wasInitialized then [] else ["sdk-initializing"];
    if env.sdkLoad.Err? then r == Err(env.sdkLoad.error) && notified == ["sdk-loading"]
    else if !env.sdkPresent then r == Err(SdkNotLoaded) && notified == ["sdk-loading", "sdk-loaded"]
    else if !wasInitialized && env.initSdk.Err? then
      r == Err(env.initSdk.error) && notified == ["sdk-loading", "sdk-loaded", "sdk-initializing"]
    else
      notified == ["sdk-loading", "sdk-loaded"] + init + ["creating-instance"]
      && r == (if env.relayerCreate.Err? then Err(env.relayerCreate.error)
               else Ok(Relayer(provider, env.relayerCreate.value)))
  }

  /**
   * What `createFhevmInstance` settles to and the notifications it made: a failed chain-id
   * request fails at once with no notification, chain 31337 takes the mock path and every
   * other chain the relayer path.
   */
  ghost predicate InstanceOutcome(wasInitialized: bool, provider: Provider, env: Environment,
                                  r: Result<Backend, string>, notified: seq<string>) {
    var chain := GetChainId(provider, env.networkChainId, env.ethChainId);
    if chain.Err? then r == Err(chain.error) && notified == []
    else if chain.value == Some(HardhatChainId) then MockOutcome(provider, env, r, notified)
    else RelayerOutcome(wasInitialized, provider, env, r, notified)
  }

  /** The mock path makes no relayer notification and the relayer path always starts with "sdk-loading". */
  lemma PathsAreSeparate(provider: Provider, env: Environment, wasInitialized: bool,
                         r: Result<Backend, string>, notified: seq<string>)
    ensures MockOutcome(provider, env, r, notified) ==> forall s :: s in notified ==> s == "creating-mock"
    ensures RelayerOutcome(wasInitialized, provider, env, r, notified) ==>
              |notified| > 0 && notified[0] == "sdk-loading" && "creating-mock" !in notified
  {
  }
}
