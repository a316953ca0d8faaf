/**
 * The instance hook (`useFhevm`): it sets up an FHEVM instance only for a supported network,
 * and it rewrites the failure messages users are likely to see into advice. The outcome of
 * `createFhevmInstance` and the statuses it reports are parameters.
 */
module FhevmHook {
  import opened Common
  import opened JsString
  import opened FhevmBootstrap

  const SepoliaChainId: int := 11155111

  const DefaultFailure: string := "Failed to initialize FHEVM"
  const DecodePhrase: string := "could not decode result data"
  const ThreadsPhrase: string := "threads"
  const NetworkAdvice: string :=
    "Failed to connect to FHEVM network. Please ensure you're connected to Hardhat (local) or Sepolia testnet."
  const BrowserAdvice: string :=
    "Browser does not support FHEVM. Please use Chrome, Edge, or Firefox with SharedArrayBuffer support."
  const UnsupportedPrefix: string := "Unsupported network (Chain ID: "
  const UnsupportedSuffix: string := "). Please switch to Hardhat (31337) or Sepolia (11155111)."

  predicate IsSupported(chainId: int) {
    chainId == HardhatChainId || chainId == SepoliaChainId
  }

  /** The error shown for an unsupported chain. */
  function UnsupportedNetwork(chainId: int): (m: string)
    ensures StartsWith(m, UnsupportedPrefix)
  {
    var m := UnsupportedPrefix + IntToDecimal(chainId) + UnsupportedSuffix;
    assert m[..|UnsupportedPrefix|] == UnsupportedPrefix;
    m
  }

  /** The message names the chain: different chains get different messages. */
  lemma UnsupportedNetworkInjective(a: int, b: int)
    requires UnsupportedNetwork(a) == UnsupportedNetwork(b)
    ensures a == b
  {
    var da, db := IntToDecimal(a), IntToDecimal(b);
    var p, q := UnsupportedPrefix, UnsupportedSuffix;
    assert |da| == |db|;
    assert da == (p + da + q)[|p|..|p| + |da|];
    assert db == (p + db + q)[|p|..|p| + |db|];
    IntToDecimalInjective(a, b);
  }

  /**
   * The message shown when creating the instance fails (`""` stands for an error without a
   * message): the decoding failure and then the threads failure are replaced by advice; any
   * other message is kept, and a missing one becomes the default.
   */
  function ErrorMessage(message: string): (r: string)
    ensures r != ""
    ensures var base := if message == "" then DefaultFailure else message;
            (Contains(base, DecodePhrase) ==> r == NetworkAdvice)
            && (!Contains(base, DecodePhrase) && Contains(base, ThreadsPhrase) ==> r == BrowserAdvice)
            && (!Contains(base, DecodePhrase) && !Contains(base, ThreadsPhrase) ==> r == base)
  {
    var base := if message == "" then DefaultFailure else message;
    if Contains(base, DecodePhrase) then NetworkAdvice
    else if Contains(base, ThreadsPhrase) then BrowserAdvice
    else base
  }

  /** A message that mentions both failures gets the network advice: the decoding test comes first. */
  lemma DecodeTakesPriority(message: string)
    requires Contains(message, DecodePhrase) && Contains(message, ThreadsPhrase)
    ensures ErrorMessage(message) == NetworkAdvice
  {
  }

  /** A message that mentions neither failure reaches the user verbatim. */
  lemma OtherMessagesKept(message: string)
    requires message != "" && !Contains(message, DecodePhrase) && !Contains(message, ThreadsPhrase)
    ensures ErrorMessage(message) == message
  {
  }

  class InstanceHook {
    var instance: Option<Backend>
    var isLoading: bool
    var error: Option<string>
    var status: string

    constructor ()
      ensures instance == None && !isLoading && error == None && status == ""
    {
      instance := None;
      isLoading := false;
      error := None;
      status := "";
    }

    /**
     * The effect run when the raw provider or the chain id changes. `created` is what
     * `createFhevmInstance` settles to and `statuses` the notifications it made.
     */
    method Initialize(rawProvider: Option<ObjectRef>, chainId: Option<int>, created: Result<Backend, string>,
                      statuses: seq<string>)
      modifies this
      ensures rawProvider.None? || chainId.None? || chainId.value == 0 ==>
                instance == None && isLoading == old(isLoading) && error == old(error) && status == old(status)
      ensures rawProvider.Some? && chainId.Some? && chainId.value != 0 && !IsSupported(chainId.value) ==>
                instance == None && error == Some(UnsupportedNetwork(chainId.value)) && !isLoading
                && status == old(status)
      ensures rawProvider.Some? && chainId.Some? && IsSupported(chainId.value) ==>
                !isLoading
                && status == (if statuses == [] then old(status) else statuses[|statuses| - 1])
                && (created.Ok? ==> instance == Some(created.value) && error == None)
                && (created.Err? ==> instance == old(instance) && error == Some(ErrorMessage(created.error)))
    {
      if rawProvider.None? || chainId.None? || chainId.value == 0 {
        instance := None;
        return;
      }
      var isSupportedNetwork := chainId.value == HardhatChainId || chainId.value == SepoliaChainId;
      if !isSupportedNetwork {
        instance := None;
        error := Some(UnsupportedPrefix + IntToDecimal(chainId.value) + UnsupportedSuffix);
        isLoading := false;
        return;
      }
      isLoading := true;
      error := None;
      if statuses != [] {
        status := statuses[|statuses| - 1];
      }
      if created.Ok? {
        instance := Some(created.value);
      } else {
        var errorMessage := if created.error != "" then created.error else DefaultFailure;
        if Contains(errorMessage, DecodePhrase) {
          errorMessage := NetworkAdvice;
        } else if Contains(errorMessage, ThreadsPhrase) {
          errorMessage := BrowserAdvice;
        }
        error := Some(errorMessage);
      }
      isLoading := false;
    }

    /**
     * The effect together with its `createFhevmInstance` call on the raw provider, made only
     * for a supported network: the instance, error and status come from that call's outcome.
     */
    method InitializeWith(sdk: RelayerSdk, rawProvider: Option<ObjectRef>, chainId: Option<int>, env: Environment)
      returns (created: Result<Backend, string>, notified: seq<string>)
      requires sdk.Valid()
      modifies this, sdk
      ensures sdk.Valid()
      ensures !(rawProvider.Some? && chainId.Some? && IsSupported(chainId.value)) ==>
                unchanged(sdk) && notified == []
      ensures rawProvider.None? || chainId.None? || chainId.value == 0 ==>
                instance == None && isLoading == old(isLoading) && error == old(error) && status == old(status)
      ensures rawProvider.Some? && chainId.Some? && chainId.value != 0 && !IsSupported(chainId.value) ==>
                instance == None && error == Some(UnsupportedNetwork(chainId.value)) && !isLoading
                && status == old(status)
      ensures rawProvider.Some? && chainId.Some? && IsSupported(chainId.value) ==>
                InstanceOutcome(old(sdk.initialized), Injected(rawProvider.value), env, created, notified)
                && !isLoading
                && status == (if notified == [] then old(status) else notified[|notified| - 1])
                && (created.Ok? ==> instance == Some(created.value) && error == None)
                && (created.Err? ==> instance == old(instance) && error == Some(ErrorMessage(created.error)))
    {
      created, notified := Err(""), [];
      if rawProvider.Some? && chainId.Some? && IsSupported(chainId.value) {
        created, notified := sdk.CreateInstance(Injected(rawProvider.value), env);
      }
      Initialize(rawProvider, chainId, created, notified);
    }
  }
}
