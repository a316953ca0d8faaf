/**
 * The client of the rating registry (`useRatingVault`): it resolves the deployment for the
 * connected chain, sends the registry's transactions through the wallet's signer, encrypts the
 * scores of a submission, and decrypts a user's own scores or a creator's totals through a
 * cached decryption grant. The contract, the FHEVM instance and the wallet are parameters.
 */
module VaultClient {
  import opened Common
  import opened JsString
  import opened FhevmTypes
  import opened Storage
  import opened DecryptionSignature
  import MockAdapter

  const NotDeployed: string := "Contract not deployed on this network"
  const AddressNotFound: string := "Contract address not found"
  const SubmitUnavailable: string := "FHEVM instance or signer not available"
  const InstanceUnavailable: string := "FHEVM instance not available"
  const SignerUnavailable: string := "Signer not available"
  const NotRated: string := "You haven't rated this yet"
  const NotCreator: string := "Only creator can decrypt aggregated statistics"
  const NoAggregates: string := "No aggregated scores available"
  const SignatureFailed: string := "Failed to create decryption signature. Please try again."
  const CreateFailure: string := "Failed to create rating"
  const SubmitFailure: string := "Failed to submit rating"
  const CloseFailure: string := "Failed to close rating"
  const DecryptMineFailure: string := "Failed to decrypt your rating"
  const DecryptStatsFailure: string := "Failed to decrypt statistics"
  const RatingCreatedEvent: string := "RatingCreated"

  /** `err.message || fallback`, where `""` stands for an error without a message. */
  function MessageOr(message: string, fallback: string): (r: string)
    ensures message != "" ==> r == message
    ensures message == "" ==> r == fallback
  {
    if message != "" then message else fallback
  }

  // ---------------------------------------------------------------------------
  // getContractAddress, getContract

  /**
   * `getContractAddress()`: no address without a (non-zero) chain id; otherwise the entry of
   * the deployment table under the chain id written in decimal. `deployments` maps each key
   * of `RatingVaultAddresses` to its address.
   */
  function ContractAddress(chainId: Option<int>, deployments: map<string, string>): (r: Option<string>)
    ensures chainId.None? || chainId.value == 0 ==> r.None?
    ensures chainId.Some? && chainId.value != 0 ==>
              (r.Some? <==> IntToDecimal(chainId.value) in deployments)
              && (r.Some? ==> r.value == deployments[IntToDecimal(chainId.value)])
  {
    if chainId.None? || chainId.value == 0 then None
    else
      var key := IntToDecimal(chainId.value);
      if key in deployments then Some(deployments[key]) else None
  }

  /** The address found for a chain depends on that chain's entry only: adding another chain's deployment changes nothing. */
  lemma ContractAddressPerChain(chainId: int, other: int, address: string, deployments: map<string, string>)
    requires chainId != other
    ensures ContractAddress(Some(chainId), deployments[IntToDecimal(other) := address])
            == ContractAddress(Some(chainId), deployments)
  {
    if IntToDecimal(chainId) == IntToDecimal(other) {
      IntToDecimalInjective(chainId, other);
    }
  }

  /** Whether a contract object sends through the wallet's signer or reads through the provider. */
  datatype Runner = ThroughSigner | ThroughProvider

  /** An ethers `Contract`: the registry's address and the runner it was built with. */
  datatype Contract = Contract(address: string, runner: Runner)

  /** `getContract(withSigner)`: a contract at the resolved address, or "Contract not deployed on this network". */
  function GetContract(address: Option<string>, withSigner: bool): (r: Result<Contract, string>)
    ensures r.Ok? <==> address.Some? && address.value != ""
    ensures r.Ok? ==> r.value.address == address.value && (r.value.runner == ThroughSigner <==> withSigner)
    ensures r.Err? ==> r.error == NotDeployed
  {
    if address.None? || address.value == "" then Err(NotDeployed)
    else Ok(Contract(address.value, if withSigner then ThroughSigner else ThroughProvider))
  }

  // ---------------------------------------------------------------------------
  // The registry as the client sees it

  /** A campaign as the registry's getters return it (the `Rating` interface). */
  datatype Rating = Rating(id: int, creator: string, name: string, description: string, dimensions: seq<string>,
                           minScore: int, maxScore: int, deadline: int, active: bool, participantCount: int,
                           createdAt: int)

  /** The arguments of `createRating`. */
  datatype CreateParams = CreateParams(name: string, description: string, dimensions: seq<string>,
                                       minScore: int, maxScore: int, deadline: int)

  /** A receipt log as `contract.interface.parseLog` sees it: `None` when parsing throws or yields null. */
  datatype ParsedLog = ParsedLog(name: string, ratingId: int)
  datatype Log = Log(parsed: Option<ParsedLog>)
  datatype Receipt = Receipt(txHash: string, logs: seq<Log>)

  /**
   * The deployed registry: each entry is what the call settles to for the given contract
   * object and arguments, an error carrying its message ("" when it has none). A transaction
   * settles once it is mined (`tx.wait()`).
   */
  datatype Chain = Chain(
    createRating: (Contract, CreateParams) -> Result<Receipt, string>,
    submitRating: (Contract, int, seq<string>, string) -> Result<string, string>,
    closeRating: (Contract, int) -> Result<string, string>,
    getRating: (Contract, int) -> Result<Rating, string>,
    getRatings: (Contract, int, int) -> Result<seq<Rating>, string>,
    getMyRatedRatings: (Contract, string) -> Result<seq<int>, string>,
    getMyCreatedRatings: (Contract, string) -> Result<seq<int>, string>,
    ratingCount: Contract -> Result<int, string>,
    getMyRating: (Contract, int) -> Result<seq<string>, string>,
    ratings: (Contract, int) -> Result<Rating, string>,
    getAggregatedScores: (Contract, int) -> Result<seq<string>, string>)

  predicate IsRatingCreated(log: Log) {
    log.parsed.Some? && log.parsed.value.name == RatingCreatedEvent
  }

  /** `receipt.logs.find(...)`: the position of the first log that parses as `RatingCreated`. */
  function FirstRatingCreated(logs: seq<Log>): (r: Option<nat>)
    ensures r.Some? ==> r.value < |logs| && IsRatingCreated(logs[r.value])
                        && forall j :: 0 <= j < r.value ==> !IsRatingCreated(logs[j])
    ensures r.None? ==> forall j :: 0 <= j < |logs| ==> !IsRatingCreated(logs[j])
  {
    if logs == [] then None
    else if IsRatingCreated(logs[0]) then Some(0)
    else match FirstRatingCreated(logs[1..])
      case None => None
      case Some(k) => Some(k + 1)
  }

  /** The id reported by `createRating`: that of the first `RatingCreated` log, or 0 when there is none. */
  function CreatedRatingId(logs: seq<Log>): (id: int)
    ensures (forall j :: 0 <= j < |logs| ==> !IsRatingCreated(logs[j])) ==> id == 0
  {
    match FirstRatingCreated(logs)
    case None => 0
    case Some(k) => logs[k].parsed.value.ratingId
  }

  /** Logs of other events before the registry's `RatingCreated(id, ...)` do not hide its id, and later ones do not matter. */
  lemma CreatedRatingIdOfEvent(before: seq<Log>, id: int, after: seq<Log>)
    requires forall j :: 0 <= j < |before| ==> !IsRatingCreated(before[j])
    ensures CreatedRatingId(before + [Log(Some(ParsedLog(RatingCreatedEvent, id)))] + after) == id
  {
    var logs := before + [Log(Some(ParsedLog(RatingCreatedEvent, id)))] + after;
    assert IsRatingCreated(logs[|before|]);
    assert forall j :: 0 <= j < |before| ==> logs[j] == before[j];
  }

  /** What a transaction-sending action returns: `{ success: true, txHash }` or `{ success: false, error }`. */
  datatype TxResult = Sent(txHash: string) | TxFailed(error: string)
  datatype CreateResult = Created(txHash: string, ratingId: int) | CreateFailed(error: string)

  // ---------------------------------------------------------------------------
  // The FHEVM instance

  /** An encrypted input as handed to `encrypt`: the contract, the user and the values added, in order. */
  datatype InputRequest = InputRequest(contractAddress: string, userAddress: string, values: seq<int>)

  /** A ciphertext handle paired with the contract it belongs to, as `userDecrypt` takes it. */
  datatype HandlePair = HandlePair(handle: string, contractAddress: string)

  /** The arguments of `userDecrypt`: the handles and the fields of the grant. */
  datatype DecryptCall = DecryptCall(handles: seq<HandlePair>, privateKey: string, publicKey: string,
                                     signature: string, contractAddresses: seq<string>, userAddress: string,
                                     startTimestamp: int, durationDays: int)

  /** A decrypted value. */
  datatype ClearValue = ClearInt(n: int) | ClearBool(b: bool)

  /**
   * The parts of an FHEVM instance the client uses: what `encrypt` settles to for an input,
   * what `userDecrypt` settles to (a record from handle to clear value) and the key pair and
   * domain the grant is signed with.
   */
  datatype Instance = Instance(
    encrypt: InputRequest -> Result<MockAdapter.Encryption, string>,
    userDecrypt: DecryptCall -> Result<map<string, ClearValue>, string>,
    signing: SigningInstance)

  /** The input buffer `createEncryptedInput(contractAddress, userAddress)` returns. */
  class EncryptedInput {
    const contractAddress: string
    const userAddress: string
    var values: seq<int>

    constructor (contractAddress: string, userAddress: string)
      ensures this.contractAddress == contractAddress && this.userAddress == userAddress && values == []
    {
      this.contractAddress := contractAddress;
      this.userAddress := userAddress;
      values := [];
    }

    /** `add32(value)`: the value is appended. */
    method Add32(value: int)
      modifies this
      ensures values == old(values) + [value]
    {
      values := values + [value];
    }

    /** `encrypt()` with the values added so far. */
    method Encrypt(instance: Instance) returns (r: Result<MockAdapter.Encryption, string>)
      ensures r == instance.encrypt(InputRequest(contractAddress, userAddress, values))
    {
      r := instance.encrypt(InputRequest(contractAddress, userAddress, values));
    }
  }

  /** `handles.map(h => ({ handle: h, contractAddress }))`. */
  function PairHandles(handles: seq<string>, contractAddress: string): (r: seq<HandlePair>)
    ensures |r| == |handles|
    ensures forall i :: 0 <= i < |handles| ==> r[i] == HandlePair(handles[i], contractAddress)
  {
    seq(|handles|, i requires 0 <= i < |handles| => HandlePair(handles[i], contractAddress))
  }

  /** `Number(results[h])`: `None` stands for NaN, the value of a handle missing from the record. */
  function NumberOf(results: map<string, ClearValue>, handle: string): (r: Option<int>)
    ensures r.Some? <==> handle in results
  {
    if handle !in results then None
    else match results[handle]
      case ClearInt(n) => Some(n)
      case ClearBool(b) => Some(if b then 1 else 0)
  }

  /** `handles.map(h => Number(results[h]))`. */
  function ReadBack(handles: seq<string>, results: map<string, ClearValue>): (r: seq<Option<int>>)
    ensures |r| == |handles|
    ensures forall i :: 0 <= i < |handles| ==> r[i] == NumberOf(results, handles[i])
  {
    seq(|handles|, i requires 0 <= i < |handles| => NumberOf(results, handles[i]))
  }

  /** The values come back in the order of the handles: reading two lists back is reading their concatenation back. */
  lemma ReadBackConcat(a: seq<string>, b: seq<string>, results: map<string, ClearValue>)
    ensures ReadBack(a + b, results) == ReadBack(a, results) + ReadBack(b, results)
  {
    var l, r := ReadBack(a + b, results), ReadBack(a, results) + ReadBack(b, results);
    forall i | 0 <= i < |a + b| ensures l[i] == r[i] {
      if i >= |a| {
        assert (a + b)[i] == b[i - |a|];
      }
    }
  }

  /** Every value is a number exactly when the record answers every handle. */
  lemma ReadBackComplete(handles: seq<string>, results: map<string, ClearValue>)
    ensures (forall i :: 0 <= i < |handles| ==> ReadBack(handles, results)[i].Some?)
            <==> (forall i :: 0 <= i < |handles| ==> handles[i] in results)
  {
    var values := ReadBack(handles, results);
    assert forall i :: 0 <= i < |handles| ==> (values[i].Some? <==> handles[i] in results);
  }

  /** The `userDecrypt` call made with a grant: the handles paired with the contract, and the grant's fields. */
  function DecryptCallFor(handles: seq<string>, contractAddress: string, g: Grant): (c: DecryptCall)
    ensures c.handles == PairHandles(handles, contractAddress)
    ensures c.privateKey == g.privateKey && c.publicKey == g.publicKey && c.signature == g.signature
    ensures c.contractAddresses == g.contractAddresses && c.userAddress == g.userAddress
    ensures c.startTimestamp == g.startTimestamp && c.durationDays == g.durationDays
  {
    DecryptCall(PairHandles(handles, contractAddress), g.privateKey, g.publicKey, g.signature,
                g.contractAddresses, g.userAddress, g.startTimestamp, g.durationDays)
  }

  /** A decryption's result and the store it leaves behind. */
  datatype DecryptOutcome = DecryptOutcome(result: Result<seq<Option<int>>, string>, items: map<string, Item>)

  /**
   * The shared tail of both decryptions: `loadOrSign` for the one contract, then `userDecrypt`
   * over the handles, the values read back handle by handle; no grant is the signature error.
   */
  function DecryptWithGrant(instance: Instance, signer: Signer, contractAddress: string, handles: seq<string>,
                            items: map<string, Item>, now: int): (out: DecryptOutcome)
    requires signer.address.Some?
    ensures out.items == LoadOrSignResult(items, instance.signing, [contractAddress], signer, now).items
    ensures LoadOrSignResult(items, instance.signing, [contractAddress], signer, now).result == Ok(None) ==>
              out.result == Err(SignatureFailed)
    ensures out.result.Ok? ==> |out.result.value| == |handles|
    ensures var sig := LoadOrSignResult(items, instance.signing, [contractAddress], signer, now).result;
            sig.Ok? && sig.value.Some? ==>
              var call := instance.userDecrypt(DecryptCallFor(handles, contractAddress, sig.value.value));
              out.result == (if call.Ok? then Ok(ReadBack(handles, call.value)) else Err(call.error))
    ensures out.result.Ok? ==>
              exists g, results ::
                LoadOrSignResult(items, instance.signing, [contractAddress], signer, now).result == Ok(Some(g))
                && instance.userDecrypt(DecryptCallFor(handles, contractAddress, g)) == Ok(results)
                && out.result.value == ReadBack(handles, results)
  {
    var sig := LoadOrSignResult(items, instance.signing, [contractAddress], signer, now);
    match sig.result
    case Err(_) => DecryptOutcome(Err(""), sig.items)
    case Ok(None) => DecryptOutcome(Err(SignatureFailed), sig.items)
    case Ok(Some(g)) =>
      match instance.userDecrypt(DecryptCallFor(handles, contractAddress, g))
      case Err(m) => DecryptOutcome(Err(m), sig.items)
      case Ok(results) => DecryptOutcome(Ok(ReadBack(handles, results)), sig.items)
  }

  /** The decryption of `decryptMyRating(ratingId)` once the instance and the signer are present. */
  function MyRatingOutcome(instance: Instance, signer: Signer, address: Option<string>, ratingId: int, chain: Chain,
                           items: map<string, Item>, now: int): (out: DecryptOutcome)
    ensures GetContract(address, false).Err? ==> out == DecryptOutcome(Err(NotDeployed), items)
    ensures out.result.Ok? ==>
              var scores := chain.getMyRating(GetContract(address, false).value, ratingId);
              scores.Ok? && scores.value != [] && |out.result.value| == |scores.value|
              && exists results :: out.result.value == ReadBack(scores.value, results)
    ensures GetContract(address, false).Ok? && signer.address.Some?
            && chain.getMyRating(GetContract(address, false).value, ratingId) == Ok([]) ==>
              out == DecryptOutcome(Err(NotRated), items)
    ensures GetContract(address, false).Ok? && signer.address.Some? ==>
              var scores := chain.getMyRating(GetContract(address, false).value, ratingId);
              scores.Ok? && scores.value != [] ==>
                out == DecryptWithGrant(instance, signer, GetContract(address, false).value.address, scores.value, items, now)
  {
    var contract := GetContract(address, false);
    if contract.Err? then DecryptOutcome(Err(contract.error), items)
    else if signer.address.None? then DecryptOutcome(Err(""), items)
    else
      var scores := chain.getMyRating(contract.value, ratingId);
      if scores.Err? then DecryptOutcome(Err(scores.error), items)
      else if scores.value == [] then DecryptOutcome(Err(NotRated), items)
      else DecryptWithGrant(instance, signer, contract.value.address, scores.value, items, now)
  }

  /** The creator test of `decryptAggregatedScores`: the two addresses agree once lower-cased. */
  predicate IsCreator(creator: string, address: string) {
    ToLower(creator) == ToLower(address)
  }

  /** The test is symmetric and ignores case on both sides. */
  lemma IsCreatorIgnoresCase(creator: string, address: string)
    ensures IsCreator(creator, address) <==> IsCreator(address, creator)
    ensures IsCreator(creator, address) <==> IsCreator(ToLower(creator), address)
    ensures IsCreator(creator, address) <==> IsCreator(creator, ToLower(address))
  {
    ToLowerIdempotent(creator);
    ToLowerIdempotent(address);
  }

  /** The decryption of `decryptAggregatedScores(ratingId)` once the instance and the signer are present. */
  function StatisticsOutcome(instance: Instance, signer: Signer, address: Option<string>, ratingId: int,
                             chain: Chain, items: map<string, Item>, now: int): (out: DecryptOutcome)
    ensures GetContract(address, false).Err? ==> out == DecryptOutcome(Err(NotDeployed), items)
    ensures out.result.Ok? ==>
              var contract := GetContract(address, false).value;
              var rating := chain.ratings(contract, ratingId);
              var totals := chain.getAggregatedScores(contract, ratingId);
              signer.address.Some? && rating.Ok? && IsCreator(rating.value.creator, signer.address.value)
              && totals.Ok? && totals.value != [] && |out.result.value| == |totals.value|
              && exists results :: out.result.value == ReadBack(totals.value, results)
    ensures GetContract(address, false).Ok? && signer.address.Some?
            && chain.ratings(GetContract(address, false).value, ratingId).Ok?
            && !IsCreator(chain.ratings(GetContract(address, false).value, ratingId).value.creator,
                          signer.address.value) ==>
              out == DecryptOutcome(Err(NotCreator), items)
    ensures GetContract(address, false).Ok? && signer.address.Some? ==>
              var contract := GetContract(address, false).value;
              var rating := chain.ratings(contract, ratingId);
              var totals := chain.getAggregatedScores(contract, ratingId);
              rating.Ok? && IsCreator(rating.value.creator, signer.address.value) && totals.Ok? && totals.value != [] ==>
                out == DecryptWithGrant(instance, signer, contract.address, totals.value, items, now)
  {
    var contract := GetContract(address, false);
    if contract.Err? then DecryptOutcome(Err(contract.error), items)
    else if signer.address.None? then DecryptOutcome(Err(""), items)
    else
      var rating := chain.ratings(contract.value, ratingId);
      if rating.Err? then DecryptOutcome(Err(rating.error), items)
      else if !IsCreator(rating.value.creator, signer.address.value) then DecryptOutcome(Err(NotCreator), items)
      else
        var totals := chain.getAggregatedScores(contract.value, ratingId);
        if totals.Err? then DecryptOutcome(Err(totals.error), items)
        else if totals.value == [] then DecryptOutcome(Err(NoAggregates), items)
        else DecryptWithGrant(instance, signer, contract.value.address, totals.value, items, now)
  }

  /** What `submitRating(ratingId, scores)` settles to once the instance and the signer are present. */
  function SubmitOutcome(instance: Instance, signer: Signer, address: Option<string>, ratingId: int,
                         scores: seq<int>, chain: Chain): (r: TxResult)
    ensures address.None? || address.value == "" ==> r == TxFailed(AddressNotFound)
    ensures r.Sent? ==>
              signer.address.Some?
              && var encrypted := instance.encrypt(InputRequest(address.value, signer.address.value, scores));
              encrypted.Ok?
              && chain.submitRating(Contract(address.value, ThroughSigner), ratingId,
                                    encrypted.value.handles, encrypted.value.inputProof) == Ok(r.txHash)
    ensures address.Some? && address.value != "" && signer.address.Some? ==>
              var encrypted := instance.encrypt(InputRequest(address.value, signer.address.value, scores));
              (encrypted.Err? ==> r == TxFailed(encrypted.error))
              && (encrypted.Ok? ==>
                    var tx := chain.submitRating(Contract(address.value, ThroughSigner), ratingId,
                                                 encrypted.value.handles, encrypted.value.inputProof);
                    r == (if tx.Ok? then Sent(tx.value) else TxFailed(tx.error)))
  {
    if address.None? || address.value == "" then TxFailed(AddressNotFound)
    else if signer.address.None? then TxFailed("")
    else
      match instance.encrypt(InputRequest(address.value, signer.address.value, scores))
      case Err(m) => TxFailed(m)
      case Ok(encrypted) =>
        match chain.submitRating(GetContract(address, true).value, ratingId, encrypted.handles, encrypted.inputProof)
        case Err(m) => TxFailed(m)
        case Ok(hash) => Sent(hash)
  }

  /** What `createRating(params)` settles to. */
  function CreateOutcome(address: Option<string>, params: CreateParams, chain: Chain): (r: CreateResult)
    ensures GetContract(address, true).Err? ==> r == CreateFailed(NotDeployed)
    ensures r.Created? ==>
              GetContract(address, true).Ok?
              && var tx := chain.createRating(Contract(address.value, ThroughSigner), params);
              tx.Ok? && r == Created(tx.value.txHash, CreatedRatingId(tx.value.logs))
    ensures GetContract(address, true).Ok? ==>
              var tx := chain.createRating(GetContract(address, true).value, params);
              r == (if tx.Ok? then Created(tx.value.txHash, CreatedRatingId(tx.value.logs)) else CreateFailed(tx.error))
  {
    var contract := GetContract(address, true);
    if contract.Err? then CreateFailed(contract.error)
    else match chain.createRating(contract.value, params)
      case Err(m) => CreateFailed(m)
      case Ok(receipt) => Created(receipt.txHash, CreatedRatingId(receipt.logs))
  }

  /** The state the loading flag and the error are left in after an action that reports failures with `fallback`. */
  function ErrorAfter<T>(r: Result<T, string>, fallback: string): (e: Option<string>)
    ensures r.Ok? <==> e.None?
    ensures r.Err? ==> e == Some(MessageOr(r.error, fallback))
  {
    if r.Ok? then None else Some(MessageOr(r.error, fallback))
  }

  /** The hook: its inputs (the signer, the provider, the instance, the chain id) and its loading and error state. */
  class RatingVaultHook {
    const signer: Option<Signer>
    const provider: ObjectRef
    const instance: Option<Instance>
    const chainId: Option<int>
    /** `RatingVaultAddresses`: the registry's address under each decimal chain id. */
    const deployments: map<string, string>
    var isLoading: bool
    var error: Option<string>

    constructor (signer: Option<Signer>, provider: ObjectRef, instance: Option<Instance>, chainId: Option<int>,
                 deployments: map<string, string>)
      ensures this.signer == signer && this.provider == provider && this.instance == instance
      ensures this.chainId == chainId && this.deployments == deployments
      ensures !isLoading && error == None
    {
      this.signer := signer;
      this.provider := provider;
      this.instance := instance;
      this.chainId := chainId;
      this.deployments := deployments;
      isLoading := false;
      error := None;
    }

    /** `contractAddress`, the address the hook exposes. */
    function Address(): (r: Option<string>)
      ensures r == ContractAddress(chainId, deployments)
    {
      ContractAddress(chainId, deployments)
    }

    /**
     * `createRating(params)`: the parameters are sent as they are through the signer; the id
     * is read from the receipt's `RatingCreated` log.
     */
    method CreateRating(params: CreateParams, chain: Chain) returns (r: CreateResult)
      modifies this
      ensures r == CreateOutcome(Address(), params, chain)
      ensures !isLoading && error == (if r.Created? then None else Some(MessageOr(r.error, CreateFailure)))
    {
      isLoading := true;
      error := None;
      var contract := GetContract(Address(), true);
      if contract.Err? {
        error := Some(MessageOr(contract.error, CreateFailure));
        isLoading := false;
        return CreateFailed(contract.error);
      }
      var tx := chain.createRating(contract.value, params);
      if tx.Err? {
        error := Some(MessageOr(tx.error, CreateFailure));
        isLoading := false;
        return CreateFailed(tx.error);
      }
      var ratingId := 0;
      var event := FirstRatingCreated(tx.value.logs);
      if event.Some? {
        ratingId := tx.value.logs[event.value].parsed.value.ratingId;
      }
      isLoading := false;
      return Created(tx.value.txHash, ratingId);
    }

    /**
     * `submitRating(ratingId, scores)`: without an instance or a signer nothing is encrypted;
     * otherwise one value per score is added in order and exactly the handles and the proof
     * of the encryption are submitted.
     */
    method SubmitRating(ratingId: int, scores: seq<int>, chain: Chain) returns (r: TxResult)
      modifies this
      ensures instance.None? || signer.None? ==>
                r == TxFailed("") && error == Some(SubmitUnavailable) && isLoading == old(isLoading)
      ensures instance.Some? && signer.Some? ==>
                r == SubmitOutcome(instance.value, signer.value, Address(), ratingId, scores, chain)
                && !isLoading && error == (if r.Sent? then None else Some(MessageOr(r.error, SubmitFailure)))
    {
      if instance.None? || signer.None? {
        error := Some(SubmitUnavailable);
        return TxFailed("");
      }
      isLoading := true;
      error := None;
      var contractAddress := Address();
      if contractAddress.None? || contractAddress.value == "" {
        r := TxFailed(AddressNotFound);
      } else if signer.value.address.None? {
        r := TxFailed("");
      } else {
        var input := new EncryptedInput(contractAddress.value, signer.value.address.value);
        for i := 0 to |scores|
          invariant input.values == scores[..i]
          modifies input
        {
          input.Add32(scores[i]);
        }
        assert input.values == scores;
        var encrypted := input.Encrypt(instance.value);
        if encrypted.Err? {
          r := TxFailed(encrypted.error);
        } else {
          var contract := GetContract(Address(), true);
          var tx := chain.submitRating(contract.value, ratingId, encrypted.value.handles, encrypted.value.inputProof);
          r := if tx.Ok? then Sent(tx.value) else TxFailed(tx.error);
        }
      }
      if r.TxFailed? {
        error := Some(MessageOr(r.error, SubmitFailure));
      }
      isLoading := false;
    }

    /** `closeRating(ratingId)` through the signer. */
    method CloseRating(ratingId: int, chain: Chain) returns (r: TxResult)
      modifies this
      ensures !isLoading
      ensures var contract := GetContract(Address(), true);
              if contract.Err? then r == TxFailed(NotDeployed) && error == Some(NotDeployed)
              else
                var tx := chain.closeRating(contract.value, ratingId);
                r == (if tx.Ok? then Sent(tx.value) else TxFailed(tx.error)) && error == ErrorAfter(tx, CloseFailure)
    {
      isLoading := true;
      error := None;
      var contract := GetContract(Address(), true);
      if contract.Err? {
        error := Some(MessageOr(contract.error, CloseFailure));
        isLoading := false;
        return TxFailed(contract.error);
      }
      var tx := chain.closeRating(contract.value, ratingId);
      if tx.Err? {
        error := Some(MessageOr(tx.error, CloseFailure));
        r := TxFailed(tx.error);
      } else {
        r := Sent(tx.value);
      }
      isLoading := false;
    }

    /** The read getters never fail: an undeployed registry or a failed call gives null, [] or 0. */
    function GetRating(ratingId: int, chain: Chain): (r: Option<Rating>)
      ensures GetContract(Address(), false).Err? ==> r.None?
      ensures GetContract(Address(), false).Ok? ==>
                var call := chain.getRating(GetContract(Address(), false).value, ratingId);
                r == (if call.Ok? then Some(call.value) else None)
    {
      var contract := GetContract(Address(), false);
      if contract.Err? then None
      else
        var call := chain.getRating(contract.value, ratingId);
        if call.Ok? then Some(call.value) else None
    }

    function GetRatings(offset: int, limit: int, chain: Chain): (r: seq<Rating>)
      ensures GetContract(Address(), false).Err? ==> r == []
      ensures GetContract(Address(), false).Ok? ==>
                var call := chain.getRatings(GetContract(Address(), false).value, offset, limit);
                r == (if call.Ok? then call.value else [])
    {
      var contract := GetContract(Address(), false);
      if contract.Err? then []
      else
        var call := chain.getRatings(contract.value, offset, limit);
        if call.Ok? then call.value else []
    }

    function GetMyRatedRatings(user: string, chain: Chain): (r: seq<int>)
      ensures GetContract(Address(), false).Err? ==> r == []
      ensures GetContract(Address(), false).Ok? ==>
                var call := chain.getMyRatedRatings(GetContract(Address(), false).value, user);
                r == (if call.Ok? then call.value else [])
    {
      var contract := GetContract(Address(), false);
      if contract.Err? then []
      else
        var call := chain.getMyRatedRatings(contract.value, user);
        if call.Ok? then call.value else []
    }

    function GetMyCreatedRatings(user: string, chain: Chain): (r: seq<int>)
      ensures GetContract(Address(), false).Err? ==> r == []
      ensures GetContract(Address(), false).Ok? ==>
                var call := chain.getMyCreatedRatings(GetContract(Address(), false).value, user);
                r == (if call.Ok? then call.value else [])
    {
      var contract := GetContract(Address(), false);
      if contract.Err? then []
      else
        var call := chain.getMyCreatedRatings(contract.value, user);
        if call.Ok? then call.value else []
    }

    function GetRatingCount(chain: Chain): (r: int)
      ensures GetContract(Address(), false).Err? ==> r == 0
      ensures GetContract(Address(), false).Ok? ==>
                var call := chain.ratingCount(GetContract(Address(), false).value);
                r == (if call.Ok? then call.value else 0)
    {
      var contract := GetContract(Address(), false);
      if contract.Err? then 0
      else
        var call := chain.ratingCount(contract.value);
        if call.Ok? then call.value else 0
    }

    /** The shared tail of both decryptions, on the store: `loadOrSign`, then `userDecrypt`. */
    method DecryptHandles(store: LocalStorage, contractAddress: string, handles: seq<string>, now: int)
      returns (r: Result<seq<Option<int>>, string>)
      requires instance.Some? && signer.Some? && signer.value.address.Some?
      modifies store
      ensures var out := DecryptWithGrant(instance.value, signer.value, contractAddress, handles, old(store.items), now);
              r == out.result && store.items == out.items
    {
      var sig := LoadOrSign(store, instance.value.signing, [contractAddress], signer.value, now);
      if sig.Err? {
        return Err("");
      }
      if sig.value.None? {
        return Err(SignatureFailed);
      }
      var call := DecryptCallFor(handles, contractAddress, sig.value.value);
      var results := instance.value.userDecrypt(call);
      if results.Err? {
        return Err(results.error);
      }
      return Ok(ReadBack(handles, results.value));
    }

    /**
     * `decryptMyRating(ratingId)`: a missing instance or signer throws before any state
     * changes; otherwise the caller's handles are decrypted in order.
     */
    method DecryptMyRating(ratingId: int, store: LocalStorage, chain: Chain, now: int)
      returns (r: Result<seq<Option<int>>, string>)
      modifies this, store
      ensures instance.None? ==> r == Err(InstanceUnavailable) && unchanged(this) && unchanged(store)
      ensures instance.Some? && signer.None? ==> r == Err(SignerUnavailable) && unchanged(this) && unchanged(store)
      ensures instance.Some? && signer.Some? ==>
                var out := MyRatingOutcome(instance.value, signer.value, Address(), ratingId, chain, old(store.items), now);
                r == out.result && store.items == out.items
                && !isLoading && error == ErrorAfter(r, DecryptMineFailure)
    {
      if instance.None? {
        return Err(InstanceUnavailable);
      }
      if signer.None? {
        return Err(SignerUnavailable);
      }
      isLoading := true;
      error := None;
      var contract := GetContract(Address(), false);
      if contract.Err? {
        r := Err(contract.error);
      } else if signer.value.address.None? {
        r := Err("");
      } else {
        var scores := chain.getMyRating(contract.value, ratingId);
        if scores.Err? {
          r := Err(scores.error);
        } else if scores.value == [] {
          r := Err(NotRated);
        } else {
          r := DecryptHandles(store, contract.value.address, scores.value, now);
        }
      }
      error := ErrorAfter(r, DecryptMineFailure);
      isLoading := false;
    }

    /**
     * `decryptAggregatedScores(ratingId)`: only for the campaign's creator, compared without
     * regard to case; the totals' handles are decrypted in order.
     */
    method DecryptAggregatedScores(ratingId: int, store: LocalStorage, chain: Chain, now: int)
      returns (r: Result<seq<Option<int>>, string>)
      modifies this, store
      ensures instance.None? ==> r == Err(InstanceUnavailable) && unchanged(this) && unchanged(store)
      ensures instance.Some? && signer.None? ==> r == Err(SignerUnavailable) && unchanged(this) && unchanged(store)
      ensures instance.Some? && signer.Some? ==>
                var out := StatisticsOutcome(instance.value, signer.value, Address(), ratingId, chain, old(store.items), now);
                r == out.result && store.items == out.items
                && !isLoading && error == ErrorAfter(r, DecryptStatsFailure)
    {
      if instance.None? {
        return Err(InstanceUnavailable);
      }
      if signer.None? {
        return Err(SignerUnavailable);
      }
      isLoading := true;
      error := None;
      var contract := GetContract(Address(), false);
      if contract.Err? {
        r := Err(contract.error);
      } else if signer.value.address.None? {
        r := Err("");
      } else {
        var rating := chain.ratings(contract.value, ratingId);
        if rating.Err? {
          r := Err(rating.error);
        } else if ToLower(rating.value.creator) != ToLower(signer.value.address.value) {
          r := Err(NotCreator);
        } else {
          var totals := chain.getAggregatedScores(contract.value, ratingId);
          if totals.Err? {
            r := Err(totals.error);
          } else if totals.value == [] {
            r := Err(NoAggregates);
          } else {
            r := DecryptHandles(store, contract.value.address, totals.value, now);
          }
        }
      }
      error := ErrorAfter(r, DecryptStatsFailure);
      isLoading := false;
    }
  }
}
