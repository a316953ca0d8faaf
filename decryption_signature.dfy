/**
 * The user-decryption grant cache of the client (`FhevmDecryptionSignature`): a grant is kept
 * in `localStorage` under a key built from the user and the sorted contract list, is evicted
 * on load once it has expired, and `loadOrSign` returns a live cached grant or signs a fresh
 * 365-day one. The clock, the key generator and the wallet's signer are parameters.
 */
module DecryptionSignature {
  import opened Common
  import opened JsString
  import opened JsSort
  import opened FhevmTypes
  import opened Storage

  const KeyPrefix: string := "fhevm.decryptionSignature."
  const SecondsPerDay: int := 24 * 60 * 60
  /** The validity period `create` asks for. */
  const GrantDays: int := 365

  // ---------------------------------------------------------------------------
  // Keys and grants

  /** `getStorageKey(user, addresses)`: the prefix, the user, a dot, the sorted addresses joined by commas. */
  function StorageKey(user: string, addresses: seq<string>): (k: string)
    ensures StartsWith(k, KeyPrefix)
  {
    var k := KeyPrefix + user + "." + Join(Sort(addresses), ",");
    assert k[..|KeyPrefix|] == KeyPrefix;
    k
  }

  /** The key names the set of contracts, whatever order the caller lists them in. */
  lemma StorageKeyOrderIndependent(user: string, a: seq<string>, b: seq<string>)
    requires multiset(a) == multiset(b)
    ensures StorageKey(user, a) == StorageKey(user, b)
  {
    SortOrderIndependent(a, b);
  }

  /** `new FhevmDecryptionSignature(data)`: the record with its contract list sorted. */
  function Construct(data: Grant): (g: Grant)
    ensures Sorted(g.contractAddresses) && multiset(g.contractAddresses) == multiset(data.contractAddresses)
    ensures g.(contractAddresses := data.contractAddresses) == data
  {
    data.(contractAddresses := Sort(data.contractAddresses))
  }

  /** Constructing from a constructed grant changes nothing. */
  lemma ConstructIdempotent(data: Grant)
    ensures Construct(Construct(data)) == Construct(data)
  {
    SortIdempotent(data.contractAddresses);
  }

  function ExpiryTimestamp(g: Grant): int {
    g.startTimestamp + g.durationDays * SecondsPerDay
  }

  predicate Expired(g: Grant, now: int) {
    now >= ExpiryTimestamp(g)
  }

  // ---------------------------------------------------------------------------
  // Loading

  /** What a load returns and the store it leaves behind. */
  datatype LoadOutcome = LoadOutcome(grant: Option<Grant>, items: map<string, Item>)

  /**
   * The effect of `loadFromStorage` on the store contents under `key` at time `now`. Only a
   * stored grant record can be read back (anything else fails to parse or to construct and
   * yields null); an expired grant is removed and yields null.
   */
  function Load(items: map<string, Item>, key: string, now: int): (r: LoadOutcome)
    ensures r.grant.Some? <==> key in items && items[key].GrantRecord? && !Expired(items[key].grant, now)
    ensures r.grant.Some? ==> r.grant.value == Construct(items[key].grant) && !Expired(r.grant.value, now)
    ensures r.items == items || r.items == items - {key}
    ensures r.items != items <==> key in items && items[key].GrantRecord? && Expired(items[key].grant, now)
  {
    if key !in items then LoadOutcome(None, items)
    else match items[key]
      case GrantRecord(data) =>
        var sig := Construct(data);
        if Expired(sig, now) then LoadOutcome(None, items - {key})
        else LoadOutcome(Some(sig), items)
      case _ => LoadOutcome(None, items)
  }

  /** Loading a second time returns the same answer and changes nothing further. */
  lemma LoadTwice(items: map<string, Item>, key: string, now: int)
    ensures var first := Load(items, key, now);
            Load(first.items, key, now) == LoadOutcome(first.grant, first.items)
  {
    var first := Load(items, key, now);
    if first.grant.Some? {
      assert first.items == items;
    } else if first.items != items {
      assert key !in first.items;
    }
  }

  /** A grant that loads at some time also loads, unchanged, at every earlier time. */
  lemma LoadEarlier(items: map<string, Item>, key: string, earlier: int, now: int)
    requires earlier <= now && Load(items, key, now).grant.Some?
    ensures Load(items, key, earlier) == Load(items, key, now)
  {
  }

  /** `loadFromStorage(user, addresses)`. */
  method LoadFromStorage(store: LocalStorage, user: string, addresses: seq<string>, now: int)
    returns (r: Option<Grant>)
    modifies store
    ensures var out := Load(old(store.items), StorageKey(user, addresses), now);
            r == out.grant && store.items == out.items
  {
    var key := StorageKey(user, addresses);
    var stored := store.GetItem(key);
    if stored.None? {
      return None;
    }
    match stored.value {
      case GrantRecord(data) =>
        var sig := Construct(data);
        var expiry := ExpiryTimestamp(sig);
        if now >= expiry {
          store.RemoveItem(key);
          return None;
        }
        return Some(sig);
      case _ =>
        return None;
    }
  }

  // ---------------------------------------------------------------------------
  // Saving

  /** `sig.saveToStorage()`: the grant is written under the key of its own user and contracts. */
  method SaveToStorage(store: LocalStorage, sig: Grant)
    modifies store
    ensures store.items == old(store.items)[StorageKey(sig.userAddress, sig.contractAddresses) := GrantRecord(sig)]
  {
    var key := StorageKey(sig.userAddress, sig.contractAddresses);
    store.SetItem(key, GrantRecord(sig));
  }

  /**
   * Save then load: a constructed, unexpired grant that was saved loads back field for field
   * under the same user and any ordering of its contract list.
   */
  lemma SaveThenLoad(items: map<string, Item>, data: Grant, addresses: seq<string>, now: int)
    requires multiset(addresses) == multiset(data.contractAddresses)
    requires !Expired(data, now)
    ensures var sig := Construct(data);
            var saved := items[StorageKey(sig.userAddress, sig.contractAddresses) := GrantRecord(sig)];
            Load(saved, StorageKey(sig.userAddress, addresses), now) == LoadOutcome(Some(sig), saved)
  {
    var sig := Construct(data);
    StorageKeyOrderIndependent(sig.userAddress, sig.contractAddresses, addresses);
    ConstructIdempotent(data);
  }

  // ---------------------------------------------------------------------------
  // Signing

  /** The parts of an FHEVM instance `create` uses: its key generator and its EIP-712 domain. */
  datatype SigningInstance = SigningInstance(keyPair: KeyPair, domain: Eip712Domain)

  /** A wallet signer: `getAddress` (`None` when it fails) and `signTypedData` (`None` when it fails). */
  datatype Signer = Signer(address: Option<string>, signTypedData: Eip712 -> Option<string>)

  /** The typed data `create` asks the wallet to sign. */
  function Request(instance: SigningInstance, addresses: seq<string>, now: int): (t: Eip712)
    ensures t.primaryType == UserDecryptRequestVerification
    ensures t.message.contractAddresses == Sort(addresses) && t.message.publicKey == instance.keyPair.publicKey
    ensures t.message.startTimestamp == now && t.message.durationDays == GrantDays
  {
    UserDecryptTypedData(instance.domain, instance.keyPair.publicKey, Sort(addresses), now, GrantDays)
  }

  /** The grant `create` builds once the request has been signed. */
  function Fresh(instance: SigningInstance, addresses: seq<string>, user: string, signature: string, now: int): (g: Grant)
    ensures g.startTimestamp == now && g.durationDays == GrantDays
    ensures Sorted(g.contractAddresses) && multiset(g.contractAddresses) == multiset(addresses)
    ensures g.eip712 == Request(instance, addresses, now) && g.eip712.message.contractAddresses == g.contractAddresses
    ensures g.userAddress == user && g.signature == signature
    ensures g.publicKey == instance.keyPair.publicKey && g.privateKey == instance.keyPair.privateKey
  {
    Grant(instance.keyPair.publicKey, instance.keyPair.privateKey, Sort(addresses), now, GrantDays,
          signature, user, Request(instance, addresses, now))
  }

  /** A fresh grant is live for 365 days from its signing and expired from then on. */
  lemma FreshLifetime(instance: SigningInstance, addresses: seq<string>, user: string, signature: string,
                      now: int, later: int)
    ensures Expired(Fresh(instance, addresses, user, signature, now), later) <==> later >= now + 365 * 86400
  {
  }

  /** A just-created grant is what the next load under the same user and contracts returns, for a year. */
  lemma FreshThenLoad(items: map<string, Item>, instance: SigningInstance, addresses: seq<string>,
                      user: string, signature: string, now: int, later: int)
    requires now <= later < now + 365 * 86400
    ensures var g := Fresh(instance, addresses, user, signature, now);
            var saved := items[StorageKey(user, g.contractAddresses) := GrantRecord(g)];
            Load(saved, StorageKey(user, addresses), later).grant == Some(g)
  {
    var g := Fresh(instance, addresses, user, signature, now);
    ConstructIdempotent(g.(contractAddresses := addresses));
    SaveThenLoad(items, g, addresses, later);
  }

  /**
   * `create(instance, addresses, signer)`: a key pair, a 365-day request starting now over the
   * sorted contracts, the wallet's signature, then the grant is saved. Any failure yields null
   * before anything is written.
   */
  method Create(store: LocalStorage, instance: SigningInstance, addresses: seq<string>, signer: Signer, now: int)
    returns (r: Option<Grant>)
    modifies store
    ensures r.None? <==> signer.address.None? || signer.signTypedData(Request(instance, addresses, now)).None?
    ensures r.None? ==> store.items == old(store.items)
    ensures r.Some? ==>
              r.value == Fresh(instance, addresses, signer.address.value,
                               signer.signTypedData(Request(instance, addresses, now)).value, now)
              && store.items == old(store.items)[StorageKey(signer.address.value, r.value.contractAddresses) := GrantRecord(r.value)]
  {
    if signer.address.None? {
      return None;
    }
    var userAddress := signer.address.value;
    var keyPair := instance.keyPair;
    var startTimestamp := now;
    var durationDays := GrantDays;
    var sortedAddresses := Sort(addresses);
    var eip712 := UserDecryptTypedData(instance.domain, keyPair.publicKey, sortedAddresses, startTimestamp, durationDays);
    var signature := signer.signTypedData(eip712);
    if signature.None? {
      return None;
    }
    var sig := Construct(Grant(keyPair.publicKey, keyPair.privateKey, sortedAddresses, startTimestamp, durationDays,
                               signature.value, userAddress, eip712));
    ConstructIdempotent(Grant(keyPair.publicKey, keyPair.privateKey, addresses, startTimestamp, durationDays,
                              signature.value, userAddress, eip712));
    SaveToStorage(store, sig);
    return Some(sig);
  }

  /** `loadOrSign` fails outright (the promise rejects) when the signer cannot give its address. */
  datatype SignerFailure = AddressUnavailable

  /** What `loadOrSign` settles to, and the store it leaves behind. */
  datatype SignOutcome = SignOutcome(result: Result<Option<Grant>, SignerFailure>, items: map<string, Item>)

  /**
   * The effect of `loadOrSign(instance, addresses, signer)` at time `now`: a live cached grant
   * is returned without signing; otherwise (absent, unreadable or expired, the last being
   * evicted) a new grant is signed and saved, or null when the wallet refuses to sign.
   */
  function LoadOrSignResult(items: map<string, Item>, instance: SigningInstance, addresses: seq<string>,
                            signer: Signer, now: int): (out: SignOutcome)
    ensures signer.address.None? ==> out == SignOutcome(Err(AddressUnavailable), items)
    ensures signer.address.Some? ==>
              var cached := Load(items, StorageKey(signer.address.value, addresses), now);
              (cached.grant.Some? ==> out == SignOutcome(Ok(cached.grant), items))
              && (cached.grant.None? ==>
                    var sig := signer.signTypedData(Request(instance, addresses, now));
                    (sig.None? ==> out == SignOutcome(Ok(None), cached.items))
                    && (sig.Some? ==>
                          var g := Fresh(instance, addresses, signer.address.value, sig.value, now);
                          out == SignOutcome(Ok(Some(g)),
                                             cached.items[StorageKey(signer.address.value, g.contractAddresses) := GrantRecord(g)])))
    ensures out.result.Ok? && out.result.value.Some? ==>
              var g := out.result.value.value;
              !Expired(g, now) && Sorted(g.contractAddresses)
              && Load(out.items, StorageKey(signer.address.value, addresses), now) == LoadOutcome(Some(g), out.items)
  {
    if signer.address.None? then SignOutcome(Err(AddressUnavailable), items)
    else
      var user := signer.address.value;
      var cached := Load(items, StorageKey(user, addresses), now);
      if cached.grant.Some? then
        LoadTwice(items, StorageKey(user, addresses), now);
        SignOutcome(Ok(cached.grant), items)
      else
        var signature := signer.signTypedData(Request(instance, addresses, now));
        if signature.None? then SignOutcome(Ok(None), cached.items)
        else
          var g := Fresh(instance, addresses, user, signature.value, now);
          var saved := cached.items[StorageKey(user, g.contractAddresses) := GrantRecord(g)];
          FreshThenLoad(cached.items, instance, addresses, user, signature.value, now, now);
          LoadTwice(saved, StorageKey(user, addresses), now);
          SignOutcome(Ok(Some(g)), saved)
  }

  /** `loadOrSign(instance, addresses, signer)`: the cached grant or a newly signed one. */
  method LoadOrSign(store: LocalStorage, instance: SigningInstance, addresses: seq<string>, signer: Signer, now: int)
    returns (r: Result<Option<Grant>, SignerFailure>)
    modifies store
    ensures var out := LoadOrSignResult(old(store.items), instance, addresses, signer, now);
            r == out.result && store.items == out.items
  {
    if signer.address.None? {
      return Err(AddressUnavailable);
    }
    var userAddress := signer.address.value;
    var stored := LoadFromStorage(store, userAddress, addresses, now);
    if stored.Some? {
      return Ok(stored);
    }
    var created := Create(store, instance, addresses, signer, now);
    return Ok(created);
  }
}
