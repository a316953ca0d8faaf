/**
 * The wallet session hook (`useWallet`): the connection state, its persistence under the five
 * `wallet.*` keys of `localStorage`, the purge of cached decryption grants when the session
 * ends or the account changes, and the silent reconnect that picks the remembered wallet by
 * its EIP-6963 uuid first and by its rdns second. The wallet's replies are parameters.
 */
module Wallet {
  import opened Common
  import opened JsString
  import opened Storage
  import DecryptionSignature

  /** EIP-6963 provider info and detail, as announced by a wallet. */
  datatype ProviderInfo = ProviderInfo(uuid: string, name: string, icon: string, rdns: string)
  datatype ProviderDetail = ProviderDetail(info: ProviderInfo, provider: ObjectRef)

  datatype WalletState = WalletState(
    isConnected: bool,
    address: Option<string>,
    chainId: Option<int>,
    provider: Option<ObjectRef>,
    signer: Option<ObjectRef>,
    rawProvider: Option<ObjectRef>)

  const Disconnected := WalletState(false, None, None, None, None, None)

  const ConnectedKey: string := "wallet.connected"
  const ConnectorIdKey: string := "wallet.lastConnectorId"
  const ConnectorRdnsKey: string := "wallet.lastConnectorRdns"
  const AccountsKey: string := "wallet.lastAccounts"
  const ChainIdKey: string := "wallet.lastChainId"

  /** The five keys a session persists. */
  const SessionKeys: set<string> := {ConnectedKey, ConnectorIdKey, ConnectorRdnsKey, AccountsKey, ChainIdKey}
  /** The three keys that name the remembered connector. */
  const ConnectorKeys: set<string> := {ConnectedKey, ConnectorIdKey, ConnectorRdnsKey}

  /** What the wallet answers while connecting: the accounts request, `getSigner` and `getNetwork`. */
  datatype ConnectReply = ConnectReply(accounts: Option<seq<string>>, signer: Option<ObjectRef>, chainId: Option<int>)

  predicate ConnectSucceeds(reply: ConnectReply) {
    reply.accounts.Some? && |reply.accounts.value| > 0 && reply.signer.Some? && reply.chainId.Some?
  }

  // ---------------------------------------------------------------------------
  // Storage effects

  /** The store with every cached decryption grant (every key under the grant prefix) removed. */
  function WithoutGrants(items: map<string, Item>): (r: map<string, Item>)
    ensures forall k :: k in r <==> k in items && !StartsWith(k, DecryptionSignature.KeyPrefix)
    ensures forall k :: k in r ==> r[k] == items[k]
  {
    map k | k in items && !StartsWith(k, DecryptionSignature.KeyPrefix) :: items[k]
  }

  /** The purge leaves no grant that `loadFromStorage` could return, for any user and contracts. */
  lemma NoGrantAfterPurge(items: map<string, Item>, user: string, addresses: seq<string>, now: int)
    ensures DecryptionSignature.Load(WithoutGrants(items), DecryptionSignature.StorageKey(user, addresses), now).grant.None?
  {
  }

  /** The session keys are not under the grant prefix, so purging grants keeps them. */
  lemma SessionKeysSurvivePurge(items: map<string, Item>, k: string)
    requires k in SessionKeys && k in items
    ensures k in WithoutGrants(items) && WithoutGrants(items)[k] == items[k]
  {
    assert !StartsWith(k, DecryptionSignature.KeyPrefix) by {
      assert k[..|k|] == k;
      assert k[|k| - 1] != DecryptionSignature.KeyPrefix[|k| - 1];
    }
  }

  /** The store after a successful connect: the five session keys written, in the source's order. */
  function Persisted(items: map<string, Item>, wallet: ProviderDetail, accounts: seq<string>, chainId: int)
    : (r: map<string, Item>)
    ensures r.Keys == items.Keys + SessionKeys
    ensures forall k :: k in items && k !in SessionKeys ==> r[k] == items[k]
    ensures r[ConnectedKey] == Text("true") && r[ConnectorIdKey] == Text(wallet.info.uuid)
    ensures r[ConnectorRdnsKey] == Text(wallet.info.rdns) && r[AccountsKey] == AccountList(accounts)
    ensures r[ChainIdKey] == Text(IntToDecimal(chainId))
  {
    items[ConnectedKey := Text("true")]
         [ConnectorIdKey := Text(wallet.info.uuid)]
         [ConnectorRdnsKey := Text(wallet.info.rdns)]
         [AccountsKey := AccountList(accounts)]
         [ChainIdKey := Text(IntToDecimal(chainId))]
  }

  /** The state and store `connectWallet` leaves: unchanged unless every reply succeeded. */
  function Connected(state: WalletState, items: map<string, Item>, wallet: ProviderDetail, reply: ConnectReply)
    : (r: (WalletState, map<string, Item>))
    ensures !ConnectSucceeds(reply) ==> r == (state, items)
    ensures ConnectSucceeds(reply) ==>
              r.0.isConnected && r.0.address == Some(reply.accounts.value[0]) && r.0.chainId == reply.chainId
              && r.0.signer == reply.signer && r.0.provider == Some(wallet.provider) && r.0.rawProvider == Some(wallet.provider)
    ensures ConnectSucceeds(reply) ==> r.1 == Persisted(items, wallet, reply.accounts.value, reply.chainId.value)
  {
    if !ConnectSucceeds(reply) then (state, items)
    else
      var accounts := reply.accounts.value;
      (WalletState(true, Some(accounts[0]), reply.chainId, Some(wallet.provider), reply.signer, Some(wallet.provider)),
       Persisted(items, wallet, accounts, reply.chainId.value))
  }

  // ---------------------------------------------------------------------------
  // Reconnect selection

  /** The text stored under `key`, when there is one. */
  function StoredText(items: map<string, Item>, key: string): (r: Option<string>)
    ensures r.Some? <==> key in items && items[key].Text?
  {
    if key in items && items[key].Text? then Some(items[key].text) else None
  }

  /** A stored string is truthy when it is present and not empty. */
  predicate Truthy(items: map<string, Item>, key: string) {
    StoredText(items, key).Some? && StoredText(items, key).value != ""
  }

  /** `Array.prototype.findIndex`: the first position whose element satisfies `p`. */
  function FindIndex(ws: seq<ProviderDetail>, p: ProviderDetail -> bool): (r: Option<nat>)
    ensures r.Some? ==> r.value < |ws| && p(ws[r.value]) && forall j :: 0 <= j < r.value ==> !p(ws[j])
    ensures r.None? ==> forall j :: 0 <= j < |ws| ==> !p(ws[j])
  {
    if ws == [] then None
    else if p(ws[0]) then Some(0)
    else
      match FindIndex(ws[1..], p)
      case None => None
      case Some(i) => Some(i + 1)
  }

  /** `w => w.info.uuid === stored` and `w => w.info.rdns === stored` (a missing value matches nothing). */
  function UuidIs(stored: Option<string>): ProviderDetail -> bool {
    (w: ProviderDetail) => stored == Some(w.info.uuid)
  }

  function RdnsIs(stored: Option<string>): ProviderDetail -> bool {
    (w: ProviderDetail) => stored == Some(w.info.rdns)
  }

  /** The reconnect condition: `wallet.connected` is "true", a connector id or rdns is stored, wallets exist. */
  predicate ShouldReconnect(items: map<string, Item>, walletCount: nat) {
    StoredText(items, ConnectedKey) == Some("true")
    && (Truthy(items, ConnectorIdKey) || Truthy(items, ConnectorRdnsKey))
    && walletCount > 0
  }

  /** The wallet to reconnect: the first with the stored uuid, else (when an rdns is stored) the first with that rdns. */
  function Pick(ws: seq<ProviderDetail>, items: map<string, Item>): (r: Option<nat>)
    ensures r.Some? ==> r.value < |ws|
  {
    var id := StoredText(items, ConnectorIdKey);
    var rdns := StoredText(items, ConnectorRdnsKey);
    var byUuid := FindIndex(ws, UuidIs(id));
    if byUuid.None? && Truthy(items, ConnectorRdnsKey) then FindIndex(ws, RdnsIs(rdns))
    else byUuid
  }

  /** A wallet that carries the stored uuid wins, and it is the first such wallet in the list. */
  lemma PickPrefersUuid(ws: seq<ProviderDetail>, items: map<string, Item>, i: nat)
    requires i < |ws| && StoredText(items, ConnectorIdKey) == Some(ws[i].info.uuid)
    requires forall j :: 0 <= j < i ==> StoredText(items, ConnectorIdKey) != Some(ws[j].info.uuid)
    ensures Pick(ws, items) == Some(i)
  {
    var id := StoredText(items, ConnectorIdKey);
    assert UuidIs(id)(ws[i]);
  }

  /** No wallet carries the stored uuid: the first one with the stored rdns is picked, if any. */
  lemma PickFallsBackToRdns(ws: seq<ProviderDetail>, items: map<string, Item>)
    requires forall j :: 0 <= j < |ws| ==> StoredText(items, ConnectorIdKey) != Some(ws[j].info.uuid)
    requires Truthy(items, ConnectorRdnsKey)
    ensures var r := Pick(ws, items);
            var rdns := StoredText(items, ConnectorRdnsKey);
            (r.Some? ==> rdns == Some(ws[r.value].info.rdns)
                         && forall j :: 0 <= j < r.value ==> rdns != Some(ws[j].info.rdns))
            && (r.None? ==> forall j :: 0 <= j < |ws| ==> rdns != Some(ws[j].info.rdns))
  {
    var id := StoredText(items, ConnectorIdKey);
    assert forall j :: 0 <= j < |ws| ==> !UuidIs(id)(ws[j]);
  }

  /**
   * A successful connect is what the next page load reconnects to: the persisted session
   * passes the reconnect condition and the selection finds the connected wallet again (the
   * first listed wallet with its uuid).
   */
  lemma ReconnectAfterConnect(items: map<string, Item>, state: WalletState, wallet: ProviderDetail,
                              reply: ConnectReply, ws: seq<ProviderDetail>, i: nat)
    requires ConnectSucceeds(reply) && wallet.info.uuid != ""
    requires i < |ws| && ws[i].info.uuid == wallet.info.uuid
    requires forall j :: 0 <= j < i ==> ws[j].info.uuid != wallet.info.uuid
    ensures var after := Connected(state, items, wallet, reply).1;
            ShouldReconnect(after, |ws|) && Pick(ws, after) == Some(i)
  {
    var after := Connected(state, items, wallet, reply).1;
    assert StoredText(after, ConnectorIdKey) == Some(wallet.info.uuid);
    PickPrefersUuid(ws, after, i);
  }

  // ---------------------------------------------------------------------------
  // The hook

  class WalletSession {
    var state: WalletState
    var availableWallets: seq<ProviderDetail>
    var isConnecting: bool
    const store: LocalStorage

    constructor (store: LocalStorage)
      ensures state == Disconnected && availableWallets == [] && !isConnecting && this.store == store
    {
      state := Disconnected;
      availableWallets := [];
      isConnecting := false;
      this.store := store;
    }

    /** An `eip6963:announceProvider` event: the wallet joins the list. */
    method Announce(detail: ProviderDetail)
      modifies this
      ensures availableWallets == old(availableWallets) + [detail]
      ensures state == old(state) && isConnecting == old(isConnecting)
    {
      availableWallets := availableWallets + [detail];
    }

    /** The 100 ms fallback: with no announced wallet, an injected `window.ethereum` becomes the only one. */
    method InjectedFallback(ethereum: Option<ObjectRef>)
      modifies this
      ensures old(availableWallets) == [] && ethereum.Some? ==>
                availableWallets == [ProviderDetail(ProviderInfo("fallback", "Injected Wallet", "", "injected"), ethereum.value)]
      ensures !(old(availableWallets) == [] && ethereum.Some?) ==> availableWallets == old(availableWallets)
      ensures state == old(state) && isConnecting == old(isConnecting)
    {
      if |availableWallets| == 0 && ethereum.Some? {
        availableWallets := [ProviderDetail(ProviderInfo("fallback", "Injected Wallet", "", "injected"), ethereum.value)];
      }
    }

    /**
     * `connectWallet(wallet)`: nothing is set or persisted unless the accounts request returns
     * a non-empty list and the signer and network are obtained ("No accounts found" and any
     * other failure are caught). The listener registration is left out.
     */
    method ConnectWallet(wallet: ProviderDetail, reply: ConnectReply)
      modifies this, store
      ensures (state, store.items) == Connected(old(state), old(store.items), wallet, reply)
      ensures !isConnecting && availableWallets == old(availableWallets)
    {
      isConnecting := true;
      if reply.accounts.None? || |reply.accounts.value| == 0 || reply.signer.None? || reply.chainId.None? {
        isConnecting := false;
        return;
      }
      var accounts := reply.accounts.value;
      var chainId := reply.chainId.value;
      state := WalletState(true, Some(accounts[0]), Some(chainId), Some(wallet.provider), reply.signer, Some(wallet.provider));
      store.SetItem(ConnectedKey, Text("true"));
      store.SetItem(ConnectorIdKey, Text(wallet.info.uuid));
      store.SetItem(ConnectorRdnsKey, Text(wallet.info.rdns));
      store.SetItem(AccountsKey, AccountList(accounts));
      store.SetItem(ChainIdKey, Text(IntToDecimal(chainId)));
      isConnecting := false;
    }

    /** Removes every key under the grant prefix, visiting the keys present when it starts. */
    method PurgeGrants()
      modifies store
      ensures store.items == WithoutGrants(old(store.items))
    {
      var keys := store.items.Keys;
      ghost var start := store.items;
      while keys != {}
        invariant keys <= start.Keys
        invariant store.items == map k | k in start && (k in keys || !StartsWith(k, DecryptionSignature.KeyPrefix)) :: start[k]
        decreases |keys|
      {
        var key :| key in keys;
        if StartsWith(key, DecryptionSignature.KeyPrefix) {
          store.RemoveItem(key);
        }
        keys := keys - {key};
      }
    }

    /** `disconnectWallet()`: every field null, the five session keys and every cached grant removed, nothing else. */
    method DisconnectWallet()
      modifies this, store
      ensures state == Disconnected
      ensures store.items == WithoutGrants(old(store.items) - SessionKeys)
      ensures availableWallets == old(availableWallets) && isConnecting == old(isConnecting)
    {
      state := Disconnected;
      store.RemoveItem(ConnectedKey);
      store.RemoveItem(ConnectorIdKey);
      store.RemoveItem(ConnectorRdnsKey);
      store.RemoveItem(AccountsKey);
      store.RemoveItem(ChainIdKey);
      assert store.items == old(store.items) - SessionKeys;
      PurgeGrants();
    }

    /**
     * `accountsChanged(accounts)`: an empty list disconnects; otherwise, when a provider is held,
     * the address and signer are replaced, the accounts persisted and every cached grant purged.
     * `signer` is what `provider.getSigner()` settles to, `None` when it rejects: the handler
     * then stops before any update and the page is not reloaded. `reload` says whether the
     * page is reloaded.
     */
    method HandleAccountsChanged(accounts: seq<string>, signer: Option<ObjectRef>) returns (reload: bool)
      modifies this, store
      ensures reload <==> |accounts| > 0 && (old(state.provider).None? || signer.Some?)
      ensures |accounts| == 0 ==> state == Disconnected && store.items == WithoutGrants(old(store.items) - SessionKeys)
      ensures |accounts| > 0 && old(state.provider).Some? && signer.Some? ==>
                state == old(state).(address := Some(accounts[0]), signer := signer)
                && store.items == WithoutGrants(old(store.items)[AccountsKey := AccountList(accounts)])
      ensures |accounts| > 0 && old(state.provider).Some? && signer.None? ==>
                state == old(state) && store.items == old(store.items)
      ensures |accounts| > 0 && old(state.provider).None? ==> state == old(state) && store.items == old(store.items)
      ensures availableWallets == old(availableWallets) && isConnecting == old(isConnecting)
    {
      if |accounts| == 0 {
        DisconnectWallet();
        return false;
      }
      if state.provider.Some? {
        if signer.None? {
          return false;
        }
        state := state.(address := Some(accounts[0]), signer := signer);
        store.SetItem(AccountsKey, AccountList(accounts));
        PurgeGrants();
      }
      return true;
    }

    /**
     * The silent reconnect scheduled on page load, run only while disconnected. When the
     * reconnect condition holds it picks the remembered wallet; with no such wallet it clears
     * the three connector keys; when the wallet's `eth_accounts` reply fails or is empty it
     * clears all five session keys; otherwise it connects silently.
     */
    method Reconnect(accountsReply: Option<seq<string>>, reply: ConnectReply)
      modifies this, store
      ensures availableWallets == old(availableWallets)
      ensures old(state.isConnected) || !ShouldReconnect(old(store.items), |availableWallets|) ==>
                state == old(state) && store.items == old(store.items) && isConnecting == old(isConnecting)
      ensures !old(state.isConnected) && ShouldReconnect(old(store.items), |availableWallets|) ==>
                var pick := Pick(availableWallets, old(store.items));
                if pick.None? then
                  state == old(state) && store.items == old(store.items) - ConnectorKeys
                  && isConnecting == old(isConnecting)
                else if accountsReply.None? || |accountsReply.value| == 0 then
                  state == old(state) && store.items == old(store.items) - SessionKeys
                  && isConnecting == old(isConnecting)
                else
                  (state, store.items) == Connected(old(state), old(store.items), availableWallets[pick.value], reply)
                  && !isConnecting
    {
      if state.isConnected || !ShouldReconnect(store.items, |availableWallets|) {
        return;
      }
      var pick := Pick(availableWallets, store.items);
      if pick.None? {
        store.RemoveItem(ConnectedKey);
        store.RemoveItem(ConnectorIdKey);
        store.RemoveItem(ConnectorRdnsKey);
        assert store.items == old(store.items) - ConnectorKeys;
        return;
      }
      var wallet := availableWallets[pick.value];
      if accountsReply.None? || |accountsReply.value| == 0 {
        store.RemoveItem(ConnectedKey);
        store.RemoveItem(ConnectorIdKey);
        store.RemoveItem(ConnectorRdnsKey);
        store.RemoveItem(AccountsKey);
        store.RemoveItem(ChainIdKey);
        assert store.items == old(store.items) - SessionKeys;
        return;
      }
      ConnectWallet(wallet, reply);
    }
  }
}
