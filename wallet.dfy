/** The wallet context: the connected account, the connection flags, and the two keys it keeps in
    the browser's local storage. */
module Wallet {
  import opened Wrappers

  const ConnectedKey := "walletConnected"
  const AccountKey := "walletAccount"
  const NoProviderError := "useWallet must be used within a WalletProvider"

  /** Local storage, key to value. */
  type Storage = map<string, string>

  /** What an `eth_requestAccounts` or `eth_accounts` request gave back. */
  datatype AccountsReply = Accounts(accounts: seq<string>) | RequestFailed

  /** `localStorage.getItem(key)` is truthy: present and not empty. */
  predicate StoredFlag(storage: Storage, key: string)
  {
    key in storage && storage[key] != ""
  }

  /** The value the context hands to consumers. */
  datatype WalletContext = WalletContext(account: Option<string>, isConnected: bool, isConnecting: bool, hasProvider: bool)

  /** `useWallet`: the context, or the error it throws outside a provider. */
  function UseWallet(ctx: Option<WalletContext>): (r: Result<WalletContext, string>)
    ensures ctx.None? <==> r == Err(NoProviderError)
    ensures ctx.Some? ==> r == Ok(ctx.value)
  {
    if ctx.None? then Err(NoProviderError) else Ok(ctx.value)
  }

  /** The provider's state; `hasProvider` says whether the `provider` state holds a browser
      provider. */
  class WalletProvider {
    var account: Option<string>
    var isConnected: bool
    var isConnecting: bool
    var hasProvider: bool
    var storage: Storage

    /** A connected wallet always has an account. */
    ghost predicate Valid()
      reads this
    {
      isConnected ==> account.Some?
    }

    /** The value handed to consumers: the provider's state, so a consumer that sees a connected
        wallet also sees its account. */
    function Context(): (c: WalletContext)
      requires Valid()
      reads this
      ensures c.isConnected ==> c.account.Some?
      ensures c.account == account && c.isConnected == isConnected
      ensures c.isConnecting == isConnecting && c.hasProvider == hasProvider
    {
      WalletContext(account, isConnected, isConnecting, hasProvider)
    }

    /** Mounting over whatever local storage already holds. */
    constructor(stored: Storage)
      ensures Valid()
      ensures account == None && !isConnected && !isConnecting && !hasProvider && storage == stored
    {
      account := None;
      isConnected := false;
      isConnecting := false;
      hasProvider := false;
      storage := stored;
    }

    /** `connect`, with `extensionPresent` whether `window.ethereum` exists. Without it the user is
        alerted and nothing changes. Otherwise a non-empty reply connects its first account and
        stores both keys; an empty or failed reply changes nothing but the busy flag, which is clear
        at the end. */
    method Connect(extensionPresent: bool, reply: AccountsReply) returns (alerted: bool)
      requires Valid()
      modifies this
      ensures Valid()
      ensures alerted <==> !extensionPresent
      ensures !extensionPresent ==>
        && account == old(account) && isConnected == old(isConnected) && isConnecting == old(isConnecting)
        && hasProvider == old(hasProvider) && storage == old(storage)
      ensures extensionPresent ==> !isConnecting
      ensures extensionPresent && reply.Accounts? && |reply.accounts| > 0 ==>
        && account == Some(reply.accounts[0]) && isConnected && hasProvider
        && storage == old(storage)[ConnectedKey := "true"][AccountKey := reply.accounts[0]]
      ensures extensionPresent && (reply.RequestFailed? || reply.accounts == []) ==>
        account == old(account) && isConnected == old(isConnected) && hasProvider == old(hasProvider) && storage == old(storage)
    {
      if !extensionPresent {
        return true;
      }
      alerted := false;
      isConnecting := true;
      if reply.Accounts? && |reply.accounts| > 0 {
        account := Some(reply.accounts[0]);
        isConnected := true;
        hasProvider := true;
        storage := storage[ConnectedKey := "true"];
        storage := storage[AccountKey := reply.accounts[0]];
      }
      isConnecting := false;
    }

    /** `disconnect`: no account, no connection, no provider, neither key stored. */
    method Disconnect()
      requires Valid()
      modifies this
      ensures Valid()
      ensures account == None && !isConnected && !hasProvider
      ensures storage == old(storage) - {ConnectedKey, AccountKey}
      ensures isConnecting == old(isConnecting)
    {
      account := None;
      isConnected := false;
      hasProvider := false;
      storage := storage - {ConnectedKey};
      storage := storage - {AccountKey};
    }

    /** `checkConnection` on mount: only with the extension present and the connected flag stored
        does a non-empty `eth_accounts` reply restore the connection; storage is not written. */
    method CheckConnection(extensionPresent: bool, reply: AccountsReply)
      requires Valid()
      modifies this
      ensures Valid()
      ensures storage == old(storage) && isConnecting == old(isConnecting)
      ensures extensionPresent && StoredFlag(old(storage), ConnectedKey) && reply.Accounts? && |reply.accounts| > 0 ==>
        account == Some(reply.accounts[0]) && isConnected && hasProvider
      ensures !(extensionPresent && StoredFlag(old(storage), ConnectedKey) && reply.Accounts? && |reply.accounts| > 0) ==>
        account == old(account) && isConnected == old(isConnected) && hasProvider == old(hasProvider)
    {
      if extensionPresent && StoredFlag(storage, ConnectedKey) {
        if reply.Accounts? && |reply.accounts| > 0 {
          account := Some(reply.accounts[0]);
          isConnected := true;
          hasProvider := true;
        }
      }
    }

    /** The `accountsChanged` listener: an empty list disconnects; otherwise the first account
        replaces the current one and is stored, and the connection flag is left as it was. */
    method AccountsChanged(accounts: seq<string>)
      requires Valid()
      modifies this
      ensures Valid()
      ensures isConnecting == old(isConnecting)
      ensures accounts == [] ==>
        account == None && !isConnected && !hasProvider && storage == old(storage) - {ConnectedKey, AccountKey}
      ensures accounts != [] ==>
        && account == Some(accounts[0]) && isConnected == old(isConnected) && hasProvider == old(hasProvider)
        && storage == old(storage)[AccountKey := accounts[0]]
    {
      if |accounts| == 0 {
        Disconnect();
      } else {
        account := Some(accounts[0]);
        storage := storage[AccountKey := accounts[0]];
      }
    }
  }

  /** A connection survives a reload: after a successful connect, a provider mounted over the same
      storage restores the account the wallet then reports. */
  method ReloadRestores(w: WalletProvider, accounts: seq<string>, current: seq<string>) returns (reloaded: WalletProvider)
    requires w.Valid() && accounts != [] && current != []
    modifies w
    ensures reloaded.isConnected && reloaded.account == Some(current[0])
    ensures reloaded.storage == w.storage && StoredFlag(reloaded.storage, ConnectedKey)
    ensures AccountKey in w.storage && w.storage[AccountKey] == accounts[0]
  {
    var _ := w.Connect(true, Accounts(accounts));
    reloaded := new WalletProvider(w.storage);
    reloaded.CheckConnection(true, Accounts(current));
  }

  /** After a disconnect, a reload restores nothing whatever the extension reports. */
  method DisconnectForgets(w: WalletProvider, current: seq<string>) returns (reloaded: WalletProvider)
    requires w.Valid()
    modifies w
    ensures !reloaded.isConnected && reloaded.account == None
  {
    w.Disconnect();
    reloaded := new WalletProvider(w.storage);
    reloaded.CheckConnection(true, Accounts(current));
  }
}
