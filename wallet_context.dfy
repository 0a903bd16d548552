/**
 * The wallet provider: three pieces of state (`address`, `isConnected`,
 * `isConnecting`) kept in step with the browser wallet extension. Whether the
 * extension is installed and what `getActiveAddress()` resolves to are given
 * to each method as parameters.
 */
module WalletContext {
  import opened Js

  /** The payload of a `walletSwitch` event: `e.detail` may be missing, and `e.detail.address` may be undefined. */
  datatype SwitchEvent = NoDetail | Detail(address: Option<string>)

  class WalletProvider {
    var address: Option<string>
    var isConnected: bool
    var isConnecting: bool

    /** The state a freshly mounted provider starts in: no address, not connected, not connecting. */
    constructor ()
      ensures address == None && !isConnected && !isConnecting
    {
      address := None;
      isConnected := false;
      isConnecting := false;
    }

    /**
     * The mount-time `checkConnection` and the `arweaveWalletLoaded` handler:
     * a truthy active address marks the session connected with that address;
     * no extension, a thrown call or an empty address changes nothing.
     */
    method AdoptActiveAddress(walletPresent: bool, active: Reply<string>)
      modifies this
      ensures isConnecting == old(isConnecting)
      ensures if walletPresent && active.Returned? && active.value != []
              then address == Some(active.value) && isConnected
              else address == old(address) && isConnected == old(isConnected)
    {
      if walletPresent && active.Returned? {
        var addr := active.value;
        if addr != [] {
          address := Some(addr);
          isConnected := true;
        }
      }
    }

    method CheckConnection(walletPresent: bool, active: Reply<string>)
      modifies this
      ensures isConnecting == old(isConnecting)
      ensures if walletPresent && active.Returned? && active.value != []
              then address == Some(active.value) && isConnected
              else address == old(address) && isConnected == old(isConnected)
    {
      AdoptActiveAddress(walletPresent, active);
    }

    method HandleWalletLoaded(walletPresent: bool, active: Reply<string>)
      modifies this
      ensures isConnecting == old(isConnecting)
      ensures if walletPresent && active.Returned? && active.value != []
              then address == Some(active.value) && isConnected
              else address == old(address) && isConnected == old(isConnected)
    {
      AdoptActiveAddress(walletPresent, active);
    }

    /**
     * The `walletSwitch` handler: the address becomes whatever the event
     * carries (undefined included); the connected flag is never touched. A
     * missing `e.detail` throws inside the handler and is caught.
     */
    method HandleWalletSwitch(e: SwitchEvent)
      modifies this
      ensures isConnected == old(isConnected) && isConnecting == old(isConnecting)
      ensures address == if e.Detail? then e.address else old(address)
    {
      if e.Detail? {
        address := e.address;
      }
    }

    /**
     * The synchronous start of `connect`: without the extension it returns
     * at once and changes nothing; otherwise the provider is marked connecting
     * before `getActiveAddress()` is awaited.
     */
    method BeginConnect(walletPresent: bool) returns (started: bool)
      modifies this
      ensures started == walletPresent
      ensures address == old(address) && isConnected == old(isConnected)
      ensures isConnecting == if walletPresent then true else old(isConnecting)
    {
      started := walletPresent;
      if started {
        isConnecting := true;
      }
    }

    /**
     * The rest of `connect`, once `getActiveAddress()` settles: a resolved
     * address is adopted and marks the session connected, a thrown call leaves
     * both alone, and connecting is cleared on either path (`finally`).
     */
    method FinishConnect(active: Reply<string>)
      modifies this
      ensures !isConnecting
      ensures active.Returned? ==> address == Some(active.value) && isConnected
      ensures active.Threw? ==> address == old(address) && isConnected == old(isConnected)
    {
      if active.Returned? {
        address := Some(active.value);
        isConnected := true;
      }
      isConnecting := false;
    }

    /** `connect`, start to finish, when nothing else runs while it awaits. */
    method Connect(walletPresent: bool, active: Reply<string>)
      modifies this
      ensures !walletPresent ==>
        address == old(address) && isConnected == old(isConnected) && isConnecting == old(isConnecting)
      ensures walletPresent ==> !isConnecting
      ensures walletPresent && active.Returned? ==> address == Some(active.value) && isConnected
      ensures walletPresent && active.Threw? ==> address == old(address) && isConnected == old(isConnected)
    {
      var started := BeginConnect(walletPresent);
      if started {
        FinishConnect(active);
      }
    }

    /** `disconnect`: forget the address and the connection; connecting is untouched. */
    method Disconnect()
      modifies this
      ensures address == None && !isConnected && isConnecting == old(isConnecting)
    {
      address := None;
      isConnected := false;
    }
  }
}
