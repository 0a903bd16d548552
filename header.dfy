/**
 * The page header's wallet button: its label and which handler a click runs.
 */
module Header {
  import opened Js
  import opened JsString

  /**
   * `formatAddress`: "" for a missing or empty address, otherwise the first
   * four characters, "...", the last four (`slice(-4)` of a shorter address is
   * the whole address).
   */
  function FormatAddress(addr: Option<string>): (r: string)
    ensures !Truthy(addr) ==> r == []
    ensures Truthy(addr) ==>
      var a := addr.value; var n := if |a| < 4 then |a| else 4;
      && |r| == 2 * n + 3
      && r[..n] == a[..n] && r[n..n + 3] == "..." && r[n + 3..] == a[|a| - n..]
    ensures Truthy(addr) && |addr.value| >= 4 ==> |r| == 11
    ensures Truthy(addr) && |addr.value| < 4 ==> r == addr.value + "..." + addr.value
  {
    if !Truthy(addr) then []
    else SliceFront(addr.value, 4) + "..." + SliceBack(addr.value, 4)
  }

  /**
   * The button text: connecting beats connected, which beats the invitation
   * to connect. The label is empty exactly when the session is connected but
   * has no address, a state a wallet-switch event without an address leads to.
   */
  function ButtonLabel(isConnecting: bool, isConnected: bool, address: Option<string>): (r: string)
    ensures isConnecting ==> r == "Connecting..."
    ensures !isConnecting && isConnected ==> r == FormatAddress(address)
    ensures !isConnecting && !isConnected ==> r == "Connect Wallet"
    ensures r == [] <==> !isConnecting && isConnected && !Truthy(address)
  {
    if isConnecting then "Connecting..."
    else if isConnected then FormatAddress(address)
    else "Connect Wallet"
  }

  datatype ClickHandler = HandleDisconnect | HandleConnect

  /** A click disconnects a connected session and connects otherwise. */
  function ClickHandlerFor(isConnected: bool): (h: ClickHandler)
    ensures h == HandleDisconnect <==> isConnected
  {
    if isConnected then HandleDisconnect else HandleConnect
  }
}
