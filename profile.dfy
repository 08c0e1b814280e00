/**
 * The address line of components/profile-header.tsx: `truncateAddress`, the
 * "No address" fallback, and the guards of the copy and OpenSea buttons.
 * The clipboard and the browser window are not modelled: each handler
 * returns what it would write, show or open.
 */
module Profile {
  import opened Wrappers
  import opened JsString
  import Contract

  function Min(a: int, b: int): int {
    if a < b then a else b
  }

  /** `${address.slice(0, 6)}...${address.slice(-4)}`. */
  function TruncateAddress(address: string): (r: string)
    ensures var head := Min(6, |address|);
      var tail := Min(4, |address|);
      r == address[..head] + "..." + address[|address| - tail..]
    ensures |r| == Min(6, |address|) + 3 + Min(4, |address|)
  {
    Slice(address, 0, Some(6)) + "..." + Slice(address, -4, None)
  }

  /** A 42-character Ethereum address shows as its first 6 characters, "...", and its last 4. */
  lemma TruncateFullAddress(address: string)
    requires |address| == 42
    ensures |TruncateAddress(address)| == 13
    ensures TruncateAddress(address)[..6] == address[..6]
    ensures TruncateAddress(address)[6..9] == "..."
    ensures TruncateAddress(address)[9..] == address[38..]
  {
  }

  /** Short inputs are not padded: a string of at most four characters appears twice. */
  lemma TruncateShortAddress(address: string)
    requires |address| <= 4
    ensures TruncateAddress(address) == address + "..." + address
  {
    assert address[..|address|] == address;
    assert address[0..] == address;
  }

  /** `{address ? truncateAddress(address) : 'No address'}`. */
  function DisplayAddress(address: Option<string>): (r: string)
    ensures !Truthy(address) ==> r == "No address"
    ensures Truthy(address) ==> r == TruncateAddress(address.value)
  {
    if Truthy(address) then TruncateAddress(address.value) else "No address"
  }

  /** A connected address is never shown as the fallback text. */
  lemma DisplayDistinguishesConnected(address: Option<string>)
    requires Truthy(address)
    ensures DisplayAddress(address) != "No address"
  {
    var r := DisplayAddress(address);
    var head := Min(6, |address.value|);
    assert r[head] == '.';
  }

  const COPIED_NOTICE: Contract.Notice := Contract.Notice("Address copied", "Wallet address copied to clipboard", false)

  /** What `copyToClipboard` writes to the clipboard and the toast it shows, if anything. */
  datatype Copied = Copied(text: string, notice: Contract.Notice)

  function CopyToClipboard(address: Option<string>): (r: Option<Copied>)
    ensures r.Some? <==> Truthy(address)
    ensures r.Some? ==> r.value.text == address.value && r.value.notice == COPIED_NOTICE
  {
    if Truthy(address) then Some(Copied(address.value, COPIED_NOTICE)) else None
  }

  /** The URL and target `openOpensea` opens, if anything. */
  datatype Opened = Opened(url: string, target: string)

  function OpenOpensea(address: Option<string>): (r: Option<Opened>)
    ensures r.Some? <==> Truthy(address)
    ensures r.Some? ==> r.value.target == "_blank"
    ensures r.Some? ==> |r.value.url| > |address.value| && r.value.url[|r.value.url| - |address.value|..] == address.value
  {
    if Truthy(address) then Some(Opened("https://opensea.io/" + address.value, "_blank")) else None
  }
}
