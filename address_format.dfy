/**
 * The short form both cards show for an account address: the first six
 * characters, "...", and the last four, with JavaScript's `substring`
 * clamping for addresses shorter than that.
 */
module AddressFormat {

  function Min(a: int, b: int): int {
    if a <= b then a else b
  }

  /**
   * `${address.substring(0, 6)}...${address.substring(address.length - 4)}`.
   * `substring(0, 6)` stops at the end of a shorter string, and a negative
   * start `length - 4` counts as 0.
   */
  function FormatAddress(address: string): (r: string)
    ensures |r| == Min(6, |address|) + 3 + Min(4, |address|)
    ensures |address| >= 6 ==> |r| == 13
    ensures r[..Min(6, |address|)] == address[..Min(6, |address|)]
    ensures r[Min(6, |address|)..Min(6, |address|) + 3] == "..."
    ensures r[|r| - Min(4, |address|)..] == address[|address| - Min(4, |address|)..]
  {
    var prefix := address[..Min(6, |address|)];
    var start := if |address| - 4 < 0 then 0 else |address| - 4;
    prefix + "..." + address[start..]
  }

  /**
   * The short form hides everything between the first six and the last four
   * characters: two addresses that agree there look the same on a card.
   */
  lemma SameEndsSameShortForm(a: string, b: string)
    requires |a| >= 6 && |b| >= 6
    requires a[..6] == b[..6] && a[|a| - 4..] == b[|b| - 4..]
    ensures FormatAddress(a) == FormatAddress(b)
  {
  }
}
