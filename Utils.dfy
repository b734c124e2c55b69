/** Address and id shortening of frontend/app/lib/utils.ts. */
module Utils {
  import opened JsString

  function Min(a: nat, b: nat): nat {
    if a < b then a else b
  }

  /** `${s.slice(0, head)}...${s.slice(-tail)}`: the shape every shortened address and hash
      has. Long strings keep their first head and last tail characters around "...". */
  function Shorten(s: string, head: nat, tail: nat): (r: string)
    requires tail > 0
    ensures var h, t := Min(|s|, head), Min(|s|, tail);
      && |r| == h + 3 + t
      && r[..h] == s[..h]
      && r[h..h + 3] == "..."
      && r[h + 3..] == s[|s| - t..]
    ensures |s| >= head + tail ==>
      && |r| == head + 3 + tail
      && r[..head] == s[..head]
      && r[head..head + 3] == "..."
      && r[head + 3..] == s[|s| - tail..]
  {
    Take(s, head) + "..." + TakeLast(s, tail)
  }

  /** `shortenAddress`: first 6 characters, "...", last 4 characters. */
  function ShortenAddress(address: string): (r: string)
    ensures |address| >= 10 ==>
      && |r| == 13
      && r[..6] == address[..6]
      && r[6..9] == "..."
      && r[9..] == address[|address| - 4..]
    ensures r == Take(address, 6) + "..." + TakeLast(address, 4)
  {
    Shorten(address, 6, 4)
  }

  /** `formatEventId`: "#" and the first 8 characters of the id. */
  function FormatEventId(id: string): (r: string)
    ensures |r| == 1 + (if |id| < 8 then |id| else 8)
    ensures r[0] == '#' && r[1..] <= id
    ensures |id| <= 8 ==> r == "#" + id
  {
    "#" + Take(id, 8)
  }
}
