/** The address abbreviation used by the wallet header and the escrow page:
    `${address.slice(0, 6)}...${address.slice(-4)}`. */
module Address {
  const Ellipsis := "..."

  /** Length of `slice(0, 6)`: six characters, or the whole string when shorter. */
  function HeadLength(a: string): (n: nat)
    ensures n <= |a| && (n == 6 || n == |a|) && n <= 6
  {
    if |a| < 6 then |a| else 6
  }

  /** Start of `slice(-4)`: four from the end, clamped to the start of the string. */
  function TailStart(a: string): (n: nat)
    ensures n <= |a| && |a| - n <= 4 && (|a| - n == 4 || n == 0)
  {
    if |a| < 4 then 0 else |a| - 4
  }

  /** `formatAddress`. */
  function FormatAddress(a: string): (r: string)
    ensures |r| == HeadLength(a) + 3 + (|a| - TailStart(a))
    ensures r[..HeadLength(a)] == a[..HeadLength(a)]
    ensures r[HeadLength(a)..HeadLength(a) + 3] == Ellipsis
    ensures r[HeadLength(a) + 3..] == a[TailStart(a)..]
    ensures |a| >= 10 ==> |r| == 13
  {
    a[..HeadLength(a)] + Ellipsis + a[TailStart(a)..]
  }

  /** For addresses of ten characters or more, two abbreviations agree exactly when the first six
      and the last four characters agree; what lies between is not shown. */
  lemma FormatAddressSameIff(a: string, b: string)
    requires |a| >= 10 && |b| >= 10
    ensures FormatAddress(a) == FormatAddress(b) <==> a[..6] == b[..6] && a[|a| - 4..] == b[|b| - 4..]
  {
    var ra, rb := FormatAddress(a), FormatAddress(b);
    if ra == rb {
      assert a[..6] == ra[..6] == rb[..6] == b[..6];
      assert a[|a| - 4..] == ra[9..] == rb[9..] == b[|b| - 4..];
    }
  }

  /** A string of at most four characters is shown whole on both sides of the ellipsis. */
  lemma ShortAddress(a: string)
    requires |a| <= 4
    ensures FormatAddress(a) == a + Ellipsis + a
  {
  }
}
