/** The name given to a pair's private voice channel. */
module Naming {
  import opened Common

  /** How many characters of each display name the channel name keeps. */
  const NAME_PART_LENGTH: nat := 12

  const NAME_PREFIX: string := "Match: "
  const NAME_SEPARATOR: string := " & "

  /** Discord's limit on the length of a channel name. */
  const CHANNEL_NAME_LIMIT: nat := 100

  /** Python's `s[:n]`: the longest prefix of `s` with at most `n` characters. */
  function Truncate(s: string, n: nat): (r: string)
    ensures r <= s
    ensures |r| == Min(|s|, n)
    ensures |s| <= n ==> r == s
  {
    if |s| <= n then s else s[..n]
  }

  /** `vc_name_for`: "Match: ", the first twelve characters of the first
      display name, " & ", the first twelve of the second. */
  function VcNameFor(name1: string, name2: string): (r: string)
    ensures NAME_PREFIX <= r
    ensures |r| == |NAME_PREFIX| + Min(|name1|, NAME_PART_LENGTH) + |NAME_SEPARATOR| + Min(|name2|, NAME_PART_LENGTH)
    ensures |r| <= |NAME_PREFIX| + 2 * NAME_PART_LENGTH + |NAME_SEPARATOR| <= CHANNEL_NAME_LIMIT
  {
    NAME_PREFIX + Truncate(name1, NAME_PART_LENGTH) + NAME_SEPARATOR + Truncate(name2, NAME_PART_LENGTH)
  }

  /** The channel name shows each display name's first twelve characters at
      fixed positions: after the prefix, and after the separator that follows
      the first part. */
  lemma VcNameForParts(name1: string, name2: string)
    ensures var r := VcNameFor(name1, name2);
            var k1 := Min(|name1|, NAME_PART_LENGTH);
            var k2 := Min(|name2|, NAME_PART_LENGTH);
            && r[|NAME_PREFIX|..|NAME_PREFIX| + k1] == name1[..k1]
            && r[|NAME_PREFIX| + k1..|NAME_PREFIX| + k1 + |NAME_SEPARATOR|] == NAME_SEPARATOR
            && r[|NAME_PREFIX| + k1 + |NAME_SEPARATOR|..] == name2[..k2]
  {
    var t1, t2 := Truncate(name1, NAME_PART_LENGTH), Truncate(name2, NAME_PART_LENGTH);
    var r := VcNameFor(name1, name2);
    assert r == NAME_PREFIX + t1 + NAME_SEPARATOR + t2;
    assert t1 == name1[..|t1|] && t2 == name2[..|t2|];
  }

  /** Display names of at most twelve characters appear in full. */
  lemma VcNameForShortNames(name1: string, name2: string)
    requires |name1| <= NAME_PART_LENGTH && |name2| <= NAME_PART_LENGTH
    ensures VcNameFor(name1, name2) == NAME_PREFIX + name1 + NAME_SEPARATOR + name2
  {
  }
}
