/**
  * The quality labels and their ranking (src/Domain/Quality.ts): a constant
  * table of label prefixes, the rank of the first prefix a label starts with,
  * and the comparator that orders labels by rank.
  */
module Quality {
  import opened Strings

  /** The priority table, best first: a label's rank is the index of its entry. */
  const Priorities: seq<string> := ["3D", "2160p HDR", "2160p", "1080p", "720p", "480p"]

  /** The rank given to a label that starts with no entry of the table. */
  const Unranked: nat := |Priorities|

  /** The first table index at or after `i` whose entry is a prefix of `quality`, or the table length. */
  function FirstPrefixFrom(quality: string, i: nat): (p: nat)
    requires i <= |Priorities|
    ensures i <= p <= |Priorities|
    ensures p < |Priorities| ==> StartsWith(quality, Priorities[p])
    ensures forall j | i <= j < p :: !StartsWith(quality, Priorities[j])
    decreases |Priorities| - i
  {
    if i == |Priorities| then i
    else if StartsWith(quality, Priorities[i]) then i
    else FirstPrefixFrom(quality, i + 1)
  }

  /** The rank of a label: the index of the first table entry it starts with, checked in table order. */
  function Priority(quality: string): (p: nat)
    ensures p <= Unranked
    ensures p < Unranked ==> StartsWith(quality, Priorities[p])
    ensures forall j | 0 <= j < p :: !StartsWith(quality, Priorities[j])
  {
    FirstPrefixFrom(quality, 0)
  }

  /** The comparator: the sign of the difference of the two ranks. */
  function Compare(a: string, b: string): (c: int)
    ensures c == -1 || c == 0 || c == 1
    ensures c < 0 <==> Priority(a) < Priority(b)
    ensures c == 0 <==> Priority(a) == Priority(b)
  {
    var pa, pb := Priority(a), Priority(b);
    if pa < pb then -1 else if pa > pb then 1 else 0
  }

  /** A label differing from an entry at a position inside both does not start with that entry. */
  lemma DiffersAt(s: string, p: string, k: nat)
    requires k < |p| && k < |s| && s[k] != p[k]
    ensures !StartsWith(s, p)
  {
    assert |p| <= |s| ==> s[..|p|][k] == s[k];
  }

  /** Whether `quality` starts with a table entry before index `i` depends only on its first character, save for "2160p". */
  lemma NoEarlierEntry(quality: string, i: nat)
    requires 0 < |quality| && i <= |Priorities|
    requires forall j | 0 <= j < i :: quality[0] != Priorities[j][0] || (j == 1 && |quality| < |Priorities[1]|)
    ensures forall j | 0 <= j < i :: !StartsWith(quality, Priorities[j])
  {
    forall j | 0 <= j < i
      ensures !StartsWith(quality, Priorities[j])
    {
      if quality[0] != Priorities[j][0] {
        DiffersAt(quality, Priorities[j], 0);
      }
    }
  }

  /** Every table entry ranks at its own index; in particular "2160p HDR" is 1 and not 2. */
  lemma PriorityOfTableEntries()
    ensures forall i | 0 <= i < |Priorities| :: Priority(Priorities[i]) == i
  {
    forall i | 0 <= i < |Priorities|
      ensures Priority(Priorities[i]) == i
    {
      assert StartsWith(Priorities[i], Priorities[i]);
      NoEarlierEntry(Priorities[i], i);
    }
  }

  /** A label with a suffix after a table entry ranks with that entry, e.g. "1080p.x265" ranks 3. */
  lemma PriorityOfLongerLabel()
    ensures Priority("1080p.x265") == 3
  {
    assert StartsWith("1080p.x265", "1080p");
    NoEarlierEntry("1080p.x265", 3);
  }

  /** Labels that start with no entry, such as "N/A" and "576p", rank after "480p". */
  lemma UnrankedLabels()
    ensures Priority("N/A") == Unranked && Priority("576p") == Unranked
    ensures Priority("480p") < Unranked
  {
    NoEarlierEntry("N/A", |Priorities|);
    NoEarlierEntry("576p", |Priorities|);
    assert StartsWith("480p", "480p");
  }

  /** The comparator is a total preorder: reflexive, antisymmetric in sign, and transitive. */
  lemma CompareIsTotalPreorder(a: string, b: string, c: string)
    ensures Compare(a, a) == 0
    ensures Compare(a, b) == -Compare(b, a)
    ensures Compare(a, b) <= 0 && Compare(b, c) <= 0 ==> Compare(a, c) <= 0
    ensures Compare(a, b) <= 0 || Compare(b, a) <= 0
  {
  }

  /** Labels of the same rank, such as "1080p" and "1080p.x265", compare equal. */
  lemma SameRankCompareEqual()
    ensures Compare("1080p", "1080p.x265") == 0
  {
    PriorityOfTableEntries();
    PriorityOfLongerLabel();
    assert Priorities[3] == "1080p";
  }
}
