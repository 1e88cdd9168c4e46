/** The two JS search built-ins transKey uses: `String.prototype.replace`
    with a string pattern (only the first occurrence is replaced) and
    `Array.prototype.findIndex` with an equality test (-1 when absent). */
module JsSearch {
  import opened Wrappers

  /** p occurs in s starting at position k. */
  predicate OccursAt(s: string, p: string, k: nat) {
    k + |p| <= |s| && s[k..k + |p|] == p
  }

  /** k is the first position at which p occurs in s. */
  predicate IsFirstOccurrence(s: string, p: string, k: nat) {
    OccursAt(s, p, k) && forall j :: 0 <= j < k ==> !OccursAt(s, p, j)
  }

  /** The first position at or after `from` at which p occurs in s. */
  function FirstOccurrence(s: string, p: string, from: nat): (r: Option<nat>)
    requires from <= |s|
    ensures r.Some? ==> from <= r.value && OccursAt(s, p, r.value)
    ensures r.Some? ==> forall j :: from <= j < r.value ==> !OccursAt(s, p, j)
    ensures r.None? ==> forall j :: from <= j ==> !OccursAt(s, p, j)
    decreases |s| - from
  {
    if OccursAt(s, p, from) then Some(from)
    else if from == |s| then None
    else FirstOccurrence(s, p, from + 1)
  }

  /** An occurrence begins with the pattern's first character. */
  lemma OccurrenceStart(s: string, p: string, k: nat)
    ensures OccursAt(s, p, k) && |p| > 0 ==> k < |s| && s[k] == p[0]
  {
    assert OccursAt(s, p, k) && |p| > 0 ==> s[k] == s[k..k + |p|][0];
  }

  /** `s.replace(p, "")`: removes the first occurrence of p, if any. */
  function RemoveFirst(s: string, p: string): (r: string)
    ensures forall k: nat :: IsFirstOccurrence(s, p, k) ==> r == s[..k] + s[k + |p|..]
    ensures (forall k: nat :: !OccursAt(s, p, k)) ==> r == s
  {
    match FirstOccurrence(s, p, 0)
    case None => s
    case Some(k) => s[..k] + s[k + |p|..]
  }

  /** `list.findIndex((e) => e === x)`. */
  function FindIndex(list: seq<string>, x: string): (r: int)
    ensures -1 <= r < |list|
    ensures r == -1 <==> x !in list
    ensures r >= 0 ==> list[r] == x && forall j :: 0 <= j < r ==> list[j] != x
  {
    if list == [] then -1
    else if list[0] == x then 0
    else
      var t := FindIndex(list[1..], x);
      if t == -1 then -1 else t + 1
  }

  /** In a list whose entry k differs from every earlier one, findIndex
      locates entry k at k. */
  lemma FindIndexAt(list: seq<string>, k: nat)
    requires k < |list|
    requires forall j :: 0 <= j < k ==> list[j] != list[k]
    ensures FindIndex(list, list[k]) == k
  {
    assert list[k] in list;
  }
}
