/** The slot arena behind both lists of the circuit (`elements` and `lines`):
    a list whose freed entries are `None`, where a new entry goes into the
    lowest free slot and is appended only when there is none. */
module Slots {
  import opened Python

  /** The index of the lowest free slot, or the length when every slot is taken. */
  function FirstFree<T>(s: seq<Option<T>>): (k: nat)
    ensures k <= |s|
    ensures forall j :: 0 <= j < k ==> s[j].Some?
    ensures k < |s| ==> s[k].None?
  {
    if s == [] || s[0].None? then 0 else 1 + FirstFree(s[1..])
  }

  /** Stores `x` the way the first-free-slot loops of the editor do. */
  function Place<T>(s: seq<Option<T>>, x: T): (r: seq<Option<T>>)
    ensures |s| <= |r| <= |s| + 1
    ensures |r| == |s| + 1 <==> forall j :: 0 <= j < |s| ==> s[j].Some?
    ensures r[FirstFree(s)] == Some(x)
    ensures forall j :: 0 <= j < |s| && j != FirstFree(s) ==> r[j] == s[j]
  {
    var k := FirstFree(s);
    if k < |s| then s[k := Some(x)] else s + [Some(x)]
  }

  /** Any index with no free slot below it that is itself free (or the end) is the first free slot. */
  lemma FirstFreeUnique<T>(s: seq<Option<T>>, k: nat)
    requires k <= |s|
    requires forall j :: 0 <= j < k ==> s[j].Some?
    requires k < |s| ==> s[k].None?
    ensures FirstFree(s) == k
  {
  }

  /** Freeing slot `i` makes it the next slot filled, unless a lower slot is already free. */
  lemma FreedSlotIsReusedFirst<T>(s: seq<Option<T>>, i: nat)
    requires i < |s|
    ensures FirstFree(s[i := None]) == if i < FirstFree(s) then i else FirstFree(s)
  {
    var k := FirstFree(s);
    if i < k {
      FirstFreeUnique(s[i := None], i);
    } else {
      FirstFreeUnique(s[i := None], k);
    }
  }
}
