/** Look-up-or-append deduplication of the canvas, speed and placeholder
    lists: a segment reuses the first entry whose `material_name` is the
    sequence's full path, or appends a new entry named by that path. */
module Auxiliary {
  import opened Wrappers
  import opened Native

  /** The id a segment refers to, the list after the step, and the next free id. */
  datatype AuxStep = AuxStep(id: Id, entries: seq<AuxEntry>, next: nat)

  function LookupOrAdd(es: seq<AuxEntry>, path: string, next: nat): (r: AuxStep)
    ensures es <= r.entries && |r.entries| <= |es| + 1
    ensures FindAux(r.entries, path) == Some(r.id)
    ensures |r.entries| == |es| + 1 <==> FindAux(es, path).None?
    ensures |r.entries| == |es| + 1 ==> r.entries[|es|] == AuxEntry(Id(next), Some(path))
    ensures r.next == next + (|r.entries| - |es|)
  {
    match FindAux(es, path)
    case Some(id) => AuxStep(id, es, next)
    case None =>
      var e := AuxEntry(Id(next), Some(path));
      FindAuxAppend(es, [e], path);
      AuxStep(e.id, es + [e], next + 1)
  }

  /** Entries appended after `es0` each carry a path no earlier entry
      carries: a list gains at most one entry per distinct path, and only
      for paths the original list did not already name. */
  ghost predicate NewEntriesDistinct(es0: seq<AuxEntry>, es: seq<AuxEntry>) {
    && es0 <= es
    && forall k :: |es0| <= k < |es| ==> es[k].name.Some? && FindAux(es[..k], es[k].name.value).None?
  }

  lemma LookupOrAddKeepsDistinct(es0: seq<AuxEntry>, es: seq<AuxEntry>, path: string, next: nat)
    requires NewEntriesDistinct(es0, es)
    ensures NewEntriesDistinct(es0, LookupOrAdd(es, path, next).entries)
  {
    var r := LookupOrAdd(es, path, next);
    if |r.entries| == |es| + 1 {
      assert r.entries[..|es|] == es;
      forall k | |es0| <= k < |r.entries|
        ensures r.entries[k].name.Some? && FindAux(r.entries[..k], r.entries[k].name.value).None?
      {
        if k < |es| {
          assert r.entries[..k] == es[..k];
        }
      }
    }
  }
}
