/** The in-memory sandbox registry: an insertion-ordered map from ids to metadata. */
module SandboxPool {
  import opened Uuids

  datatype Entry = Entry(id: Uuid, runtime: string)

  predicate Has(entries: seq<Entry>, id: Uuid) {
    exists i :: 0 <= i < |entries| && entries[i].id == id
  }

  ghost predicate Distinct(entries: seq<Entry>) {
    forall i, j :: 0 <= i < j < |entries| ==> entries[i].id != entries[j].id
  }

  /** The entries with other ids, in their order. */
  function Without(entries: seq<Entry>, id: Uuid): seq<Entry> {
    if entries == [] then []
    else if entries[|entries| - 1].id == id then Without(entries[..|entries| - 1], id)
    else Without(entries[..|entries| - 1], id) + [entries[|entries| - 1]]
  }

  /** Insertion appends a new id and keeps the place of one that is already there. */
  function Inserted(entries: seq<Entry>, id: Uuid, runtime: string): seq<Entry> {
    if Has(entries, id)
    then seq(|entries|, i requires 0 <= i < |entries| => if entries[i].id == id then Entry(id, runtime) else entries[i])
    else entries + [Entry(id, runtime)]
  }

  class Pool {
    var entries: seq<Entry>

    ghost predicate Valid()
      reads this
    {
      Distinct(entries)
    }

    constructor ()
      ensures Valid() && entries == []
    {
      entries := [];
    }

    /** Position of an id, or the number of entries. */
    function IndexOf(id: Uuid): (i: nat)
      requires Valid()
      reads this
      ensures i <= |entries| && (i < |entries| <==> Has(entries, id)) && (i < |entries| ==> entries[i].id == id)
    {
      if i :| 0 <= i < |entries| && entries[i].id == id then i else |entries|
    }

    method Create(runtime: string, id: Uuid)
      requires Valid()
      modifies this
      ensures Valid() && Has(entries, id)
      ensures entries == Inserted(old(entries), id, runtime)
      ensures !Has(old(entries), id) ==> entries == old(entries) + [Entry(id, runtime)]
      ensures Has(old(entries), id) ==>
                && |entries| == |old(entries)|
                && forall i :: 0 <= i < |entries| ==>
                     entries[i] == if old(entries[i].id) == id then Entry(id, runtime) else old(entries)[i]
    {
      var i := IndexOf(id);
      if i < |entries| {
        entries := entries[i := Entry(id, runtime)];
      } else {
        entries := entries + [Entry(id, runtime)];
      }
      assert entries[i].id == id;
    }

    method Remove(id: Uuid) returns (existed: bool)
      requires Valid()
      modifies this
      ensures Valid() && !Has(entries, id)
      ensures existed == old(Has(entries, id))
      ensures entries == Without(old(entries), id)
      ensures existed ==> exists i :: 0 <= i < |old(entries)| && old(entries[i].id) == id
                                      && entries == old(entries)[..i] + old(entries)[i + 1..]
      ensures !existed ==> entries == old(entries)
    {
      var i := IndexOf(id);
      existed := i < |entries|;
      if existed {
        WithoutAt(entries, i);
        entries := entries[..i] + entries[i + 1..];
      } else {
        WithoutAbsent(entries, id);
      }
    }

    method Contains(id: Uuid) returns (found: bool)
      requires Valid()
      ensures found == Has(entries, id)
    {
      found := IndexOf(id) < |entries|;
    }
  }

  lemma {:induction false} WithoutAbsent(entries: seq<Entry>, id: Uuid)
    requires !Has(entries, id)
    ensures Without(entries, id) == entries
  {
    if entries != [] {
      var init := entries[..|entries| - 1];
      assert entries[|entries| - 1].id != id;
      assert forall i :: 0 <= i < |init| ==> init[i] == entries[i];
      WithoutAbsent(init, id);
    }
  }

  lemma {:induction false} WithoutAppend(a: seq<Entry>, b: seq<Entry>, id: Uuid)
    ensures Without(a + b, id) == Without(a, id) + Without(b, id)
  {
    if b == [] {
      assert a + b == a;
    } else {
      var n := |b| - 1;
      assert (a + b)[..|a + b| - 1] == a + b[..n];
      WithoutAppend(a, b[..n], id);
    }
  }

  /** Taking out an id that occurs once is `shift_remove`. */
  lemma WithoutAt(entries: seq<Entry>, i: nat)
    requires i < |entries| && Distinct(entries)
    ensures Without(entries, entries[i].id) == entries[..i] + entries[i + 1..]
  {
    var id, left, right := entries[i].id, entries[..i], entries[i + 1..];
    assert entries == left + [entries[i]] + right;
    WithoutAppend(left + [entries[i]], right, id);
    WithoutAppend(left, [entries[i]], id);
    WithoutAbsent(left, id);
    assert forall k :: 0 <= k < |right| ==> right[k] == entries[i + 1 + k];
    WithoutAbsent(right, id);
  }
}
