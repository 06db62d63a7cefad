/**
 * The deals list kept live by `useRealtimeDeals`: each change event of the `deals` table is
 * applied to the previous list by a pure reducer (INSERT appends, UPDATE replaces by id,
 * DELETE filters out by id, anything else is ignored).
 */
module RealtimeDeals {
  import opened Wrappers

  /** A row of the `deals` table. JavaScript numbers are modelled as reals. */
  datatype Deal = Deal(
    id: string,
    title: string,
    price: real,
    currency: string,
    ticket: real,
    yieldPercent: real,
    soldPercent: real,
    daysLeft: Option<real>,
    imageUrl: Option<string>,
    description: Option<string>,
    createdAt: string,
    updatedAt: string)

  /**
   * A change notification: the event type as the platform names it, the new row (INSERT and
   * UPDATE) and the primary key carried by the old row (DELETE).
   */
  datatype Change = Change(eventType: string, newRow: Deal, oldId: string)

  /** How many deals in `ds` carry the id `id`. */
  function CountId(ds: seq<Deal>, id: string): (n: nat)
    ensures n <= |ds|
  {
    if ds == [] then 0 else (if ds[0].id == id then 1 else 0) + CountId(ds[1..], id)
  }

  predicate HasId(ds: seq<Deal>, id: string)
  {
    exists k :: 0 <= k < |ds| && ds[k].id == id
  }

  /** `sub` is `ds` with some elements left out, the rest in their original order. */
  predicate Subsequence<T(==)>(sub: seq<T>, ds: seq<T>)
  {
    if sub == [] then true
    else if ds == [] then false
    else if sub[0] == ds[0] then Subsequence(sub[1..], ds[1..])
    else Subsequence(sub, ds[1..])
  }

  /** INSERT: `[...prev, new]`. */
  function Insert(prev: seq<Deal>, d: Deal): (r: seq<Deal>)
    ensures |r| == |prev| + 1 && r[..|prev|] == prev && r[|prev|] == d
  {
    prev + [d]
  }

  /** UPDATE: `prev.map(d => d.id === new.id ? new : d)`. */
  function Replace(prev: seq<Deal>, d: Deal): (r: seq<Deal>)
    ensures |r| == |prev|
    ensures forall k :: 0 <= k < |prev| && prev[k].id == d.id ==> r[k] == d
    ensures forall k :: 0 <= k < |prev| && prev[k].id != d.id ==> r[k] == prev[k]
  {
    if prev == [] then []
    else [if prev[0].id == d.id then d else prev[0]] + Replace(prev[1..], d)
  }

  /** DELETE: `prev.filter(d => d.id !== old.id)`. */
  function Remove(prev: seq<Deal>, id: string): (r: seq<Deal>)
    ensures |r| == |prev| - CountId(prev, id)
    ensures forall k :: 0 <= k < |r| ==> r[k].id != id
    ensures forall d :: d in r <==> d in prev && d.id != id
    ensures Subsequence(r, prev)
  {
    if prev == [] then []
    else if prev[0].id != id then [prev[0]] + Remove(prev[1..], id)
    else Remove(prev[1..], id)
  }

  /** The channel callback: the new list for a change event. */
  function Apply(prev: seq<Deal>, c: Change): (r: seq<Deal>)
    ensures c.eventType == "INSERT" ==> r == prev + [c.newRow]
    ensures c.eventType == "UPDATE" ==> |r| == |prev| && (!HasId(prev, c.newRow.id) ==> r == prev)
    ensures c.eventType == "UPDATE" ==> forall k :: 0 <= k < |prev| ==>
              r[k] == if prev[k].id == c.newRow.id then c.newRow else prev[k]
    ensures c.eventType == "UPDATE" ==> r == Replace(prev, c.newRow)
    ensures c.eventType == "DELETE" ==> Subsequence(r, prev) && (!HasId(prev, c.oldId) ==> r == prev)
    ensures c.eventType == "DELETE" ==> |r| == |prev| - CountId(prev, c.oldId)
    ensures c.eventType == "DELETE" ==> forall d :: d in r <==> d in prev && d.id != c.oldId
    ensures c.eventType == "DELETE" ==> r == Remove(prev, c.oldId)
    ensures c.eventType !in {"INSERT", "UPDATE", "DELETE"} ==> r == prev
  {
    if c.eventType == "INSERT" then Insert(prev, c.newRow)
    else if c.eventType == "UPDATE" then
      assert !HasId(prev, c.newRow.id) ==> Replace(prev, c.newRow) == prev by {
        if !HasId(prev, c.newRow.id) { ReplaceAbsent(prev, c.newRow); }
      }
      Replace(prev, c.newRow)
    else if c.eventType == "DELETE" then
      assert !HasId(prev, c.oldId) ==> Remove(prev, c.oldId) == prev by {
        if !HasId(prev, c.oldId) { RemoveAbsent(prev, c.oldId); }
      }
      Remove(prev, c.oldId)
    else prev
  }

  /** An UPDATE for an id the list does not hold leaves the list identical. */
  lemma {:induction false} ReplaceAbsent(prev: seq<Deal>, d: Deal)
    requires !HasId(prev, d.id)
    ensures Replace(prev, d) == prev
  {
    if prev != [] {
      assert !HasId(prev[1..], d.id) by {
        forall k | 0 <= k < |prev[1..]| ensures prev[1..][k].id != d.id {
          assert prev[1..][k] == prev[k + 1];
        }
      }
      ReplaceAbsent(prev[1..], d);
      assert prev[0].id != d.id;
      assert prev == [prev[0]] + prev[1..];
    }
  }

  /** A DELETE for an id the list does not hold leaves the list identical. */
  lemma {:induction false} RemoveAbsent(prev: seq<Deal>, id: string)
    requires !HasId(prev, id)
    ensures Remove(prev, id) == prev
  {
    if prev != [] {
      assert !HasId(prev[1..], id) by {
        forall k | 0 <= k < |prev[1..]| ensures prev[1..][k].id != id {
          assert prev[1..][k] == prev[k + 1];
        }
      }
      RemoveAbsent(prev[1..], id);
      assert prev[0].id != id;
      assert prev == [prev[0]] + prev[1..];
    }
  }

  /** Replaying an UPDATE is harmless: the reducer is idempotent on UPDATE. */
  lemma ReplaceIdempotent(prev: seq<Deal>, d: Deal)
    ensures Replace(Replace(prev, d), d) == Replace(prev, d)
  {
  }

  /** UPDATE keeps the id at every position, so the list's ids are those it had. */
  lemma ReplaceKeepsIds(prev: seq<Deal>, d: Deal)
    ensures forall k :: 0 <= k < |prev| ==> Replace(prev, d)[k].id == prev[k].id
  {
  }

  /** Deleting the row that was just inserted gives the list that a DELETE alone gives. */
  lemma {:induction false} RemoveAfterInsert(prev: seq<Deal>, d: Deal)
    ensures Remove(Insert(prev, d), d.id) == Remove(prev, d.id)
  {
    if prev == [] {
      assert Insert(prev, d) == [d];
      assert [d][1..] == [];
    } else {
      RemoveAfterInsert(prev[1..], d);
      assert Insert(prev, d)[1..] == Insert(prev[1..], d);
    }
  }

  /** DELETE after UPDATE of the same id is the DELETE alone. */
  lemma {:induction false} RemoveAfterReplace(prev: seq<Deal>, d: Deal)
    ensures Remove(Replace(prev, d), d.id) == Remove(prev, d.id)
  {
    if prev != [] {
      RemoveAfterReplace(prev[1..], d);
      assert Replace(prev, d)[1..] == Replace(prev[1..], d);
    }
  }

  /** Removing an id removes every deal carrying it, so the list no longer holds the id. */
  lemma RemoveRemovesAll(prev: seq<Deal>, id: string)
    ensures !HasId(Remove(prev, id), id)
  {
  }
}
