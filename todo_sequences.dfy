/**
  The Swift array operations the to-do stack applies to `[ToDoEntity]`:
  `firstIndex(where: { $0.id == id })`, `remove(at:)`, `removeAll { $0.id == id }`,
  `filter` on `isCompleted`, `sorted { $0.createdAt > $1.createdAt }`, and the
  in-place flip-and-stamp of `isCompleted`/`completedAt`.
*/
module ToDoSequences {
  import opened Wrappers
  import opened ToDoEntities

  /** Some stored record carries `id`. */
  predicate ContainsId(s: seq<ToDoEntity>, id: Uuid) {
    exists k :: 0 <= k < |s| && s[k].id == id
  }

  /** No two stored records share an id. */
  predicate UniqueIds(s: seq<ToDoEntity>) {
    forall i, j :: 0 <= i < j < |s| ==> s[i].id != s[j].id
  }

  /** `s.firstIndex(where: { $0.id == id })`. */
  function FirstIndex(s: seq<ToDoEntity>, id: Uuid): (r: Option<nat>)
    ensures r.None? <==> !ContainsId(s, id)
    ensures r.Some? ==> r.value < |s| && s[r.value].id == id
    ensures r.Some? ==> forall k :: 0 <= k < r.value ==> s[k].id != id
  {
    if s == [] then None
    else if s[0].id == id then Some(0)
    else match FirstIndex(s[1..], id)
      case None => None
      case Some(k) => Some(k + 1)
  }

  /** `s.remove(at: i)`. */
  function RemoveAt(s: seq<ToDoEntity>, i: nat): (r: seq<ToDoEntity>)
    requires i < |s|
    ensures |r| == |s| - 1
    ensures forall k :: 0 <= k < i ==> r[k] == s[k]
    ensures forall k :: i <= k < |r| ==> r[k] == s[k + 1]
  {
    s[..i] + s[i + 1..]
  }

  /**
    `t.isCompleted.toggle()` followed by
    `t.completedAt = t.isCompleted ? now : nil`.
  */
  function Toggled(t: ToDoEntity, now: Timestamp): (r: ToDoEntity)
    ensures r.isCompleted == !t.isCompleted
    ensures r.completedAt == (if r.isCompleted then Some(now) else None)
    ensures r.id == t.id && r.title == t.title && r.notes == t.notes && r.createdAt == t.createdAt
  {
    var done := !t.isCompleted;
    t.(isCompleted := done, completedAt := if done then Some(now) else None)
  }

  /** After a toggle the record is consistent, whatever it was before. */
  lemma ToggledIsConsistent(t: ToDoEntity, now: Timestamp)
    ensures CompletionConsistent(Toggled(t, now))
  {
  }

  /**
    Toggling twice restores the record exactly when it started incomplete
    without a date, or completed with the date of the second toggle.
  */
  lemma ToggleTwice(t: ToDoEntity, first: Timestamp, second: Timestamp)
    ensures Toggled(Toggled(t, first), second) == t <==>
      (!t.isCompleted && t.completedAt == None) || (t.isCompleted && t.completedAt == Some(second))
  {
  }

  /** `s.removeAll { $0.id == id }`. */
  function RemoveAllWithId(s: seq<ToDoEntity>, id: Uuid): (r: seq<ToDoEntity>)
    ensures |r| <= |s|
    ensures !ContainsId(r, id)
  {
    if s == [] then []
    else
      var rest := RemoveAllWithId(s[1..], id);
      if s[0].id == id then rest else [s[0]] + rest
  }

  /** removeAll keeps every record that does not carry `id`, as often as it occurs. */
  lemma {:induction false} RemoveAllKeepsOthers(s: seq<ToDoEntity>, id: Uuid, x: ToDoEntity)
    requires x.id != id
    ensures multiset(RemoveAllWithId(s, id))[x] == multiset(s)[x]
  {
    if s != [] {
      assert s == [s[0]] + s[1..];
      RemoveAllKeepsOthers(s[1..], id, x);
    }
  }

  /** removeAll works piecewise, so the records it keeps stay in their relative order. */
  lemma {:induction false} RemoveAllDistributes(a: seq<ToDoEntity>, b: seq<ToDoEntity>, id: Uuid)
    ensures RemoveAllWithId(a + b, id) == RemoveAllWithId(a, id) + RemoveAllWithId(b, id)
  {
    if a == [] {
      assert a + b == b;
    } else {
      assert (a + b)[1..] == a[1..] + b;
      RemoveAllDistributes(a[1..], b, id);
    }
  }

  /** With no record carrying `id`, removeAll changes nothing. */
  lemma {:induction false} RemoveAllAbsent(s: seq<ToDoEntity>, id: Uuid)
    requires !ContainsId(s, id)
    ensures RemoveAllWithId(s, id) == s
  {
    if s != [] {
      assert !ContainsId(s[1..], id) by {
        forall k | 0 <= k < |s[1..]| ensures s[1..][k].id != id {
          assert s[1..][k] == s[k + 1];
        }
      }
      RemoveAllAbsent(s[1..], id);
      assert s == [s[0]] + s[1..];
    }
  }

  /** No record of the slice `s[lo..hi]` carries `id`. */
  lemma SliceLacksId(s: seq<ToDoEntity>, lo: nat, hi: nat, id: Uuid)
    requires lo <= hi <= |s|
    requires forall k :: lo <= k < hi ==> s[k].id != id
    ensures !ContainsId(s[lo..hi], id)
  {
    var t := s[lo..hi];
    forall k | 0 <= k < |t| ensures t[k].id != id {
      assert t[k] == s[lo + k];
    }
  }

  /** removeAll drops a record carrying `id` from between two stretches that carry none. */
  lemma RemoveAllAround(pre: seq<ToDoEntity>, x: ToDoEntity, post: seq<ToDoEntity>, id: Uuid)
    requires x.id == id && !ContainsId(pre, id) && !ContainsId(post, id)
    ensures RemoveAllWithId(pre + ([x] + post), id) == pre + post
  {
    RemoveAllDistributes(pre, [x] + post, id);
    RemoveAllDistributes([x], post, id);
    RemoveAllAbsent(pre, id);
    RemoveAllAbsent(post, id);
    assert RemoveAllWithId([x], id) == [] by {
      assert [x][1..] == [];
    }
  }

  /** On a list with unique ids, removeAll removes exactly the record remove(at: firstIndex) removes. */
  lemma {:induction false} RemoveAllIsRemoveAtFirst(s: seq<ToDoEntity>, id: Uuid)
    requires UniqueIds(s) && ContainsId(s, id)
    ensures RemoveAllWithId(s, id) == RemoveAt(s, FirstIndex(s, id).value)
  {
    var i := FirstIndex(s, id).value;
    SliceLacksId(s, 0, i, id);
    forall k | i + 1 <= k < |s| ensures s[k].id != id {
      assert s[i].id != s[k].id;
    }
    SliceLacksId(s, i + 1, |s|, id);
    assert s[..i] == s[0..i] && s[i + 1..] == s[i + 1..|s|];
    RemoveAllAround(s[..i], s[i], s[i + 1..], id);
    assert s == s[..i] + ([s[i]] + s[i + 1..]);
  }

  /** `s.filter { $0.isCompleted == done }`. */
  function FilterCompleted(s: seq<ToDoEntity>, done: bool): (r: seq<ToDoEntity>)
    ensures |r| <= |s|
    ensures forall k :: 0 <= k < |r| ==> r[k].isCompleted == done
  {
    if s == [] then []
    else
      assert s == [s[0]] + s[1..];
      var rest := FilterCompleted(s[1..], done);
      if s[0].isCompleted == done then [s[0]] + rest else rest
  }

  /** filter works piecewise, so it keeps the relative order of what it keeps. */
  lemma {:induction false} FilterDistributes(a: seq<ToDoEntity>, b: seq<ToDoEntity>, done: bool)
    ensures FilterCompleted(a + b, done) == FilterCompleted(a, done) + FilterCompleted(b, done)
  {
    if a == [] {
      assert a + b == b;
    } else {
      assert (a + b)[1..] == a[1..] + b;
      FilterDistributes(a[1..], b, done);
    }
  }

  /** The two filters split the list: every record lands in exactly one of them. */
  lemma {:induction false} FiltersPartition(s: seq<ToDoEntity>)
    ensures multiset(FilterCompleted(s, false)) + multiset(FilterCompleted(s, true)) == multiset(s)
    ensures |FilterCompleted(s, false)| + |FilterCompleted(s, true)| == |s|
  {
    if s != [] {
      assert s == [s[0]] + s[1..];
      FiltersPartition(s[1..]);
    }
  }

  /** Newest first: `createdAt` never increases along the list. */
  predicate SortedNewestFirst(s: seq<ToDoEntity>) {
    forall i, j :: 0 <= i < j < |s| ==> s[i].createdAt >= s[j].createdAt
  }

  /** Places `x` before the first record that is not newer than it. */
  function InsertNewestFirst(x: ToDoEntity, t: seq<ToDoEntity>): (r: seq<ToDoEntity>)
    ensures |r| == |t| + 1
    ensures multiset(r) == multiset(t) + multiset{x}
    ensures r[0] == x || (t != [] && r[0] == t[0])
  {
    if t == [] then [x]
    else if t[0].createdAt <= x.createdAt then [x] + t
    else
      assert t == [t[0]] + t[1..];
      [t[0]] + InsertNewestFirst(x, t[1..])
  }

  /** Inserting into a newest-first list keeps it newest first. */
  lemma {:induction false} InsertKeepsSorted(x: ToDoEntity, t: seq<ToDoEntity>)
    requires SortedNewestFirst(t)
    ensures SortedNewestFirst(InsertNewestFirst(x, t))
  {
    if t != [] && t[0].createdAt > x.createdAt {
      var tail := t[1..];
      assert SortedNewestFirst(tail) by {
        forall i, j | 0 <= i < j < |tail| ensures tail[i].createdAt >= tail[j].createdAt {
          assert tail[i] == t[i + 1] && tail[j] == t[j + 1];
        }
      }
      InsertKeepsSorted(x, tail);
      var rest := InsertNewestFirst(x, tail);
      var r := [t[0]] + rest;
      assert rest[0].createdAt <= t[0].createdAt;
      forall k | 0 <= k < |rest| ensures rest[k].createdAt <= t[0].createdAt {
        assert rest[0].createdAt >= rest[k].createdAt;
      }
      forall i, j | 0 <= i < j < |r| ensures r[i].createdAt >= r[j].createdAt {
        if i > 0 {
          assert r[i] == rest[i - 1] && r[j] == rest[j - 1];
        } else {
          assert r[j] == rest[j - 1];
        }
      }
    }
  }

  /** `s.sorted { $0.createdAt > $1.createdAt }`, as a stable insertion sort. */
  function SortNewestFirst(s: seq<ToDoEntity>): (r: seq<ToDoEntity>)
    ensures SortedNewestFirst(r)
    ensures multiset(r) == multiset(s)
  {
    if s == [] then []
    else
      assert s == [s[0]] + s[1..];
      InsertKeepsSorted(s[0], SortNewestFirst(s[1..]));
      InsertNewestFirst(s[0], SortNewestFirst(s[1..]))
  }

  /** The list reversed. */
  function Reverse(s: seq<ToDoEntity>): (r: seq<ToDoEntity>)
    ensures |r| == |s|
    ensures forall k :: 0 <= k < |s| ==> r[k] == s[|s| - 1 - k]
  {
    if s == [] then [] else Reverse(s[1..]) + [s[0]]
  }

  /** Strictly increasing creation times: records stored oldest first, no two at the same instant. */
  predicate CreatedStrictlyInOrder(s: seq<ToDoEntity>) {
    forall i, j :: 0 <= i < j < |s| ==> s[i].createdAt < s[j].createdAt
  }

  /** A record older than everything in a list goes to its end. */
  lemma {:induction false} InsertOldest(x: ToDoEntity, t: seq<ToDoEntity>)
    requires forall k :: 0 <= k < |t| ==> t[k].createdAt > x.createdAt
    ensures InsertNewestFirst(x, t) == t + [x]
  {
    if t != [] {
      InsertOldest(x, t[1..]);
      assert t == [t[0]] + t[1..];
    }
  }

  /** Dropping the oldest record keeps the rest in creation order. */
  lemma TailCreatedInOrder(s: seq<ToDoEntity>)
    requires s != [] && CreatedStrictlyInOrder(s)
    ensures CreatedStrictlyInOrder(s[1..])
  {
    var tail := s[1..];
    forall i, j | 0 <= i < j < |tail| ensures tail[i].createdAt < tail[j].createdAt {
      assert tail[i] == s[i + 1] && tail[j] == s[j + 1];
    }
  }

  /** Every record after the first of a list in creation order is newer than the first. */
  lemma LaterRecordsNewer(s: seq<ToDoEntity>)
    requires s != [] && CreatedStrictlyInOrder(s)
    ensures forall k :: 0 <= k < |Reverse(s[1..])| ==> Reverse(s[1..])[k].createdAt > s[0].createdAt
  {
    var tail := s[1..];
    var t := Reverse(tail);
    forall k | 0 <= k < |t| ensures t[k].createdAt > s[0].createdAt {
      var m := |s| - 1 - k;
      assert t[k] == tail[m - 1] == s[m];
    }
  }

  /** Records stored in creation order come back from the sort newest first, that is reversed. */
  lemma {:induction false} SortOfCreationOrderIsReverse(s: seq<ToDoEntity>)
    requires CreatedStrictlyInOrder(s)
    ensures SortNewestFirst(s) == Reverse(s)
  {
    if s != [] {
      var tail := s[1..];
      TailCreatedInOrder(s);
      SortOfCreationOrderIsReverse(tail);
      LaterRecordsNewer(s);
      InsertOldest(s[0], Reverse(tail));
    }
  }

  /** Replacing a record by one with the same id leaves every id where it was. */
  lemma ReplaceKeepsIds(s: seq<ToDoEntity>, i: nat, t: ToDoEntity)
    requires i < |s| && t.id == s[i].id
    ensures UniqueIds(s) ==> UniqueIds(s[i := t])
    ensures forall id :: FirstIndex(s[i := t], id) == FirstIndex(s, id)
  {
    forall id ensures FirstIndex(s[i := t], id) == FirstIndex(s, id) {
      if ContainsId(s, id) {
        assert s[i := t][FirstIndex(s, id).value].id == id;
      }
      if ContainsId(s[i := t], id) {
        assert s[FirstIndex(s[i := t], id).value].id == id;
      }
    }
  }

  /** Removing a record keeps the remaining ids distinct. */
  lemma RemoveKeepsUniqueIds(s: seq<ToDoEntity>, i: nat)
    requires i < |s| && UniqueIds(s)
    ensures UniqueIds(RemoveAt(s, i))
  {
    var r := RemoveAt(s, i);
    forall a, b | 0 <= a < b < |r| ensures r[a].id != r[b].id {
      var a', b' := if a < i then a else a + 1, if b < i then b else b + 1;
      assert r[a] == s[a'] && r[b] == s[b'];
    }
  }

  /** Appending a record with an id nobody has keeps ids distinct. */
  lemma AppendFreshKeepsUniqueIds(s: seq<ToDoEntity>, t: ToDoEntity)
    requires UniqueIds(s) && !ContainsId(s, t.id)
    ensures UniqueIds(s + [t])
  {
  }
}
