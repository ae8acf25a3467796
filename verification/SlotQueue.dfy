/** The passthrough queue as `slots.mu` guards it: which slots are pending, in
    which order, and which of them the in-flight turn has claimed.  These are
    the pure effects of the critical sections of internal/cli/passthrough.go;
    SlotObjects.dfy proves the in-place code against them and SlotProtocol.dfy
    interleaves them. */
module SlotQueue {
  import opened Wrappers

  const MAX_PENDING_SLOTS: nat := 16

  /** What the queue knows of one slot. */
  datatype Entry = Entry(id: nat, uuid: string, replayed: bool)

  datatype Queue = Queue(pending: seq<Entry>, current: seq<nat>)

  function Ids(es: seq<Entry>): (ids: seq<nat>)
    ensures |ids| == |es|
    ensures forall i :: 0 <= i < |es| ==> ids[i] == es[i].id
  {
    seq(|es|, i requires 0 <= i < |es| => es[i].id)
  }

  ghost predicate Differ<T>(s: seq<T>, i: nat, j: nat)
    requires i < |s| && j < |s|
  {
    s[i] != s[j]
  }

  /** No element occurs twice.  (Stated through Differ, so that the solver only
      compares the pairs a proof names.) */
  ghost predicate Distinct<T>(s: seq<T>) {
    forall i: nat, j: nat :: i < j < |s| ==> Differ(s, i, j)
  }

  /** The slots of `es` that `victims` does not name, in their order. */
  function Without(es: seq<Entry>, victims: seq<nat>): seq<Entry> {
    if es == [] then []
    else (if es[0].id in victims then [] else [es[0]]) + Without(es[1..], victims)
  }

  /** The ids of the slots no replay has claimed yet, in their order. */
  function Unclaimed(es: seq<Entry>): seq<nat> {
    if es == [] then []
    else (if es[0].replayed then [] else [es[0].id]) + Unclaimed(es[1..])
  }

  function Claimed(e: Entry): Entry { e.(replayed := true) }

  function AllClaimed(es: seq<Entry>): (r: seq<Entry>)
    ensures |r| == |es|
    ensures forall i :: 0 <= i < |es| ==> r[i] == Claimed(es[i])
  {
    seq(|es|, i requires 0 <= i < |es| => Claimed(es[i]))
  }

  /** Index of the first slot with this uuid, or |es|. */
  function IndexOfUuid(es: seq<Entry>, uuid: string): (k: nat)
    ensures k <= |es|
    ensures k < |es| ==> es[k].uuid == uuid
    ensures forall i :: 0 <= i < k ==> es[i].uuid != uuid
  {
    if es == [] || es[0].uuid == uuid then 0 else 1 + IndexOfUuid(es[1..], uuid)
  }

  /** Appending under the write lock; callers check the bound first. */
  function Enqueue(q: Queue, id: nat, uuid: string): Queue {
    q.(pending := q.pending + [Entry(id, uuid, false)])
  }

  /** A write that failed takes its slot out of pending, and only out of pending. */
  function RemoveById(q: Queue, id: nat): Queue {
    q.(pending := Without(q.pending, [id]))
  }

  /** A user replay: by uuid when one matches, otherwise a merged sweep. */
  function Replay(q: Queue, uuid: string): Queue {
    var k := if uuid == "" then |q.pending| else IndexOfUuid(q.pending, uuid);
    if k < |q.pending| then
      if q.pending[k].replayed then q
      else Queue(q.pending[k := Claimed(q.pending[k])], q.current + [q.pending[k].id])
    else
      Queue(AllClaimed(q.pending), q.current + Unclaimed(q.pending))
  }

  /** A result frame empties the claim; its owners leave pending. */
  function EndTurn(q: Queue): Queue {
    Queue(Without(q.pending, q.current), [])
  }

  /** The bound, distinct ids, and: a pending slot is marked replayed exactly
      when the in-flight turn has claimed it. */
  ghost predicate QueueOk(q: Queue) {
    && |q.pending| <= MAX_PENDING_SLOTS
    && Distinct(Ids(q.pending))
    && Distinct(q.current)
    && forall i :: 0 <= i < |q.pending| ==> (q.pending[i].replayed <==> q.pending[i].id in q.current)
  }

  // ---------- the filter ----------

  lemma {:induction false} WithoutKeeps(es: seq<Entry>, victims: seq<nat>, e: Entry)
    ensures e in Without(es, victims) <==> e in es && e.id !in victims
  {
    if es != [] {
      WithoutKeeps(es[1..], victims, e);
      assert e in es <==> e == es[0] || e in es[1..];
    }
  }

  lemma {:induction false} WithoutLength(es: seq<Entry>, victims: seq<nat>)
    ensures |Without(es, victims)| <= |es|
  {
    if es != [] { WithoutLength(es[1..], victims); }
  }

  lemma {:induction false} WithoutAppend(es: seq<Entry>, e: Entry, victims: seq<nat>)
    ensures Without(es + [e], victims)
         == Without(es, victims) + (if e.id in victims then [] else [e])
  {
    if es == [] {
      assert es + [e] == [e];
      assert Without([e][1..], victims) == [];
    } else {
      assert (es + [e])[1..] == es[1..] + [e];
      WithoutAppend(es[1..], e, victims);
      Regroup(if es[0].id in victims then [] else [es[0]], Without(es[1..], victims), if e.id in victims then [] else [e]);
    }
  }

  lemma {:induction false} WithoutNobody(es: seq<Entry>)
    ensures Without(es, []) == es
  {
    if es != [] { WithoutNobody(es[1..]); }
  }

  /** The filter is order preserving: what stays is a strictly increasing
      selection of positions. */
  lemma {:induction false} WithoutOrder(es: seq<Entry>, victims: seq<nat>) returns (at: seq<nat>)
    ensures |at| == |Without(es, victims)|
    ensures forall i :: 0 <= i < |at| ==> at[i] < |es| && es[at[i]] == Without(es, victims)[i]
    ensures forall i, j :: 0 <= i < j < |at| ==> at[i] < at[j]
  {
    if es == [] {
      at := [];
    } else {
      var rest := WithoutOrder(es[1..], victims);
      var shifted := seq(|rest|, i requires 0 <= i < |rest| => rest[i] + 1);
      if es[0].id in victims {
        at := shifted;
      } else {
        at := [0] + shifted;
        forall i | 0 < i < |at| ensures at[i] == rest[i - 1] + 1 && es[at[i]] == Without(es[1..], victims)[i - 1] {
          assert es[at[i]] == es[1..][rest[i - 1]];
        }
      }
    }
  }

  lemma IdsMember(es: seq<Entry>, id: nat)
    ensures id in Ids(es) <==> exists i :: 0 <= i < |es| && es[i].id == id
  {
    if id in Ids(es) {
      var i :| 0 <= i < |Ids(es)| && Ids(es)[i] == id;
      assert es[i].id == id;
    }
    if i :| 0 <= i < |es| && es[i].id == id {
      assert Ids(es)[i] == id;
    }
  }

  lemma WithoutIds(es: seq<Entry>, victims: seq<nat>, id: nat)
    ensures id in Ids(Without(es, victims)) <==> id in Ids(es) && id !in victims
  {
    var kept := Without(es, victims);
    IdsMember(es, id);
    IdsMember(kept, id);
    if i :| 0 <= i < |kept| && kept[i].id == id {
      WithoutKeeps(es, victims, kept[i]);
      var j :| 0 <= j < |es| && es[j] == kept[i];
      assert es[j].id == id;
    }
    if i :| 0 <= i < |es| && es[i].id == id && id !in victims {
      WithoutKeeps(es, victims, es[i]);
      var j :| 0 <= j < |kept| && kept[j] == es[i];
      assert kept[j].id == id;
    }
  }

  lemma WithoutDistinct(es: seq<Entry>, victims: seq<nat>)
    requires Distinct(Ids(es))
    ensures Distinct(Ids(Without(es, victims)))
  {
    var at := WithoutOrder(es, victims);
    var kept := Without(es, victims);
    forall i: nat, j: nat | i < j < |kept| ensures Differ(Ids(kept), i, j) {
      assert Differ(Ids(es), at[i], at[j]);
    }
  }

  // ---------- the claim ----------

  lemma {:induction false} UnclaimedMember(es: seq<Entry>, id: nat)
    ensures id in Unclaimed(es) <==> exists i :: 0 <= i < |es| && es[i].id == id && !es[i].replayed
  {
    if es != [] {
      UnclaimedMember(es[1..], id);
      if i :| 0 <= i < |es[1..]| && es[1..][i].id == id && !es[1..][i].replayed {
        assert es[i + 1].id == id && !es[i + 1].replayed;
      }
      if i :| 0 <= i < |es| && es[i].id == id && !es[i].replayed {
        if i > 0 { assert es[1..][i - 1].id == id && !es[1..][i - 1].replayed; }
      }
    }
  }

  lemma {:induction false} UnclaimedDistinct(es: seq<Entry>)
    requires Distinct(Ids(es))
    ensures Distinct(Unclaimed(es))
  {
    if es != [] {
      assert Ids(es)[1..] == Ids(es[1..]);
      forall i: nat, j: nat | i < j < |Ids(es[1..])| ensures Differ(Ids(es[1..]), i, j) {
        assert Differ(Ids(es), i + 1, j + 1);
      }
      UnclaimedDistinct(es[1..]);
      forall i | 0 <= i < |es[1..]| ensures es[1..][i].id != es[0].id {
        assert Differ(Ids(es), 0, i + 1);
      }
      UnclaimedMember(es[1..], es[0].id);
      DistinctConcat([es[0].id], Unclaimed(es[1..]));
      assert es[0].replayed ==> Unclaimed(es) == Unclaimed(es[1..]);
    }
  }

  lemma DistinctConcat<T>(a: seq<T>, b: seq<T>)
    requires Distinct(a) && Distinct(b)
    requires forall x :: x in a ==> x !in b
    ensures Distinct(a + b)
  {
    forall i: nat, j: nat | i < j < |a + b| ensures Differ(a + b, i, j) {
      if j < |a| { assert Differ(a, i, j); }
      else if |a| <= i { assert Differ(b, i - |a|, j - |a|); }
      else { assert a[i] in a && b[j - |a|] in b; }
    }
  }

  // ---------- every critical section keeps the queue in order ----------

  lemma EnqueueOk(q: Queue, id: nat, uuid: string)
    requires QueueOk(q) && |q.pending| < MAX_PENDING_SLOTS
    requires id !in Ids(q.pending) && id !in q.current
    ensures QueueOk(Enqueue(q, id, uuid))
  {
    var q' := Enqueue(q, id, uuid);
    assert Ids(q'.pending) == Ids(q.pending) + [id];
    DistinctConcat(Ids(q.pending), [id]);
  }

  lemma RemoveByIdOk(q: Queue, id: nat)
    requires QueueOk(q)
    ensures QueueOk(RemoveById(q, id))
  {
    var kept := Without(q.pending, [id]);
    WithoutDistinct(q.pending, [id]);
    WithoutLength(q.pending, [id]);
    forall i | 0 <= i < |kept| ensures kept[i].replayed <==> kept[i].id in q.current {
      WithoutKeeps(q.pending, [id], kept[i]);
    }
  }

  /** What a replay does to the claim: it adds exactly the pending slots it
      marks, keeps everything already claimed in place, and reorders nothing. */
  lemma ReplayClaims(q: Queue, uuid: string)
    requires QueueOk(q)
    ensures QueueOk(Replay(q, uuid))
    ensures Ids(Replay(q, uuid).pending) == Ids(q.pending)
    ensures q.current <= Replay(q, uuid).current
    ensures forall id :: id in Replay(q, uuid).current ==> id in q.current || id in Ids(q.pending)
  {
    var q' := Replay(q, uuid);
    var k := if uuid == "" then |q.pending| else IndexOfUuid(q.pending, uuid);
    assert Ids(q'.pending) == Ids(q.pending);
    if k < |q.pending| {
      if !q.pending[k].replayed {
        DistinctConcat(q.current, [q.pending[k].id]);
        forall i | 0 <= i < |q'.pending| ensures q'.pending[i].replayed <==> q'.pending[i].id in q'.current {
          if i < k { assert Differ(Ids(q.pending), i, k); }
          if k < i { assert Differ(Ids(q.pending), k, i); }
        }
        assert q.pending[k].id == Ids(q.pending)[k];
      }
    } else {
      UnclaimedDistinct(q.pending);
      forall id | id in Unclaimed(q.pending) ensures id !in q.current && id in Ids(q.pending) {
        UnclaimedMember(q.pending, id);
        IdsMember(q.pending, id);
      }
      DistinctConcat(q.current, Unclaimed(q.pending));
      forall i | 0 <= i < |q'.pending| ensures q'.pending[i].id in q'.current {
        UnclaimedMember(q.pending, q.pending[i].id);
      }
    }
  }

  /** A merged replay leaves nobody unclaimed. */
  lemma MergedReplayClaimsAll(q: Queue, uuid: string)
    requires QueueOk(q)
    requires uuid == "" || IndexOfUuid(q.pending, uuid) == |q.pending|
    ensures forall id :: id in Ids(q.pending) ==> id in Replay(q, uuid).current
  {
    ReplayClaims(q, uuid);
    var q' := Replay(q, uuid);
    forall id | id in Ids(q.pending) ensures id in q'.current {
      var i :| 0 <= i < |Ids(q.pending)| && Ids(q.pending)[i] == id;
      assert q'.pending[i].replayed && q'.pending[i].id == id;
    }
  }

  /** After a result nothing is claimed, and exactly the unclaimed slots are
      still queued, none of them marked. */
  lemma EndTurnOk(q: Queue)
    requires QueueOk(q)
    ensures QueueOk(EndTurn(q))
    ensures forall e :: e in EndTurn(q).pending <==> e in q.pending && !e.replayed
  {
    var kept := Without(q.pending, q.current);
    WithoutDistinct(q.pending, q.current);
    WithoutLength(q.pending, q.current);
    forall e ensures e in kept <==> e in q.pending && !e.replayed {
      WithoutKeeps(q.pending, q.current, e);
    }
    forall i | 0 <= i < |kept| ensures !kept[i].replayed {
      assert kept[i] in kept;
    }
  }
}
