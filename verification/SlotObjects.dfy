/** The slot bookkeeping as the code has it: slot objects with two one-place
    channels, and a pending slice that is appended to, compacted and shrunk in
    place.  Each method is proved against the pure effect of the same name. */
module SlotObjects {
  import opened Wrappers
  import Q = SlotQueue
  import Ch = SlotChannel
  import P = SlotProtocol

  /** sendSlot. */
  class SendSlot {
    const id: nat
    const uuid: string
    var canceled: bool
    var replayed: bool
    var resultCh: Option<Ch.SendResult>
    var errCh: Option<string>
    ghost var results: seq<Ch.SendResult>
    ghost var errors: nat

    constructor (id: nat, uuid: string)
      ensures this.id == id && this.uuid == uuid && !replayed && View() == Ch.FreshChan
    {
      this.id, this.uuid := id, uuid;
      canceled, replayed := false, false;
      resultCh, errCh := None, None;
      results, errors := [], 0;
    }

    ghost function View(): Ch.Chan
      reads this
    {
      Ch.Chan(canceled, resultCh, errCh, results, errors)
    }

    ghost function Entry(): Q.Entry
      reads this`replayed
    {
      Q.Entry(id, uuid, replayed)
    }

    /** deliverSlotResult. */
    method DeliverSlotResult(r: Ch.SendResult) returns (delivered: bool)
      modifies this`resultCh, this`results
      ensures View() == Ch.Deliver(old(View()), r)
      ensures delivered == Ch.Accepts(old(View()))
    {
      delivered := false;
      if !canceled {
        if resultCh.None? {
          resultCh, results := Some(r), results + [r];
          delivered := true;
        }
      }
    }

    /** abandonSlot. */
    method AbandonSlot() returns (res: Option<Ch.SendResult>)
      modifies this`canceled, this`resultCh
      ensures View() == Ch.Abandon(old(View()))
      ensures res == old(resultCh)
    {
      canceled := true;
      res := resultCh;
      resultCh := None;
    }

    /** One victim of discardAllPending. */
    method TellDiscarded(reason: string)
      modifies this`errCh, this`errors
      ensures View() == if old(canceled) then old(View()) else Ch.PushError(old(View()), reason)
    {
      if canceled { return; }
      if errCh.None? {
        errCh, errors := Some(reason), errors + 1;
      }
    }
  }

  ghost function Entries(ss: seq<SendSlot>): (es: seq<Q.Entry>)
    reads ss
    ensures |es| == |ss|
    ensures forall i :: 0 <= i < |ss| ==> es[i] == ss[i].Entry()
  {
    seq(|ss|, i requires 0 <= i < |ss| reads ss => ss[i].Entry())
  }

  function IdsOf(ss: seq<SendSlot>): (ids: seq<nat>)
    ensures |ids| == |ss|
    ensures forall i :: 0 <= i < |ss| ==> ids[i] == ss[i].id
  {
    seq(|ss|, i requires 0 <= i < |ss| => ss[i].id)
  }

  /** sendSlots: `buf[..len]` is the pending slice, `buf.Length` its capacity. */
  class SendSlots {
    var buf: array<SendSlot?>
    var len: nat
    var current: seq<SendSlot>
    ghost var pending: seq<SendSlot>

    /** The slice holds `pending`, its spare capacity holds no slot (so a dropped
        slot is not kept alive), and ids tell slots apart. */
    ghost predicate Valid()
      reads this, buf
    {
      && len == |pending| <= buf.Length
      && (forall i :: 0 <= i < len ==> buf[i] == pending[i])
      && (forall i :: len <= i < buf.Length ==> buf[i] == null)
      && Q.Distinct(IdsOf(pending))
    }

    ghost function View(): Q.Queue
      reads this, pending
    {
      Q.Queue(Entries(pending), IdsOf(current))
    }

    constructor ()
      ensures Valid() && View() == Q.Queue([], []) && fresh(buf)
    {
      buf := new SendSlot?[0];
      len, current, pending := 0, [], [];
    }

    /** Go's append growth: a larger array with the same slots. */
    method Grow()
      requires Valid()
      modifies this`buf
      ensures Valid() && fresh(buf) && len < buf.Length
    {
      var grown := new SendSlot?[2 * buf.Length + 1](_ => null);
      CopySlots(buf, grown, len);
      buf := grown;
    }

    /** append: in place while there is room. */
    method Append(slot: SendSlot)
      requires Valid() && slot.id !in IdsOf(pending)
      modifies this`buf, this`len, this`pending, buf
      ensures Valid() && (buf == old(buf) || fresh(buf))
      ensures pending == old(pending) + [slot]
    {
      if len == buf.Length { Grow(); }
      IdsOfSnoc(pending, slot);
      Q.DistinctConcat(IdsOf(pending), [slot.id]);
      buf[len] := slot;
      len := len + 1;
      pending := pending + [slot];
    }

    /** The append under the write lock; false when the queue is full. */
    method Enqueue(slot: SendSlot) returns (queued: bool)
      requires Valid() && !slot.replayed && slot.id !in IdsOf(pending)
      modifies this`buf, this`len, this`pending, buf
      ensures Valid() && (buf == old(buf) || fresh(buf))
      ensures queued <==> old(|pending|) < Q.MAX_PENDING_SLOTS
      ensures View() == if queued then Q.Enqueue(old(View()), slot.id, slot.uuid) else old(View())
    {
      if len >= Q.MAX_PENDING_SLOTS { return false; }
      Append(slot);
      EntriesSame(old(pending));
      EntriesSnoc(old(pending), slot);
      queued := true;
    }

    /** removeSlotByID: shifts the tail down one place and clears the last. */
    method RemoveSlotByID(id: nat)
      requires Valid()
      modifies this`len, this`pending, buf
      ensures Valid()
      ensures View() == Q.RemoveById(old(View()), id)
    {
      RemoveFirst(id);
      EntriesSame(old(pending));
      KeepEntries(old(pending), [id]);
    }

    method RemoveFirst(id: nat)
      requires Valid()
      modifies this`len, this`pending, buf
      ensures Valid() && pending == Keep(old(pending), [id])
    {
      var i := 0;
      while i < len && !SlotIs(buf[i], id)
        invariant 0 <= i <= len
        invariant forall k :: 0 <= k < i ==> pending[k].id != id
      {
        i := i + 1;
      }
      KeepDistinct(pending, [id]);
      if i == len {
        KeepAbsent(pending, id);
        return;
      }
      OnlyAt(pending, i);
      KeepAt(pending, id, i);
      CloseGap(i);
    }

    /** append(old[:i], old[i+1:]...) and the cleared last place. */
    method CloseGap(i: nat)
      requires i < len == |pending| <= buf.Length
      requires forall k :: 0 <= k < len ==> buf[k] == pending[k]
      requires forall k :: len <= k < buf.Length ==> buf[k] == null
      modifies this`len, this`pending, buf
      ensures pending == old(pending[..i] + pending[i + 1..]) && len == |pending|
      ensures forall k :: 0 <= k < len ==> buf[k] == pending[k]
      ensures forall k :: len <= k < buf.Length ==> buf[k] == null
    {
      ghost var kept := pending[..i] + pending[i + 1..];
      for j := i to len - 1
        modifies buf
        invariant forall k :: 0 <= k < j ==> buf[k] == kept[k]
        invariant forall k :: j <= k < len ==> buf[k] == pending[k]
        invariant forall k :: len <= k < buf.Length ==> buf[k] == null
      {
        buf[j] := buf[j + 1];
      }
      pending := kept;
      len := len - 1;
      buf[len] := null;
    }

    /** The in-place filter of removeSlotsLocked: kept slots move down. */
    method Compact(victims: seq<SendSlot>, victimSet: set<nat>) returns (k: nat)
      requires Valid()
      requires |victims| > 4 ==> forall x :: x in victimSet <==> x in IdsOf(victims)
      modifies buf
      ensures k == |Keep(pending, IdsOf(victims))| <= len
      ensures forall j :: 0 <= j < k ==> buf[j] == Keep(pending, IdsOf(victims))[j]
      ensures forall j :: len <= j < buf.Length ==> buf[j] == null
    {
      ghost var ids := IdsOf(victims);
      ghost var kept: seq<SendSlot> := [];
      k := 0;
      for i := 0 to len
        modifies buf
        invariant k == |kept| <= i && kept == Keep(pending[..i], ids)
        invariant forall j :: 0 <= j < k ==> buf[j] == kept[j]
        invariant forall j :: i <= j < len ==> buf[j] == pending[j]
        invariant forall j :: len <= j < buf.Length ==> buf[j] == null
      {
        var s := buf[i];
        var isVictim := if |victims| > 4 then s.id in victimSet else false;
        if |victims| <= 4 { isVictim := ScanVictims(victims, s.id); }
        assert pending[..i + 1] == pending[..i] + [s];
        KeepSnoc(pending[..i], s, ids);
        if !isVictim {
          buf[k] := s;
          kept, k := kept + [s], k + 1;
        }
      }
      assert pending[..len] == pending;
    }

    /** The filtered slice's tail is cleared. */
    method ClearTail(k: nat, ghost kept: seq<SendSlot>)
      requires k == |kept| <= len <= buf.Length
      requires forall j :: 0 <= j < k ==> buf[j] == kept[j]
      requires forall j :: len <= j < buf.Length ==> buf[j] == null
      modifies this`len, this`pending, buf
      ensures len == k && pending == kept
      ensures forall j :: 0 <= j < k ==> buf[j] == kept[j]
      ensures forall j :: k <= j < buf.Length ==> buf[j] == null
    {
      for i := k to len
        modifies buf
        invariant forall j :: 0 <= j < k ==> buf[j] == kept[j]
        invariant forall j :: k <= j < i ==> buf[j] == null
        invariant forall j :: len <= j < buf.Length ==> buf[j] == null
      {
        buf[i] := null;
      }
      len, pending := k, kept;
    }

    /** A mostly empty backing array is replaced by a tight one. */
    method Shrink()
      requires Valid()
      modifies this`buf
      ensures Valid() && (buf == old(buf) || fresh(buf))
      ensures buf.Length > 8 ==> 4 * len >= buf.Length
    {
      if buf.Length > 8 && len * 4 < buf.Length {
        var shrunk := new SendSlot?[len + 2](_ => null);
        CopySlots(buf, shrunk, len);
        buf := shrunk;
      }
    }

    /** removeSlotsLocked: the filter, by scan for at most four victims and by
        set beyond, then the tail cleared and a sparse array replaced. */
    method RemoveSlots(victims: seq<SendSlot>)
      requires Valid()
      modifies this`buf, this`len, this`pending, buf
      ensures Valid() && (buf == old(buf) || fresh(buf))
      ensures View() == old(View()).(pending := Q.Without(old(View()).pending, IdsOf(victims)))
      ensures |victims| > 0 && buf.Length > 8 ==> 4 * len >= buf.Length
    {
      if |victims| == 0 {
        assert IdsOf(victims) == [];
        Q.WithoutNobody(Entries(pending));
        return;
      }
      Filter(victims);
      EntriesSame(old(pending));
      KeepEntries(old(pending), IdsOf(victims));
    }

    method Filter(victims: seq<SendSlot>)
      requires Valid()
      modifies this`buf, this`len, this`pending, buf
      ensures Valid() && (buf == old(buf) || fresh(buf))
      ensures pending == Keep(old(pending), IdsOf(victims))
      ensures buf.Length > 8 ==> 4 * len >= buf.Length
    {
      KeepDistinct(pending, IdsOf(victims));
      var victimSet := IdSet(victims);
      var k := Compact(victims, victimSet);
      ClearTail(k, Keep(pending, IdsOf(victims)));
      Shrink();
    }

    /** findSlotByUUIDLocked. */
    method FindSlotByUUID(uuid: string) returns (k: nat)
      requires Valid()
      ensures k == if uuid == "" then len else Q.IndexOfUuid(View().pending, uuid)
    {
      if uuid == "" { return len; }
      k := 0;
      while k < len && !SlotHasUuid(buf[k], uuid)
        invariant 0 <= k <= len
        invariant forall i :: 0 <= i < k ==> pending[i].uuid != uuid
      {
        k := k + 1;
      }
      FirstUuid(View().pending, uuid, k);
    }

    /** handleReplayEventLocked. */
    method HandleReplay(uuid: string)
      requires Valid()
      modifies this`current, pending`replayed
      ensures Valid() && View() == Q.Replay(old(View()), uuid)
    {
      var k := FindSlotByUUID(uuid);
      if k < len {
        if !buf[k].replayed { ClaimOne(k); }
      } else {
        Sweep();
      }
    }

    /** An independent replay claims one slot. */
    method ClaimOne(k: nat)
      requires Valid() && k < len && !pending[k].replayed
      modifies this`current, pending`replayed
      ensures Valid()
      ensures var q := old(View());
        View() == Q.Queue(q.pending[k := Q.Claimed(q.pending[k])], q.current + [q.pending[k].id])
    {
      ghost var q := View();
      buf[k].replayed := true;
      IdsOfSnoc(current, pending[k]);
      current := current + [buf[k]];
      OnlyAt(pending, k);
      EntriesAre(pending, q.pending[k := Q.Claimed(q.pending[k])]);
    }

    /** The merged replay: every unclaimed pending slot is claimed, in order. */
    method Sweep()
      requires Valid()
      modifies this`current, pending`replayed
      ensures Valid()
      ensures View() == Q.Queue(Q.AllClaimed(old(View()).pending), old(View()).current + Q.Unclaimed(old(View()).pending))
    {
      ghost var q := View();
      SweepFrom(q);
      EntriesAre(pending, Q.AllClaimed(q.pending));
    }

    method SweepFrom(ghost q: Q.Queue)
      requires Valid() && q == View()
      modifies this`current, pending`replayed
      ensures forall j :: 0 <= j < len ==> pending[j].replayed
      ensures IdsOf(current) == q.current + Q.Unclaimed(q.pending)
    {
      for i := 0 to len
        modifies this`current, pending`replayed
        invariant forall j :: 0 <= j < i ==> pending[j].replayed
        invariant forall j :: i <= j < len ==> pending[j].replayed == q.pending[j].replayed
        invariant IdsOf(current) == q.current + Q.Unclaimed(q.pending[..i])
      {
        var s := buf[i];
        UnclaimedNext(q.pending, i);
        OnlyAt(pending, i);
        if !s.replayed {
          s.replayed := true;
          IdsOfSnoc(current, s);
          current := current + [s];
        }
      }
      assert q.pending[..len] == q.pending;
    }

    /** onTurnResult, under the lock. */
    method OnTurnResult() returns (owners: seq<SendSlot>, pendingLeft: nat)
      requires Valid()
      modifies this, buf
      ensures Valid() && (buf == old(buf) || fresh(buf))
      ensures owners == old(current) && pendingLeft == |View().pending|
      ensures View() == Q.EndTurn(old(View()))
    {
      owners := current;
      current := [];
      RemoveSlots(owners);
      pendingLeft := len;
    }

    /** discardAllPending: the locked snapshot. */
    method TakeAll() returns (victims: seq<SendSlot>)
      requires Valid()
      modifies this
      ensures Valid() && fresh(buf) && View() == Q.Queue([], [])
      ensures victims == old(pending) + old(current)
    {
      victims := buf[..len] + current;
      assert buf[..len] == pending;
      buf := new SendSlot?[0];
      len, pending, current := 0, [], [];
    }
  }

  /** discardAllPending outside the lock: everybody not canceled has an error
      waiting afterwards, a slot listed twice is told once, and results stay. */
  method TellAll(victims: seq<SendSlot>, reason: string)
    modifies victims`errCh, victims`errors
    ensures forall s :: s in victims ==> s.canceled || s.errCh.Some?
    ensures forall s :: s in victims ==>
      s.View() == if old(s.canceled) then old(s.View()) else Ch.PushError(old(s.View()), reason)
  {
    for i := 0 to |victims|
      invariant forall j :: 0 <= j < i ==>
        victims[j].View() == if old(victims[j].canceled) then old(victims[j].View()) else Ch.PushError(old(victims[j].View()), reason)
      invariant forall j :: 0 <= j < |victims| ==>
        || victims[j].View() == old(victims[j].View())
        || (!old(victims[j].canceled) && victims[j].View() == Ch.PushError(old(victims[j].View()), reason))
    {
      victims[i].TellDiscarded(reason);
    }
  }

  /** Copies the first n slots of one backing array to another. */
  method CopySlots(from: array<SendSlot?>, to: array<SendSlot?>, n: nat)
    requires n <= from.Length && n <= to.Length && from != to
    modifies to
    ensures forall j :: 0 <= j < n ==> to[j] == from[j]
    ensures forall j :: n <= j < to.Length ==> to[j] == old(to[j])
  {
    for i := 0 to n
      invariant forall j :: 0 <= j < i ==> to[j] == from[j]
      invariant forall j :: i <= j < to.Length ==> to[j] == old(to[j])
    {
      to[i] := from[i];
    }
  }

  /** The victims' ids as a set, built as the code builds its map. */
  method IdSet(victims: seq<SendSlot>) returns (ids: set<nat>)
    ensures forall x :: x in ids <==> x in IdsOf(victims)
  {
    ids := {};
    for i := 0 to |victims|
      invariant forall x :: x in ids <==> x in IdsOf(victims)[..i]
    {
      ids := ids + {victims[i].id};
      assert IdsOf(victims)[..i + 1] == IdsOf(victims)[..i] + [victims[i].id];
    }
    assert IdsOf(victims)[..|victims|] == IdsOf(victims);
  }

  /** Entries only depend on the replayed marks. */
  twostate lemma EntriesSame(ss: seq<SendSlot>)
    requires forall i :: 0 <= i < |ss| ==> ss[i].replayed == old(ss[i].replayed)
    ensures Entries(ss) == old(Entries(ss))
  {
  }

  lemma EntriesAre(ss: seq<SendSlot>, es: seq<Q.Entry>)
    requires |ss| == |es| && forall i :: 0 <= i < |ss| ==> ss[i].Entry() == es[i]
    ensures Entries(ss) == es
  {
  }

  lemma PairDiffers(ss: seq<SendSlot>, a: nat, b: nat)
    requires Q.Distinct(IdsOf(ss)) && a < |ss| && b < |ss| && a != b
    ensures ss[a].id != ss[b].id
  {
    if a < b { assert Q.Differ(IdsOf(ss), a, b); } else { assert Q.Differ(IdsOf(ss), b, a); }
  }

  lemma OnlyAt(ss: seq<SendSlot>, i: nat)
    requires Q.Distinct(IdsOf(ss)) && i < |ss|
    ensures forall k :: 0 <= k < |ss| && k != i ==> ss[k].id != ss[i].id
  {
    forall k | 0 <= k < |ss| && k != i ensures ss[k].id != ss[i].id {
      PairDiffers(ss, k, i);
    }
  }

  lemma EntriesSnoc(ss: seq<SendSlot>, s: SendSlot)
    ensures Entries(ss + [s]) == Entries(ss) + [s.Entry()]
  {
  }

  lemma IdsOfSnoc(ss: seq<SendSlot>, s: SendSlot)
    ensures IdsOf(ss + [s]) == IdsOf(ss) + [s.id]
  {
  }

  /** The slots whose id is not among `ids`, in their order. */
  ghost function Keep(ss: seq<SendSlot>, ids: seq<nat>): seq<SendSlot> {
    if ss == [] then [] else (if ss[0].id in ids then [] else [ss[0]]) + Keep(ss[1..], ids)
  }

  lemma {:induction false} KeepEntries(ss: seq<SendSlot>, ids: seq<nat>)
    ensures Entries(Keep(ss, ids)) == Q.Without(Entries(ss), ids)
  {
    if ss != [] {
      KeepEntries(ss[1..], ids);
      assert Entries(ss)[1..] == Entries(ss[1..]);
      var head := if ss[0].id in ids then [] else [ss[0]];
      assert Entries(head + Keep(ss[1..], ids)) == Entries(head) + Entries(Keep(ss[1..], ids));
    }
  }

  lemma {:induction false} KeepSnoc(ss: seq<SendSlot>, s: SendSlot, ids: seq<nat>)
    ensures Keep(ss + [s], ids) == Keep(ss, ids) + (if s.id in ids then [] else [s])
  {
    if ss == [] {
      assert ss + [s] == [s] && Keep([s][1..], ids) == [];
    } else {
      assert (ss + [s])[1..] == ss[1..] + [s];
      KeepSnoc(ss[1..], s, ids);
    }
  }

  lemma {:induction false} KeepAll(ss: seq<SendSlot>)
    ensures Keep(ss, []) == ss
  {
    if ss != [] { KeepAll(ss[1..]); }
  }

  lemma {:induction false} KeepAbsent(ss: seq<SendSlot>, id: nat)
    requires forall i :: 0 <= i < |ss| ==> ss[i].id != id
    ensures Keep(ss, [id]) == ss
  {
    if ss != [] { KeepAbsent(ss[1..], id); }
  }

  /** With distinct ids the filter removes one position. */
  lemma {:induction false} KeepAt(ss: seq<SendSlot>, id: nat, i: nat)
    requires i < |ss| && forall k :: 0 <= k < |ss| ==> (ss[k].id == id <==> k == i)
    ensures Keep(ss, [id]) == ss[..i] + ss[i + 1..]
  {
    if i == 0 {
      KeepAbsent(ss[1..], id);
    } else {
      KeepAt(ss[1..], id, i - 1);
      assert ss[..i] == [ss[0]] + ss[1..][..i - 1];
      assert ss[1..][i..] == ss[i + 1..];
    }
  }

  lemma KeepDistinct(ss: seq<SendSlot>, ids: seq<nat>)
    requires Q.Distinct(IdsOf(ss))
    ensures Q.Distinct(IdsOf(Keep(ss, ids)))
  {
    KeepEntries(ss, ids);
    assert Q.Ids(Entries(ss)) == IdsOf(ss);
    Q.WithoutDistinct(Entries(ss), ids);
    assert Q.Ids(Entries(Keep(ss, ids))) == IdsOf(Keep(ss, ids));
  }

  predicate SlotIs(s: SendSlot?, id: nat) { s != null && s.id == id }

  predicate SlotHasUuid(s: SendSlot?, uuid: string) { s != null && s.uuid == uuid }

  /** The scan for at most four victims. */
  method ScanVictims(victims: seq<SendSlot>, id: nat) returns (found: bool)
    ensures found <==> id in IdsOf(victims)
  {
    for i := 0 to |victims|
      invariant forall j :: 0 <= j < i ==> victims[j].id != id
    {
      if victims[i].id == id {
        assert IdsOf(victims)[i] == id;
        return true;
      }
    }
    return false;
  }

  lemma {:induction false} FirstUuid(es: seq<Q.Entry>, uuid: string, k: nat)
    requires k <= |es| && (forall i :: 0 <= i < k ==> es[i].uuid != uuid) && (k < |es| ==> es[k].uuid == uuid)
    ensures Q.IndexOfUuid(es, uuid) == k
  {
    var m := Q.IndexOfUuid(es, uuid);
    assert !(m < k) && !(k < m);
  }

  lemma UnclaimedNext(es: seq<Q.Entry>, i: nat)
    requires i < |es|
    ensures Q.Unclaimed(es[..i + 1]) == Q.Unclaimed(es[..i]) + (if es[i].replayed then [] else [es[i].id])
  {
    assert es[..i + 1] == es[..i] + [es[i]];
    UnclaimedAppend(es[..i], es[i]);
  }

  lemma {:induction false} UnclaimedAppend(es: seq<Q.Entry>, e: Q.Entry)
    ensures Q.Unclaimed(es + [e]) == Q.Unclaimed(es) + (if e.replayed then [] else [e.id])
  {
    if es == [] {
      assert es + [e] == [e] && Q.Unclaimed([e][1..]) == [];
    } else {
      assert (es + [e])[1..] == es[1..] + [e];
      UnclaimedAppend(es[1..], e);
    }
  }

  /** fanoutTurnResult with nobody interleaved: every owner is offered its
      result, and the head's is booked exactly when the head refuses it. */
  method FanoutTurnResult(owners: seq<SendSlot>, k: nat, ev: Ch.ResultEvent) returns (booked: seq<Ch.SendResult>)
    requires forall i, j :: 0 <= i < j < |owners| ==> owners[i] != owners[j]
    modifies owners`resultCh, owners`results
    ensures var t := P.Turn(ev, IdsOf(owners));
      && (forall j :: 0 <= j < |owners| ==> owners[j].View() == Ch.Deliver(old(owners[j].View()), P.OwnerResult(k, t, j)))
      && booked == if owners == [] || old(Ch.Accepts(owners[0].View())) then [] else [P.HeadResult(k, t)]
  {
    if |owners| == 0 { return []; }
    var merged := |owners|;
    ghost var t := P.Turn(ev, IdsOf(owners));
    var headRes := Ch.SendResult(k, ev.text, ev.costUSD, merged, 0, "");
    var delivered := owners[0].DeliverSlotResult(headRes);
    booked := if delivered then [] else [headRes];
    for i := 1 to |owners|
      invariant forall j :: 0 <= j < i ==> owners[j].View() == Ch.Deliver(old(owners[j].View()), P.OwnerResult(k, t, j))
      invariant forall j :: i <= j < |owners| ==> owners[j].View() == old(owners[j].View())
    {
      var folRes := Ch.SendResult(k, "", 0.0, merged, owners[0].id, ev.text);
      var _ := owners[i].DeliverSlotResult(folRes);
    }
  }
}
