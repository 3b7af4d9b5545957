/** The rune-based toast store: a list of toasts in the order they were added
    and a counter that hands out their ids. Every added toast also schedules
    its own removal five seconds later. */
module ToastRunes {
  import opened Seqs
  import opened Keyed

  datatype ToastKind = Success | Error | Warning | Info

  datatype Toast = Toast(id: nat, kind: ToastKind, message: string)

  /** The delay of the automatic removal, in milliseconds. */
  const AutoRemoveDelay := 5000

  /** A scheduled call of removeToast(id) after delay milliseconds. */
  datatype ScheduledRemoval = ScheduledRemoval(id: nat, delay: int)

  /** Ids strictly increase along the list. */
  predicate IdsIncreasing(ts: seq<Toast>)
  {
    forall i, j :: 0 <= i < j < |ts| ==> ts[i].id < ts[j].id
  }

  /** Every id was handed out before the counter reached n. */
  predicate IdsBelow(ts: seq<Toast>, n: nat)
  {
    forall i :: 0 <= i < |ts| ==> ts[i].id < n
  }

  /** The key toasts are removed by. */
  function ToastId(t: Toast): nat
  {
    t.id
  }

  /** Dropping toasts from a list keeps its ids increasing. */
  lemma {:induction false} SubsequenceKeepsIncreasing(a: seq<Toast>, b: seq<Toast>)
    requires IsSubsequence(a, b) && IdsIncreasing(b)
    ensures IdsIncreasing(a)
    decreases |b|
  {
    if a != [] {
      var b' := b[1..];
      assert IdsIncreasing(b') by {
        forall i, j | 0 <= i < j < |b'| ensures b'[i].id < b'[j].id {
          assert b'[i] == b[i + 1] && b'[j] == b[j + 1];
        }
      }
      if a[0] == b[0] && IsSubsequence(a[1..], b') {
        SubsequenceKeepsIncreasing(a[1..], b');
        SubsequenceMembers(a[1..], b');
        forall i, j | 0 <= i < j < |a| ensures a[i].id < a[j].id {
          assert a[j] == a[1..][j - 1];
          var m :| 0 <= m < |b'| && b'[m] == a[j];
          assert b'[m] == b[m + 1];
          if i > 0 { assert a[i] == a[1..][i - 1]; }
        }
      } else {
        SubsequenceKeepsIncreasing(a, b');
      }
    }
  }

  /** Removing a toast keeps the ids increasing. */
  lemma RemoveKeepsIncreasing(ts: seq<Toast>, id: nat)
    requires IdsIncreasing(ts)
    ensures IdsIncreasing(RemoveById(ts, id, ToastId))
  {
    SubsequenceKeepsIncreasing(RemoveById(ts, id, ToastId), ts);
  }

  /** Increasing ids are unique ids. */
  lemma IncreasingIdsAreUnique(ts: seq<Toast>)
    requires IdsIncreasing(ts)
    ensures forall i, j :: 0 <= i < |ts| && 0 <= j < |ts| && i != j ==> ts[i].id != ts[j].id
  {
    forall i, j | 0 <= i < |ts| && 0 <= j < |ts| && i != j ensures ts[i].id != ts[j].id {
      if i < j { assert ts[i].id < ts[j].id; } else { assert ts[j].id < ts[i].id; }
    }
  }

  /** Removing a toast right after adding it, when its id is new, gives the old list back. */
  lemma RemoveUndoesAdd(ts: seq<Toast>, t: Toast)
    requires forall i :: 0 <= i < |ts| ==> ts[i].id != t.id
    ensures RemoveById(ts + [t], t.id, ToastId) == ts
  {
    RemoveByIdAppend(ts, [t], t.id, ToastId);
  }

  class ToastStore {
    var toasts: seq<Toast>
    var nextId: nat
    /** The automatic removals scheduled so far, in the order scheduled. */
    var pendingRemovals: seq<ScheduledRemoval>

    ghost predicate Valid()
      reads this
    {
      IdsIncreasing(toasts) && IdsBelow(toasts, nextId)
    }

    /** createToastStore: no toasts, the counter at 0. */
    constructor ()
      ensures toasts == [] && nextId == 0 && pendingRemovals == []
      ensures Valid()
    {
      toasts, nextId, pendingRemovals := [], 0, [];
    }

    /** addToast: the new toast takes the counter's value as its id and goes at
        the end; its removal is scheduled. */
    method AddToast(kind: ToastKind, message: string)
      requires Valid()
      modifies this
      ensures Valid()
      ensures toasts == old(toasts) + [Toast(old(nextId), kind, message)]
      ensures nextId == old(nextId) + 1
      ensures pendingRemovals == old(pendingRemovals) + [ScheduledRemoval(old(nextId), AutoRemoveDelay)]
    {
      var id := nextId;
      nextId := nextId + 1;
      toasts := toasts + [Toast(id, kind, message)];
      pendingRemovals := pendingRemovals + [ScheduledRemoval(id, AutoRemoveDelay)];
    }

    /** removeToast. */
    method RemoveToast(id: nat)
      requires Valid()
      modifies this`toasts
      ensures Valid()
      ensures toasts == RemoveById(old(toasts), id, ToastId)
    {
      RemoveKeepsIncreasing(toasts, id);
      var kept := RemoveById(toasts, id, ToastId);
      SubsequenceMembers(kept, toasts);
      toasts := kept;
    }

    method Success(message: string)
      requires Valid()
      modifies this
      ensures Valid()
      ensures toasts == old(toasts) + [Toast(old(nextId), ToastKind.Success, message)]
      ensures nextId == old(nextId) + 1
      ensures pendingRemovals == old(pendingRemovals) + [ScheduledRemoval(old(nextId), AutoRemoveDelay)]
    {
      AddToast(ToastKind.Success, message);
    }

    method Error(message: string)
      requires Valid()
      modifies this
      ensures Valid()
      ensures toasts == old(toasts) + [Toast(old(nextId), ToastKind.Error, message)]
      ensures nextId == old(nextId) + 1
      ensures pendingRemovals == old(pendingRemovals) + [ScheduledRemoval(old(nextId), AutoRemoveDelay)]
    {
      AddToast(ToastKind.Error, message);
    }

    method Warning(message: string)
      requires Valid()
      modifies this
      ensures Valid()
      ensures toasts == old(toasts) + [Toast(old(nextId), ToastKind.Warning, message)]
      ensures nextId == old(nextId) + 1
      ensures pendingRemovals == old(pendingRemovals) + [ScheduledRemoval(old(nextId), AutoRemoveDelay)]
    {
      AddToast(ToastKind.Warning, message);
    }

    method Info(message: string)
      requires Valid()
      modifies this
      ensures Valid()
      ensures toasts == old(toasts) + [Toast(old(nextId), ToastKind.Info, message)]
      ensures nextId == old(nextId) + 1
      ensures pendingRemovals == old(pendingRemovals) + [ScheduledRemoval(old(nextId), AutoRemoveDelay)]
    {
      AddToast(ToastKind.Info, message);
    }

    method Remove(id: nat)
      requires Valid()
      modifies this`toasts
      ensures Valid()
      ensures toasts == RemoveById(old(toasts), id, ToastId)
    {
      RemoveToast(id);
    }
  }
}
