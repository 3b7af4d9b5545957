/** The writable-store toast queue: toasts with caller-supplied ids, each
    carrying the time it stays on screen; a positive duration schedules the
    toast's removal after that many milliseconds. */
module Toasts {
  import opened Seqs
  import opened Keyed
  import ToastRunes

  datatype QueuedToast =
    QueuedToast(id: string, message: string, kind: ToastRunes.ToastKind, duration: int)

  /** A scheduled call of remove(id) after delay milliseconds. */
  datatype Timer = Timer(id: string, delay: int)

  const DefaultDuration := 3000
  const SuccessDuration := 3000
  const ErrorDuration := 5000
  const InfoDuration := 3000
  const WarningDuration := 4000

  /** The key toasts are removed by. */
  function ToastId(t: QueuedToast): string
  {
    t.id
  }

  /** Removing an id a second time changes nothing. */
  lemma RemoveIdempotent(ts: seq<QueuedToast>, id: string)
    ensures RemoveById(RemoveById(ts, id, ToastId), id, ToastId) == RemoveById(ts, id, ToastId)
  {
    RemoveByIdIdempotent(ts, id, ToastId);
  }

  /** Removing an id that was just added drops every toast with that id,
      including the new one. */
  lemma RemoveAfterAdd(ts: seq<QueuedToast>, t: QueuedToast)
    ensures RemoveById(ts + [t], t.id, ToastId) == RemoveById(ts, t.id, ToastId)
  {
    RemoveByIdAppend(ts, [t], t.id, ToastId);
  }

  class ToastQueue {
    var toasts: seq<QueuedToast>
    /** The automatic removals scheduled so far, in the order scheduled. */
    var timers: seq<Timer>

    constructor ()
      ensures toasts == [] && timers == []
    {
      toasts, timers := [], [];
    }

    /** add: one toast at the end, carrying the given message, type and
        duration; a removal is scheduled only for a positive duration. The id
        the source draws at random is a parameter here. */
    method Add(id: string, message: string, kind: ToastRunes.ToastKind, duration: int := DefaultDuration)
      modifies this
      ensures toasts == old(toasts) + [QueuedToast(id, message, kind, duration)]
      ensures duration > 0 ==> timers == old(timers) + [Timer(id, duration)]
      ensures duration <= 0 ==> timers == old(timers)
    {
      toasts := toasts + [QueuedToast(id, message, kind, duration)];
      if duration > 0 {
        timers := timers + [Timer(id, duration)];
      }
    }

    /** remove. */
    method Remove(id: string)
      modifies this`toasts
      ensures toasts == RemoveById(old(toasts), id, ToastId)
    {
      toasts := RemoveById(toasts, id, ToastId);
    }

    /** clear. */
    method Clear()
      modifies this`toasts
      ensures toasts == []
    {
      toasts := [];
    }

    method Success(id: string, message: string, duration: int := SuccessDuration)
      modifies this
      ensures toasts == old(toasts) + [QueuedToast(id, message, ToastRunes.ToastKind.Success, duration)]
      ensures timers == old(timers) + if duration > 0 then [Timer(id, duration)] else []
    {
      Add(id, message, ToastRunes.ToastKind.Success, duration);
    }

    method Error(id: string, message: string, duration: int := ErrorDuration)
      modifies this
      ensures toasts == old(toasts) + [QueuedToast(id, message, ToastRunes.ToastKind.Error, duration)]
      ensures timers == old(timers) + if duration > 0 then [Timer(id, duration)] else []
    {
      Add(id, message, ToastRunes.ToastKind.Error, duration);
    }

    method Info(id: string, message: string, duration: int := InfoDuration)
      modifies this
      ensures toasts == old(toasts) + [QueuedToast(id, message, ToastRunes.ToastKind.Info, duration)]
      ensures timers == old(timers) + if duration > 0 then [Timer(id, duration)] else []
    {
      Add(id, message, ToastRunes.ToastKind.Info, duration);
    }

    method Warning(id: string, message: string, duration: int := WarningDuration)
      modifies this
      ensures toasts == old(toasts) + [QueuedToast(id, message, ToastRunes.ToastKind.Warning, duration)]
      ensures timers == old(timers) + if duration > 0 then [Timer(id, duration)] else []
    {
      Add(id, message, ToastRunes.ToastKind.Warning, duration);
    }
  }
}
