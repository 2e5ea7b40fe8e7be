/** The toast notifications (src/context/ToastContext.tsx): a newest-first
    list that `addToast` prepends to and `removeToast` filters by id. */
module ToastContext {
  import opened Common

  datatype ToastKind = Success | Error | Info

  datatype Toast = Toast(id: string, message: string, kind: Option<ToastKind>, duration: Option<int>)

  const DEFAULT_DURATION: int := 4000

  /** `toast.duration ?? 4000`: only an absent duration takes the default, an
      explicit 0 stays 0. */
  function EffectiveDuration(duration: Option<int>): (d: int)
    ensures duration.Some? ==> d == duration.value
    ensures duration.None? ==> d == DEFAULT_DURATION
  {
    match duration
    case Some(v) => v
    case None => DEFAULT_DURATION
  }

  /** The removal delay `addToast` schedules, if it schedules one. */
  function Scheduled(duration: Option<int>): (s: Option<int>)
    ensures s.Some? <==> EffectiveDuration(duration) > 0
    ensures s.Some? ==> s.value == EffectiveDuration(duration) && s.value > 0
    ensures duration.None? ==> s == Some(DEFAULT_DURATION)
  {
    var d := EffectiveDuration(duration);
    if d > 0 then Some(d) else None
  }

  function OtherToast(id: string): Toast -> bool
  {
    (t: Toast) => t.id != id
  }

  /** `t.filter(x => x.id !== id)`. */
  function Without(toasts: seq<Toast>, id: string): (r: seq<Toast>)
    ensures forall x :: x in r <==> x in toasts && x.id != id
  {
    Filter(toasts, OtherToast(id))
  }

  predicate HasToast(toasts: seq<Toast>, id: string)
  {
    exists i :: 0 <= i < |toasts| && toasts[i].id == id
  }

  /** Removing an id that is not shown changes nothing. */
  lemma WithoutUnknown(toasts: seq<Toast>, id: string)
    requires !HasToast(toasts, id)
    ensures Without(toasts, id) == toasts
  {
    FilterKeepsAll(toasts, OtherToast(id));
  }

  /** Removal keeps the relative order of the remaining toasts. */
  lemma WithoutKeepsOrder(a: seq<Toast>, b: seq<Toast>, id: string)
    ensures Without(a + b, id) == Without(a, id) + Without(b, id)
  {
    FilterConcat(a, b, OtherToast(id));
  }

  /** Adding a toast with a fresh id and then removing it restores the list. */
  lemma AddThenRemove(toasts: seq<Toast>, t: Toast)
    requires !HasToast(toasts, t.id)
    ensures Without([t] + toasts, t.id) == toasts
  {
    FilterConcat([t], toasts, OtherToast(t.id));
    FilterDropsAll([t], OtherToast(t.id));
    FilterKeepsAll(toasts, OtherToast(t.id));
  }

  class ToastProvider {
    var toasts: seq<Toast>

    constructor ()
      ensures toasts == []
    {
      toasts := [];
    }

    /** `addToast`: the new toast goes first. `id` is the random id the
        source draws; the result is the delay after which the removal is
        scheduled, or `None` when none is. */
    method AddToast(id: string, message: string, kind: Option<ToastKind>, duration: Option<int>)
      returns (removeAfter: Option<int>)
      modifies this
      ensures toasts == [Toast(id, message, kind, duration)] + old(toasts)
      ensures removeAfter == Scheduled(duration)
    {
      toasts := [Toast(id, message, kind, duration)] + toasts;
      removeAfter := Scheduled(duration);
    }

    method RemoveToast(id: string)
      modifies this
      ensures toasts == Without(old(toasts), id)
    {
      toasts := Without(toasts, id);
    }
  }

  /** `useToast()`: the provider's value, or the error it throws outside one. */
  function UseToast<C>(ctx: Option<C>): (r: Result<C, string>)
    ensures r.Err? <==> ctx.None?
    ensures r.Ok? ==> r.value == ctx.value
    ensures r.Err? ==> r.error == "useToast must be used within ToastProvider"
  {
    if ctx.None? then Err("useToast must be used within ToastProvider") else Ok(ctx.value)
  }
}
