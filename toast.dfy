/**
 * The toast queue of `hooks/use-toast.ts`: a module-wide counter that hands
 * out ids, and per hook instance a list of toasts that `toast` appends to and
 * `dismiss` filters.  The auto-dismiss timer is modelled as an explicit
 * `Expire` call that the caller makes when the timer would fire.
 */
module Toasts {
  import opened Wrappers
  import opened JsText

  datatype Variant = Default | Destructive

  datatype Toast = Toast(
    id: string,
    title: Option<string>,
    description: Option<string>,
    variant: Option<Variant>,
    duration: int)

  /** What a caller passes to `toast`: everything but the id, the duration optional. */
  datatype ToastOptions = ToastOptions(
    title: Option<string>,
    description: Option<string>,
    variant: Option<Variant>,
    duration: Option<int>)

  const DefaultDuration := 5000

  /** `toasts.filter(t => t.id !== id)` */
  function WithoutId(ts: seq<Toast>, id: string): (r: seq<Toast>)
    ensures |r| <= |ts|
    ensures forall t :: t in r <==> t in ts && t.id != id
  {
    if ts == [] then []
    else (if ts[0].id == id then [] else [ts[0]]) + WithoutId(ts[1..], id)
  }

  /** Filtering works piecewise, so the survivors keep their relative order. */
  lemma {:induction false} WithoutIdAppend(a: seq<Toast>, b: seq<Toast>, id: string)
    ensures WithoutId(a + b, id) == WithoutId(a, id) + WithoutId(b, id)
    decreases |a|
  {
    if a != [] {
      assert (a + b)[1..] == a[1..] + b;
      WithoutIdAppend(a[1..], b, id);
    } else {
      assert a + b == b;
    }
  }

  /** A list without that id is left exactly as it is. */
  lemma {:induction false} WithoutIdAbsent(ts: seq<Toast>, id: string)
    requires forall i :: 0 <= i < |ts| ==> ts[i].id != id
    ensures WithoutId(ts, id) == ts
    decreases |ts|
  {
    if ts != [] {
      WithoutIdAbsent(ts[1..], id);
      assert ts == [ts[0]] + ts[1..];
    }
  }

  /** The list `dismiss(toastId)` leaves: no id (or the empty string) clears everything. */
  function Dismissed(ts: seq<Toast>, toastId: Option<string>): (r: seq<Toast>)
    ensures toastId == None || toastId == Some("") ==> r == []
    ensures toastId.Some? && toastId.value != "" ==> r == WithoutId(ts, toastId.value)
  {
    match toastId
    case None => []
    case Some(id) => if id == "" then [] else WithoutId(ts, id)
  }

  /** Dismissing the toast just added gives back the list as it was before. */
  lemma DismissUndoesToast(ts: seq<Toast>, t: Toast)
    requires t.id != ""
    requires forall i :: 0 <= i < |ts| ==> ts[i].id != t.id
    ensures Dismissed(ts + [t], Some(t.id)) == ts
  {
    WithoutIdAppend(ts, [t], t.id);
    WithoutIdAbsent(ts, t.id);
    assert WithoutId([t], t.id) == [];
  }

  /** Ids are decimal serial numbers: the number an id stands for. */
  function Serial(t: Toast): nat {
    if AllDigits(t.id) then DigitsValue(t.id) else 0
  }

  /** Serials strictly increase along the list. */
  predicate Increasing(ts: seq<Toast>) {
    forall i, j :: 0 <= i < j < |ts| ==> Serial(ts[i]) < Serial(ts[j])
  }

  /** Every toast in `ts` has a serial above `n`. */
  predicate AllAbove(ts: seq<Toast>, n: nat) {
    forall i :: 0 <= i < |ts| ==> n < Serial(ts[i])
  }

  lemma IncreasingTail(ts: seq<Toast>)
    requires Increasing(ts) && ts != []
    ensures Increasing(ts[1..]) && AllAbove(ts[1..], Serial(ts[0]))
  {
    forall i, j | 0 <= i < j < |ts[1..]|
      ensures Serial(ts[1..][i]) < Serial(ts[1..][j])
    {
      assert ts[1..][i] == ts[i + 1] && ts[1..][j] == ts[j + 1];
    }
    forall i | 0 <= i < |ts[1..]|
      ensures Serial(ts[0]) < Serial(ts[1..][i])
    {
      assert ts[1..][i] == ts[i + 1];
    }
  }

  lemma IncreasingCons(t: Toast, rest: seq<Toast>)
    requires Increasing(rest) && AllAbove(rest, Serial(t))
    ensures Increasing([t] + rest)
  {
    var r := [t] + rest;
    forall i, j | 0 <= i < j < |r|
      ensures Serial(r[i]) < Serial(r[j])
    {
      assert r[j] == rest[j - 1];
      if i > 0 {
        assert r[i] == rest[i - 1];
      }
    }
  }

  lemma WithoutIdAbove(ts: seq<Toast>, id: string, n: nat)
    requires AllAbove(ts, n)
    ensures AllAbove(WithoutId(ts, id), n)
  {
    var r := WithoutId(ts, id);
    forall k | 0 <= k < |r|
      ensures n < Serial(r[k])
    {
      assert r[k] in ts;
    }
  }

  /** Filtering keeps the serials increasing. */
  lemma {:induction false} WithoutIdIncreasing(ts: seq<Toast>, id: string)
    requires Increasing(ts)
    ensures Increasing(WithoutId(ts, id))
    decreases |ts|
  {
    if ts != [] {
      IncreasingTail(ts);
      WithoutIdIncreasing(ts[1..], id);
      if ts[0].id != id {
        WithoutIdAbove(ts[1..], id, Serial(ts[0]));
        IncreasingCons(ts[0], WithoutId(ts[1..], id));
      }
    }
  }

  /** The counter shared by every `useToast` instance (`toastCount`). */
  class ToastCounter {
    var count: nat

    constructor()
      ensures count == 0
    {
      count := 0;
    }
  }

  /** One `useToast` instance: its toast list, and the shared counter. */
  class ToastList {
    var toasts: seq<Toast>
    const counter: ToastCounter

    /** Every id is the decimal text of a serial in 1..count, and serials increase along the list. */
    predicate Valid()
      reads this, counter
    {
      && (forall i :: 0 <= i < |toasts| ==> 1 <= Serial(toasts[i]) <= counter.count)
      && (forall i :: 0 <= i < |toasts| ==> toasts[i].id == NatToString(Serial(toasts[i])))
      && Increasing(toasts)
    }

    constructor(counter: ToastCounter)
      ensures this.counter == counter
      ensures toasts == []
      ensures Valid()
    {
      this.counter := counter;
      toasts := [];
    }

    /** In a valid list no two toasts share an id. */
    lemma IdsDistinct()
      requires Valid()
      ensures forall i, j :: 0 <= i < j < |toasts| ==> toasts[i].id != toasts[j].id
    {
    }

    /**
     * `toast(options)`: bumps the shared counter, appends one toast whose id is
     * the new count in decimal and whose duration defaults to 5000, and reports
     * that id together with whether an auto-dismiss timer is started.
     */
    method AddToast(options: ToastOptions) returns (id: string, scheduled: bool)
      requires Valid()
      modifies this, counter
      ensures Valid()
      ensures counter.count == old(counter.count) + 1
      ensures id == NatToString(counter.count)
      ensures toasts == old(toasts) + [Toast(id, options.title, options.description, options.variant,
                                             options.duration.GetOr(DefaultDuration))]
      ensures forall i :: 0 <= i < |old(toasts)| ==> old(toasts)[i].id != id
      ensures scheduled <==> options.duration.GetOr(DefaultDuration) > 0
    {
      counter.count := counter.count + 1;
      id := NatToString(counter.count);
      var duration := options.duration.GetOr(DefaultDuration);
      var t := Toast(id, options.title, options.description, options.variant, duration);
      assert Serial(t) == counter.count;
      toasts := toasts + [t];
      scheduled := duration > 0;
    }

    /** `dismiss(toastId)` */
    method Dismiss(toastId: Option<string>)
      requires Valid()
      modifies this
      ensures Valid()
      ensures toasts == Dismissed(old(toasts), toastId)
    {
      match toastId {
        case None =>
          toasts := [];
        case Some(id) =>
          if id == "" {
            toasts := [];
          } else {
            WithoutIdIncreasing(toasts, id);
            toasts := WithoutId(toasts, id);
          }
      }
    }

    /** The auto-dismiss timer firing for `id`: the same filter as `dismiss(id)`. */
    method Expire(id: string)
      requires Valid()
      modifies this
      ensures Valid()
      ensures toasts == WithoutId(old(toasts), id)
      ensures id != "" ==> toasts == Dismissed(old(toasts), Some(id))
    {
      WithoutIdIncreasing(toasts, id);
      toasts := WithoutId(toasts, id);
    }
  }
}
