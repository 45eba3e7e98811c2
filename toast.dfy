/** The toast queue: one module-level list of notices and one list of
    listeners. Every change replaces the list and then calls each listener,
    in registration order, with the new list. `toast` appends a notice and
    schedules its removal after its duration; closing a notice removes it at
    once. Timers are returned as values and run by the caller. */
module Toast {
  import opened Types

  datatype Variant = Success | Destructive | Warning | Info

  /** The caller's fields; `None` is an omitted field. */
  datatype ToastProps = ToastProps(
    title: string,
    description: Option<string>,
    variant: Option<Variant>,
    duration: Option<int>)

  /** A queued notice: the caller's fields, an id, and the resolved duration. */
  datatype ToastEntry = ToastEntry(
    id: string,
    title: string,
    description: Option<string>,
    variant: Option<Variant>,
    duration: int)

  const DefaultDurationMs := 5000

  /** Listeners are closures compared by identity; a number stands for each. */
  type ListenerId = nat

  /** One listener call and the list it was given. */
  datatype Delivery = Delivery(listener: ListenerId, toasts: seq<ToastEntry>)

  /** The removal `toast` schedules, due after `delayMs`. */
  datatype Expiry = Expiry(id: string, delayMs: int)

  /** `s.filter(keep)`. */
  function Filter<T>(s: seq<T>, keep: T -> bool): (r: seq<T>)
    ensures |r| <= |s|
    ensures forall i :: 0 <= i < |r| ==> r[i] in s && keep(r[i])
    ensures forall i :: 0 <= i < |s| && keep(s[i]) ==> s[i] in r
  {
    if s == [] then [] else (if keep(s[0]) then [s[0]] else []) + Filter(s[1..], keep)
  }

  lemma {:induction false} FilterAppend<T>(a: seq<T>, b: seq<T>, keep: T -> bool)
    ensures Filter(a + b, keep) == Filter(a, keep) + Filter(b, keep)
  {
    if a == [] {
      assert a + b == b;
    } else {
      assert (a + b)[1..] == a[1..] + b;
      FilterAppend(a[1..], b, keep);
    }
  }

  /** Filtering keeps everything when every element is kept. */
  lemma {:induction false} FilterAll<T>(s: seq<T>, keep: T -> bool)
    requires forall i :: 0 <= i < |s| ==> keep(s[i])
    ensures Filter(s, keep) == s
  {
    if s != [] {
      FilterAll(s[1..], keep);
    }
  }

  /** Filtering twice by the same test is filtering once. */
  lemma {:induction false} FilterIdempotent<T>(s: seq<T>, keep: T -> bool)
    ensures Filter(Filter(s, keep), keep) == Filter(s, keep)
  {
    var r := Filter(s, keep);
    forall i | 0 <= i < |r| ensures keep(r[i]) {
      assert r[i] in r;
    }
    FilterAll(r, keep);
  }

  function WithoutId(ts: seq<ToastEntry>, id: string): (r: seq<ToastEntry>)
    ensures forall t :: t in r <==> t in ts && t.id != id
  {
    Filter(ts, (t: ToastEntry) => t.id != id)
  }

  /** Removal works piecewise: the notices of each part are kept in order,
      a notice with the id is dropped and any other notice is kept. */
  lemma WithoutIdAppend(a: seq<ToastEntry>, b: seq<ToastEntry>, id: string, t: ToastEntry)
    ensures WithoutId(a + b, id) == WithoutId(a, id) + WithoutId(b, id)
    ensures WithoutId([t], id) == if t.id == id then [] else [t]
  {
    FilterAppend(a, b, (x: ToastEntry) => x.id != id);
  }

  /** Removing an id that no notice has changes nothing. */
  lemma WithoutAbsentId(ts: seq<ToastEntry>, id: string)
    requires forall i :: 0 <= i < |ts| ==> ts[i].id != id
    ensures WithoutId(ts, id) == ts
  {
    FilterAll(ts, (t: ToastEntry) => t.id != id);
  }

  /** Removal works piecewise, so the kept notices stay in their order, and
      a notice appended and then removed by its own id is gone again. */
  lemma WithoutIdOfAppended(ts: seq<ToastEntry>, t: ToastEntry)
    ensures WithoutId(ts + [t], t.id) == WithoutId(ts, t.id)
  {
    var keep := (x: ToastEntry) => x.id != t.id;
    FilterAppend(ts, [t], keep);
    assert Filter([t], keep) == [];
  }

  function WithoutListener(ls: seq<ListenerId>, l: ListenerId): (r: seq<ListenerId>)
    ensures forall x :: x in r <==> x in ls && x != l
  {
    Filter(ls, (x: ListenerId) => x != l)
  }

  /** What one `updateState` delivers: the new list to each listener, in order. */
  function Notified(ls: seq<ListenerId>, ts: seq<ToastEntry>): (r: seq<Delivery>)
    ensures |r| == |ls|
    ensures forall i :: 0 <= i < |ls| ==> r[i] == Delivery(ls[i], ts)
  {
    if ls == [] then [] else [Delivery(ls[0], ts)] + Notified(ls[1..], ts)
  }

  /** The entry `toast(props)` queues: the caller's fields, the new id and
      `duration ?? 5000` (an explicit 0 is kept). */
  function NewEntry(props: ToastProps, id: string): (t: ToastEntry)
    ensures t.id == id && t.title == props.title && t.description == props.description
    ensures t.variant == props.variant
    ensures t.duration == if props.duration.Some? then props.duration.value else DefaultDurationMs
  {
    ToastEntry(id, props.title, props.description, props.variant,
               if props.duration.Some? then props.duration.value else DefaultDurationMs)
  }

  /** `variant = 'info'` in the notice's parameter list. */
  function RenderedVariant(v: Option<Variant>): (r: Variant)
    ensures v.Some? ==> r == v.value
    ensures v.None? ==> r == Info
  {
    if v.Some? then v.value else Info
  }

  /** The description paragraph is rendered only for a non-empty description. */
  function ShowsDescription(t: ToastEntry): (b: bool)
    ensures b <==> t.description.Some? && t.description.value != ""
  {
    t.description.Some? && t.description.value != ""
  }

  class ToastStore {
    var toasts: seq<ToastEntry>
    var listeners: seq<ListenerId>
    /** Every listener call made so far, oldest first. */
    var deliveries: seq<Delivery>
    var containerCreated: bool

    constructor ()
      ensures toasts == [] && listeners == [] && deliveries == [] && !containerCreated
    {
      toasts := [];
      listeners := [];
      deliveries := [];
      containerCreated := false;
    }

    /** `updateState`: replace the list, then call each listener with it. */
    method UpdateState(newToasts: seq<ToastEntry>)
      modifies this
      ensures toasts == newToasts
      ensures listeners == old(listeners) && containerCreated == old(containerCreated)
      ensures deliveries == old(deliveries) + Notified(listeners, newToasts)
    {
      toasts := newToasts;
      var ls := listeners;
      var i := 0;
      while i < |ls|
        invariant 0 <= i <= |ls|
        invariant toasts == newToasts && listeners == ls == old(listeners) && containerCreated == old(containerCreated)
        invariant deliveries == old(deliveries) + Notified(ls[..i], newToasts)
      {
        NotifiedAppend(ls[..i], [ls[i]], newToasts);
        assert ls[..i + 1] == ls[..i] + [ls[i]];
        deliveries := deliveries + [Delivery(ls[i], newToasts)];
        i := i + 1;
      }
      assert ls[..i] == ls;
    }

    /** `toast(props)`: mount the container once, append the new entry at the
        end, and schedule its removal after its duration. The id is the
        random text the caller supplies. */
    method ShowToast(props: ToastProps, freshId: string) returns (id: string, expiry: Expiry)
      modifies this
      ensures id == freshId
      ensures containerCreated
      ensures toasts == old(toasts) + [NewEntry(props, freshId)]
      ensures listeners == old(listeners)
      ensures deliveries == old(deliveries) + Notified(listeners, toasts)
      ensures expiry == Expiry(freshId, NewEntry(props, freshId).duration)
    {
      containerCreated := true;
      id := freshId;
      var entry := NewEntry(props, id);
      UpdateState(toasts + [entry]);
      expiry := Expiry(id, entry.duration);
    }

    /** The expiry timer and the close button: drop every notice with the id,
        reading the list as it is when the removal runs. */
    method Remove(id: string)
      modifies this
      ensures toasts == WithoutId(old(toasts), id)
      ensures listeners == old(listeners) && containerCreated == old(containerCreated)
      ensures deliveries == old(deliveries) + Notified(listeners, toasts)
    {
      UpdateState(WithoutId(toasts, id));
    }

    /** The container's effect: register a listener. */
    method Subscribe(l: ListenerId)
      modifies this
      ensures listeners == old(listeners) + [l]
      ensures toasts == old(toasts) && deliveries == old(deliveries) && containerCreated == old(containerCreated)
    {
      listeners := listeners + [l];
    }

    /** The effect's cleanup: drop that listener, keep the others in order. */
    method Unsubscribe(l: ListenerId)
      modifies this
      ensures listeners == WithoutListener(old(listeners), l)
      ensures toasts == old(toasts) && deliveries == old(deliveries) && containerCreated == old(containerCreated)
    {
      listeners := WithoutListener(listeners, l);
    }
  }

  lemma {:induction false} NotifiedAppend(a: seq<ListenerId>, b: seq<ListenerId>, ts: seq<ToastEntry>)
    ensures Notified(a + b, ts) == Notified(a, ts) + Notified(b, ts)
  {
    if a == [] {
      assert a + b == b;
    } else {
      assert (a + b)[1..] == a[1..] + b;
      NotifiedAppend(a[1..], b, ts);
    }
  }
}
