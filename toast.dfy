/**
 * The toast notifications (joanie-store/src/components/ui/Toast.tsx): a list
 * that `showToast` appends to, and that `removeToast` and each toast's
 * three-second timer filter by id.
 */
module Toasts {
  import opened Store

  datatype ToastType = Success | Error | Info | Wishlist

  datatype Toast = Toast(id: string, message: string, kind: ToastType)

  /** `toasts.filter(t => t.id !== id)` */
  function Dismissed(toasts: seq<Toast>, id: string): (r: seq<Toast>)
    ensures forall t :: t in r <==> t in toasts && t.id != id
    ensures |r| <= |toasts|
    decreases |toasts|
  {
    if toasts == [] then []
    else if toasts[0].id == id then Dismissed(toasts[1..], id)
    else [toasts[0]] + Dismissed(toasts[1..], id)
  }

  /** Filtering a concatenation filters each part: the toasts kept stay in their order. */
  lemma {:induction false} DismissedAppend(a: seq<Toast>, b: seq<Toast>, id: string)
    ensures Dismissed(a + b, id) == Dismissed(a, id) + Dismissed(b, id)
    decreases |a|
  {
    if a != [] {
      assert (a + b)[1..] == a[1..] + b;
      DismissedAppend(a[1..], b, id);
    } else {
      assert a + b == b;
    }
  }

  /** Removing an id no toast carries changes nothing. */
  lemma {:induction false} DismissedAbsent(toasts: seq<Toast>, id: string)
    requires forall t :: t in toasts ==> t.id != id
    ensures Dismissed(toasts, id) == toasts
    decreases |toasts|
  {
    if toasts != [] {
      DismissedAbsent(toasts[1..], id);
      assert [toasts[0]] + toasts[1..] == toasts;
    }
  }

  /** Removing twice is removing once. */
  lemma DismissedIdempotent(toasts: seq<Toast>, id: string)
    ensures Dismissed(Dismissed(toasts, id), id) == Dismissed(toasts, id)
  {
    DismissedAbsent(Dismissed(toasts, id), id);
  }

  /** Two removals give the same list in either order. */
  lemma {:induction false} DismissedCommutes(toasts: seq<Toast>, id1: string, id2: string)
    ensures Dismissed(Dismissed(toasts, id1), id2) == Dismissed(Dismissed(toasts, id2), id1)
    decreases |toasts|
  {
    if toasts != [] {
      DismissedCommutes(toasts[1..], id1, id2);
      var head, tail := [toasts[0]], toasts[1..];
      assert toasts == head + tail;
      DismissedAppend(head, tail, id1);
      DismissedAppend(head, tail, id2);
      DismissedAppend(Dismissed(head, id1), Dismissed(tail, id1), id2);
      DismissedAppend(Dismissed(head, id2), Dismissed(tail, id2), id1);
    }
  }

  /** Showing a toast under a fresh id and then removing that id restores the list exactly. */
  lemma ShowThenDismissRestores(toasts: seq<Toast>, id: string, message: string, kind: ToastType)
    requires forall t :: t in toasts ==> t.id != id
    ensures Dismissed(toasts + [Toast(id, message, kind)], id) == toasts
  {
    DismissedAppend(toasts, [Toast(id, message, kind)], id);
    DismissedAbsent(toasts, id);
  }

  /** The list held by the toast provider. */
  class ToastList {
    var toasts: seq<Toast>

    /** `useState<Toast[]>([])` */
    constructor ()
      ensures toasts == []
    {
      toasts := [];
    }

    /**
     * `showToast(message, type = 'success')`: append one toast at the end.
     * The random id is a parameter.
     */
    method ShowToast(message: string, kind: Option<ToastType>, id: string)
      modifies this
      ensures toasts == old(toasts) + [Toast(id, message, if kind.Some? then kind.value else Success)]
      ensures |toasts| == |old(toasts)| + 1 && toasts[..|old(toasts)|] == old(toasts)
    {
      toasts := toasts + [Toast(id, message, if kind.Some? then kind.value else Success)];
    }

    /** `removeToast(id)`, the close button of each toast. */
    method RemoveToast(id: string)
      modifies this
      ensures toasts == Dismissed(old(toasts), id)
      ensures forall t :: t in toasts ==> t.id != id
    {
      toasts := Dismissed(toasts, id);
    }

    /** The three-second timer `showToast` starts: the same filter as `removeToast`. */
    method Expire(id: string)
      modifies this
      ensures toasts == Dismissed(old(toasts), id)
    {
      RemoveToast(id);
    }
  }
}
