/** src/stores/toastStore.ts: the toasts on screen, oldest first. The random
    id of a new toast is a parameter. */
module ToastStore {
  import opened Optional
  import opened Arrays

  datatype ToastType = Success | Error | Info | Warning

  datatype Toast = Toast(id: string, kind: ToastType, title: string, message: Option<string>)

  function ToastIsNot(id: string): Toast -> bool {
    (t: Toast) => t.id != id
  }

  /** removeToast's filter: every toast with that id goes, the others stay
      in order. */
  function ToastRemoved(toasts: seq<Toast>, id: string): (r: seq<Toast>)
    ensures forall t :: t in r <==> t in toasts && t.id != id
    ensures forall t :: multiset(r)[t] == if t.id != id then multiset(toasts)[t] else 0
    ensures IsSubsequence(r, toasts)
  {
    FilterMultiset(toasts, ToastIsNot(id));
    FilterIsSubsequence(toasts, ToastIsNot(id));
    Filter(toasts, ToastIsNot(id))
  }

  /** Removing an id no toast has leaves the list as it was. */
  lemma RemoveUnknownToast(toasts: seq<Toast>, id: string)
    requires forall t :: t in toasts ==> t.id != id
    ensures ToastRemoved(toasts, id) == toasts
  {
    FilterKeepsAll(toasts, ToastIsNot(id));
  }

  /** Removing a toast just added under an id no other toast has restores
      the list. */
  lemma AddThenRemoveToast(toasts: seq<Toast>, t: Toast)
    requires forall x :: x in toasts ==> x.id != t.id
    ensures ToastRemoved(toasts + [t], t.id) == toasts
  {
    FilterOutAppended(toasts, t, ToastIsNot(t.id));
  }

  /** Removing the same id twice is removing it once. */
  lemma RemoveToastIdempotent(toasts: seq<Toast>, id: string)
    ensures ToastRemoved(ToastRemoved(toasts, id), id) == ToastRemoved(toasts, id)
  {
    RemoveUnknownToast(ToastRemoved(toasts, id), id);
  }

  class ToastState {
    var toasts: seq<Toast>

    constructor ()
      ensures toasts == []
    {
      toasts := [];
    }

    /** `addToast`: one toast with the given type, title and message at the
        end; the toasts already shown are unchanged. */
    method AddToast(kind: ToastType, title: string, message: Option<string>, freshId: string)
      modifies this
      ensures toasts == old(toasts) + [Toast(freshId, kind, title, message)]
    {
      toasts := toasts + [Toast(freshId, kind, title, message)];
    }

    method RemoveToast(id: string)
      modifies this
      ensures toasts == ToastRemoved(old(toasts), id)
    {
      toasts := ToastRemoved(toasts, id);
    }

    method ClearToasts()
      modifies this
      ensures toasts == []
    {
      toasts := [];
    }
  }
}
