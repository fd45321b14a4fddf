/** The list of open modals kept by the modal provider
    (src/contexts/ModalContext.jsx). Ids come from `crypto.randomUUID()` and are
    taken as parameters. */
module ModalContext {

  type ModalId = string
  /** The React element shown; opaque here. */
  type Component = nat

  datatype Modal = Modal(id: ModalId, component: Component)

  /** `openModal`: the new list and the id handed back to the caller. */
  function OpenModal(modals: seq<Modal>, id: ModalId, component: Component): (r: (seq<Modal>, ModalId))
    ensures |r.0| == |modals| + 1 && r.0[..|modals|] == modals
    ensures r.0[|modals|] == Modal(id, component) && r.1 == id
  {
    (modals + [Modal(id, component)], id)
  }

  /** `closeModal`: `prev.filter(modal => modal.id !== id)`. */
  function CloseModal(modals: seq<Modal>, id: ModalId): seq<Modal> {
    if modals == [] then []
    else if modals[0].id != id then [modals[0]] + CloseModal(modals[1..], id)
    else CloseModal(modals[1..], id)
  }

  predicate HasId(modals: seq<Modal>, id: ModalId) {
    exists i :: 0 <= i < |modals| && modals[i].id == id
  }

  /** Closing removes every entry with that id and no other entry: each other
      entry keeps its multiplicity. */
  lemma {:induction false} CloseRemovesExactly(modals: seq<Modal>, id: ModalId, m: Modal)
    ensures m.id == id ==> multiset(CloseModal(modals, id))[m] == 0
    ensures m.id != id ==> multiset(CloseModal(modals, id))[m] == multiset(modals)[m]
  {
    if modals != [] {
      CloseRemovesExactly(modals[1..], id, m);
      assert modals == [modals[0]] + modals[1..];
    }
  }

  /** Entries are only ever dropped: relative order is kept, so the result is a
      subsequence, here stated as "taking the first k entries commutes". */
  lemma {:induction false} ClosePrefix(modals: seq<Modal>, extra: seq<Modal>, id: ModalId)
    ensures CloseModal(modals + extra, id) == CloseModal(modals, id) + CloseModal(extra, id)
  {
    if modals != [] {
      assert (modals + extra)[1..] == modals[1..] + extra;
      ClosePrefix(modals[1..], extra, id);
    } else {
      assert modals + extra == extra;
    }
  }

  /** Closing an id that is not open leaves the list unchanged. */
  lemma {:induction false} CloseUnknown(modals: seq<Modal>, id: ModalId)
    requires !HasId(modals, id)
    ensures CloseModal(modals, id) == modals
  {
    if modals != [] {
      CloseUnknown(modals[1..], id);
      assert modals[0].id != id;
      assert modals == [modals[0]] + modals[1..];
    }
  }

  /** Opening with a fresh id and closing the id it returned restores the list. */
  lemma OpenThenClose(modals: seq<Modal>, id: ModalId, component: Component)
    requires !HasId(modals, id)
    ensures var r := OpenModal(modals, id, component); CloseModal(r.0, r.1) == modals
  {
    ClosePrefix(modals, [Modal(id, component)], id);
    CloseUnknown(modals, id);
  }
}
