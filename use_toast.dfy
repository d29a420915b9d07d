/** The toast notifications: a shared list of toasts and the counter that numbers them. */
module UseToast {
  import opened Wrappers

  /** One notification; `kind` is the toast's `type` ('success', 'error', 'info', 'warning'). */
  datatype Toast = Toast(id: int, message: string, kind: string, duration: int)

  /** The defaults of `showToast`'s optional parameters. */
  const DefaultKind := "success"
  const DefaultDuration := 5000

  /** Ids strictly increase along the list. */
  predicate IdsIncreasing(ts: seq<Toast>) {
    forall i, j :: 0 <= i < j < |ts| ==> ts[i].id < ts[j].id
  }

  /** `findIndex(t => t.id === id)`: the first position holding that id, or -1. */
  function FirstIndex(ts: seq<Toast>, id: int): (k: int)
    ensures -1 <= k < |ts|
    ensures k == -1 <==> forall j :: 0 <= j < |ts| ==> ts[j].id != id
    ensures k >= 0 ==> ts[k].id == id && forall j :: 0 <= j < k ==> ts[j].id != id
    decreases |ts|
  {
    if |ts| == 0 then -1
    else if ts[0].id == id then 0
    else
      var k := FirstIndex(ts[1..], id);
      if k == -1 then -1 else k + 1
  }

  /** The list `removeToast(id)` leaves: the first toast with that id spliced out, if there is one. */
  function WithoutToast(ts: seq<Toast>, id: int): seq<Toast> {
    var k := FirstIndex(ts, id);
    if k > -1 then ts[..k] + ts[k + 1..] else ts
  }

  /**
   * Removal takes out exactly the first toast with the id: one toast fewer, the ones before it
   * unchanged, the ones after it shifted down by one; an absent id changes nothing.
   */
  lemma RemovalShape(ts: seq<Toast>, id: int)
    ensures FirstIndex(ts, id) == -1 ==> WithoutToast(ts, id) == ts
    ensures FirstIndex(ts, id) >= 0 ==>
      var k := FirstIndex(ts, id);
      var r := WithoutToast(ts, id);
      && |r| == |ts| - 1
      && (forall j :: 0 <= j < k ==> r[j] == ts[j])
      && (forall j :: k <= j < |r| ==> r[j] == ts[j + 1])
  {
  }

  /** Removing a toast keeps the ids increasing, and with increasing ids no toast with that id is left. */
  lemma RemovalKeepsIdsIncreasing(ts: seq<Toast>, id: int)
    requires IdsIncreasing(ts)
    ensures IdsIncreasing(WithoutToast(ts, id))
    ensures forall j :: 0 <= j < |WithoutToast(ts, id)| ==> WithoutToast(ts, id)[j].id != id
  {
    var k := FirstIndex(ts, id);
    if k > -1 {
      var r := WithoutToast(ts, id);
      RemovalShape(ts, id);
      forall i, j | 0 <= i < j < |r|
        ensures r[i].id < r[j].id
      {
        var i' := if i < k then i else i + 1;
        var j' := if j < k then j else j + 1;
        assert r[i] == ts[i'] && r[j] == ts[j'] && i' < j';
      }
      forall j | 0 <= j < |r|
        ensures r[j].id != id
      {
        if j >= k {
          assert r[j] == ts[j + 1] && k < j + 1;
        }
      }
    }
  }

  /** Removing the toast just shown, whose id is above every earlier one, restores the list. */
  lemma ShowThenRemove(ts: seq<Toast>, t: Toast)
    requires forall j :: 0 <= j < |ts| ==> ts[j].id < t.id
    ensures WithoutToast(ts + [t], t.id) == ts
  {
    var all := ts + [t];
    assert all[|ts|] == t;
    assert forall j :: 0 <= j < |ts| ==> all[j].id != t.id;
    assert FirstIndex(all, t.id) == |ts|;
    assert all[..|ts|] == ts;
  }

  /** The module-level `toasts` ref and `toastIdCounter`. */
  class ToastQueue {
    var toasts: seq<Toast>
    var toastIdCounter: int

    /** Ids increase along the list and are all below the counter, which starts at 0. */
    ghost predicate Valid()
      reads this
    {
      && toastIdCounter >= 0
      && IdsIncreasing(toasts)
      && forall j :: 0 <= j < |toasts| ==> 0 <= toasts[j].id < toastIdCounter
    }

    constructor()
      ensures Valid()
      ensures toasts == [] && toastIdCounter == 0
    {
      toasts := [];
      toastIdCounter := 0;
    }

    /**
     * `showToast` without the removal timer: the toast takes the counter's value as its id,
     * the counter goes up by one, and the toast is appended, the earlier ones untouched. An
     * omitted type or duration takes its default.
     */
    method ShowToast(message: string, kind: Option<string>, duration: Option<int>) returns (id: int)
      requires Valid()
      modifies this
      ensures Valid()
      ensures id == old(toastIdCounter) && toastIdCounter == old(toastIdCounter) + 1
      ensures toasts == old(toasts) +
        [Toast(id, message, if kind.Some? then kind.value else DefaultKind,
               if duration.Some? then duration.value else DefaultDuration)]
    {
      id := toastIdCounter;
      toastIdCounter := toastIdCounter + 1;
      var toast := Toast(id, message, if kind.Some? then kind.value else DefaultKind,
                         if duration.Some? then duration.value else DefaultDuration);
      toasts := toasts + [toast];
    }

    /** The `findIndex` scan over the list. */
    method FindToastIndex(id: int) returns (index: int)
      ensures index == FirstIndex(toasts, id)
    {
      var i := 0;
      while i < |toasts|
        invariant 0 <= i <= |toasts|
        invariant forall j :: 0 <= j < i ==> toasts[j].id != id
      {
        if toasts[i].id == id {
          return i;
        }
        i := i + 1;
      }
      return -1;
    }

    /** `removeToast`: splices out the first toast with the id; an absent id changes nothing. */
    method RemoveToast(id: int)
      requires Valid()
      modifies this
      ensures Valid()
      ensures toasts == WithoutToast(old(toasts), id)
      ensures toastIdCounter == old(toastIdCounter)
    {
      var index := FindToastIndex(id);
      RemovalKeepsIdsIncreasing(toasts, id);
      RemovalShape(toasts, id);
      if index > -1 {
        toasts := toasts[..index] + toasts[index + 1..];
      }
    }
  }
}
