/**
 * The interactables a player stands next to, kept by enter/exit events,
 * and the `Interact` calls the interact button issues on them.
 */
module Interaction {

  import opened Options
  import opened ListOps

  /** An entry of the in-range list: a door, any other interactable, or a null reference. */
  datatype Entry = Null | Door(id: nat) | Other(id: nat)

  /** `FirstOrDefault(x => x is DoorInteractable)`, as the index of the first door. */
  function FirstDoor(s: seq<Entry>): (r: Option<nat>)
    ensures r.Some? ==> r.value < |s| && s[r.value].Door? && forall j :: 0 <= j < r.value ==> !s[j].Door?
    ensures r.None? ==> forall j :: 0 <= j < |s| ==> !s[j].Door?
  {
    if s == [] then None
    else if s[0].Door? then Some(0)
    else match FirstDoor(s[1..])
      case None => None
      case Some(j) => Some(j + 1)
  }

  /** The entries that are not null, in list order (`interactable?.Interact()` skips null). */
  function NonNull(s: seq<Entry>): seq<Entry>
  {
    if s == [] then []
    else (if s[0] == Null then [] else [s[0]]) + NonNull(s[1..])
  }

  lemma {:induction false} NonNullAppend(a: seq<Entry>, b: seq<Entry>)
    ensures NonNull(a + b) == NonNull(a) + NonNull(b)
  {
    if a != [] {
      assert (a + b)[1..] == a[1..] + b;
      NonNullAppend(a[1..], b);
    } else {
      assert a + b == b;
    }
  }

  /** Null-skipping keeps every non-null entry, as often as it occurs, and nothing else. */
  lemma {:induction false} NonNullMultiset(s: seq<Entry>)
    ensures multiset(NonNull(s)) == multiset(s)[Null := 0]
  {
    if s != [] {
      NonNullMultiset(s[1..]);
      assert s == [s[0]] + s[1..];
    }
  }

  /** Skipping nulls and reading back to front can be done in either order. */
  lemma {:induction false} NonNullReverse(s: seq<Entry>)
    ensures NonNull(Reverse(s)) == Reverse(NonNull(s))
  {
    if s != [] {
      var head := if s[0] == Null then [] else [s[0]];
      assert s == [s[0]] + s[1..];
      ReverseAppend([s[0]], s[1..]);
      NonNullAppend(Reverse(s[1..]), Reverse([s[0]]));
      NonNullReverse(s[1..]);
      assert NonNull(Reverse([s[0]])) == head;
      ReverseAppend(head, NonNull(s[1..]));
    }
  }

  /**
   * The `Interact` calls one button event issues, given the in-range list
   * (None when the list was never created).
   */
  function Dispatch(inRange: Option<seq<Entry>>): seq<Entry>
  {
    match inRange
    case None => []
    case Some(s) =>
      if |s| == 0 then []
      else match FirstDoor(s)
        case Some(i) => [s[i]]
        case None => NonNull(Reverse(s))
  }

  /** No list, or an empty one: the button does nothing. */
  lemma DispatchWithoutEntries(inRange: Option<seq<Entry>>)
    requires inRange.None? || inRange.value == []
    ensures Dispatch(inRange) == []
  {
  }

  /**
   * With a door in range, exactly one `Interact` call is made, on the first
   * door in list order.
   */
  lemma DispatchDoorFirst(s: seq<Entry>, i: nat)
    requires i < |s| && s[i].Door? && forall j :: 0 <= j < i ==> !s[j].Door?
    ensures Dispatch(Some(s)) == [s[i]]
  {
    var r := FirstDoor(s);
    assert r.Some?;
    assert r.value == i;
  }

  /**
   * With no door in range, every non-null entry is interacted with, as many
   * times as it is listed, from the last entered to the first entered.
   */
  lemma DispatchWithoutDoor(s: seq<Entry>)
    requires forall j :: 0 <= j < |s| ==> !s[j].Door?
    ensures Dispatch(Some(s)) == Reverse(NonNull(s))
    ensures multiset(Dispatch(Some(s))) == multiset(s)[Null := 0]
  {
    if s != [] {
      NonNullReverse(s);
    }
    NonNullMultiset(s);
    assert multiset(Reverse(NonNull(s))) == multiset(NonNull(s)) by {
      ReverseMultiset(NonNull(s));
    }
  }

  /** `PlayerController`: the in-range list and the `Interact` calls made so far. */
  class PlayerController {
    var currentInteractablesInRange: Option<seq<Entry>>
    var interactions: seq<Entry>

    constructor ()
      ensures currentInteractablesInRange == None && interactions == []
    {
      currentInteractablesInRange := None;
      interactions := [];
    }

    /** Appends the entry, creating the list on first use. */
    method OnEnterInteractRange(interactable: Entry)
      modifies this
      ensures currentInteractablesInRange ==
        Some((if old(currentInteractablesInRange).Some? then old(currentInteractablesInRange).value else []) + [interactable])
      ensures interactions == old(interactions)
    {
      if currentInteractablesInRange.None? {
        currentInteractablesInRange := Some([]);
      }
      currentInteractablesInRange := Some(currentInteractablesInRange.value + [interactable]);
    }

    /** Removes the first occurrence of the entry; the list must exist. */
    method OnExitInteractRange(interactable: Entry)
      requires currentInteractablesInRange.Some?
      modifies this
      ensures currentInteractablesInRange == Some(RemoveFirst(old(currentInteractablesInRange).value, interactable))
      ensures interactions == old(interactions)
    {
      currentInteractablesInRange := Some(RemoveFirst(currentInteractablesInRange.value, interactable));
    }

    /**
     * The button handler. Press and release are handled alike: the flag is
     * ignored. The list is left as it was.
     */
    method OnInteractPressed(pressed: bool)
      modifies this
      ensures currentInteractablesInRange == old(currentInteractablesInRange)
      ensures interactions == old(interactions) + Dispatch(old(currentInteractablesInRange))
    {
      if currentInteractablesInRange.None? || |currentInteractablesInRange.value| == 0 {
        return;
      }
      var list := currentInteractablesInRange.value;

      var door := FirstDoor(list);
      if door.Some? {
        interactions := interactions + [list[door.value]];
        return;
      }

      var count := |list|;
      var i := count - 1;
      while i >= 0
        invariant -1 <= i < count
        invariant currentInteractablesInRange == old(currentInteractablesInRange)
        invariant interactions == old(interactions) + NonNull(Reverse(list)[..count - 1 - i])
      {
        ReversePrefixGrows(list, count - 1 - i);
        NonNullAppend(Reverse(list)[..count - 1 - i], [list[i]]);
        var interactable := list[i];
        if interactable != Null {
          interactions := interactions + [interactable];
        }
        i := i - 1;
      }
      assert Reverse(list)[..count] == Reverse(list);
    }
  }
}
