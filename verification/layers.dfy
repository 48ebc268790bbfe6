/**
 * The WorldWind layer list as the visualizer uses it: a sequence of layer
 * objects, `remove` of the first occurrence of a layer and `add` at the end,
 * and the two names that tag the visualizer's own layers.
 */
module Layers {

  /** A RenderableLayer; the loader's geometry is not modelled, only the name it is given. */
  class Layer {
    const name: string

    constructor (name: string)
      ensures this.name == name
    {
      this.name := name;
    }
  }

  const FileLayerName: string := "GeoJSON File Layer"
  const LiveLayerName: string := "Live GeoJSON Layer"

  /** Position of the first occurrence of x in s. */
  function IndexOf(s: seq<Layer>, x: Layer): (k: nat)
    requires x in s
    ensures k < |s| && s[k] == x && x !in s[..k]
  {
    if s[0] == x then 0 else 1 + IndexOf(s[1..], x)
  }

  /** LayerList.remove: drops the first occurrence of x, if any. */
  function RemoveFirst(s: seq<Layer>, x: Layer): (r: seq<Layer>)
    ensures x !in s ==> r == s
    ensures |r| == if x in s then |s| - 1 else |s|
  {
    if |s| == 0 then []
    else if s[0] == x then s[1..]
    else [s[0]] + RemoveFirst(s[1..], x)
  }

  /** Removal keeps the layers before and after the removed one, in order. */
  lemma {:induction false} RemoveFirstKeepsOrder(s: seq<Layer>, x: Layer)
    requires x in s
    ensures RemoveFirst(s, x) == s[..IndexOf(s, x)] + s[IndexOf(s, x) + 1..]
  {
    if s[0] != x {
      var k := IndexOf(s[1..], x);
      RemoveFirstKeepsOrder(s[1..], x);
      assert s[..k + 1] == [s[0]] + s[1..][..k];
      assert s[k + 2..] == s[1..][k + 1..];
    }
  }

  /**
   * The remove the visualizer guards with a null test on its slot field; the
   * order of what is kept is RemoveFirstKeepsOrder.
   */
  function Deregister(s: seq<Layer>, slot: Layer?): (r: seq<Layer>)
    ensures slot == null || slot !in s ==> r == s
    ensures slot != null && slot in s ==> |r| == |s| - 1
  {
    if slot == null then s else RemoveFirst(s, slot)
  }

  /** How many layers of s carry the given name. */
  function NamedCount(s: seq<Layer>, name: string): (n: nat)
    ensures n <= |s|
  {
    if |s| == 0 then 0
    else (if s[0].name == name then 1 else 0) + NamedCount(s[1..], name)
  }

  /** A list with no layer carrying the name counts none. */
  lemma {:induction false} NamedNone(s: seq<Layer>, name: string)
    requires forall l :: l in s ==> l.name != name
    ensures NamedCount(s, name) == 0
  {
    if |s| > 0 {
      NamedNone(s[1..], name);
    }
  }

  /** A layer carrying the name is counted. */
  lemma {:induction false} NamedCounted(s: seq<Layer>, x: Layer)
    requires x in s
    ensures NamedCount(s, x.name) >= 1
  {
    if s[0] != x {
      NamedCounted(s[1..], x);
    }
  }

  /** Counting distributes over appending. */
  lemma {:induction false} NamedCountAppend(s: seq<Layer>, t: seq<Layer>, name: string)
    ensures NamedCount(s + t, name) == NamedCount(s, name) + NamedCount(t, name)
  {
    if |s| > 0 {
      assert (s + t)[1..] == s[1..] + t;
      NamedCountAppend(s[1..], t, name);
    } else {
      assert s + t == t;
    }
  }

  /**
   * Removing a registered layer takes one off the count of its own name and
   * leaves the count of any other name as it was.
   */
  lemma {:induction false} NamedCountRemoveFirst(s: seq<Layer>, x: Layer, name: string)
    ensures NamedCount(RemoveFirst(s, x), name) ==
      NamedCount(s, name) - (if x in s && x.name == name then 1 else 0)
  {
    if |s| > 0 && s[0] != x {
      NamedCountRemoveFirst(s[1..], x, name);
      var r := RemoveFirst(s, x);
      assert r[0] == s[0] && r[1..] == RemoveFirst(s[1..], x);
      assert x in s <==> x in s[1..];
    }
  }

  /** Removing one layer keeps every other layer registered. */
  lemma {:induction false} RemoveFirstKeepsOthers(s: seq<Layer>, x: Layer, y: Layer)
    requires y in s && y != x
    ensures y in RemoveFirst(s, x)
  {
    if s[0] != x && s[0] != y {
      RemoveFirstKeepsOthers(s[1..], x, y);
      assert RemoveFirst(s, x)[1..] == RemoveFirst(s[1..], x);
    }
  }

  /**
   * The slot field owns its name: at most one registered layer carries the
   * name, and when one does it is the slot's layer.
   */
  predicate SlotOwnsName(s: seq<Layer>, slot: Layer?, name: string) {
    (slot != null ==> slot.name == name) &&
    NamedCount(s, name) <= 1 &&
    (NamedCount(s, name) == 1 ==> slot != null && slot in s)
  }

  /** No two positions of the list hold layers carrying the given name. */
  ghost predicate AtMostOneNamed(s: seq<Layer>, name: string) {
    forall i, j :: 0 <= i < j < |s| && s[i].name == name ==> s[j].name != name
  }

  /** Two positions carrying the name count twice. */
  lemma {:induction false} TwoNamedPositions(s: seq<Layer>, name: string, i: nat, j: nat)
    requires i < j < |s| && s[i].name == name && s[j].name == name
    ensures NamedCount(s, name) >= 2
  {
    if i == 0 {
      assert s[1..][j - 1] == s[j];
      NamedCounted(s[1..], s[j]);
    } else {
      TwoNamedPositions(s[1..], name, i - 1, j - 1);
    }
  }

  /** A slot that owns its name leaves room for at most one layer with that name. */
  lemma OwnedNameAtMostOnce(s: seq<Layer>, slot: Layer?, name: string)
    requires SlotOwnsName(s, slot, name)
    ensures AtMostOneNamed(s, name)
  {
    forall i, j | 0 <= i < j < |s| && s[i].name == name
      ensures s[j].name != name
    {
      if s[j].name == name {
        TwoNamedPositions(s, name, i, j);
      }
    }
  }

  /** The layer a slot owned is no longer registered once it is removed. */
  lemma RemovedSlotLayerGone(s: seq<Layer>, slot: Layer, name: string)
    requires SlotOwnsName(s, slot, name)
    ensures slot !in RemoveFirst(s, slot)
  {
    NamedCountRemoveFirst(s, slot, name);
    if slot in RemoveFirst(s, slot) {
      NamedCounted(RemoveFirst(s, slot), slot);
    }
  }

  /**
   * The first half of replacing a slot's layer: once the slot's layer is
   * removed, no registered layer carries the slot's name, and a slot for
   * another name is intact.
   */
  lemma SlotCleared(s: seq<Layer>, slot: Layer?, name: string, other: Layer?, otherName: string)
    requires SlotOwnsName(s, slot, name) && SlotOwnsName(s, other, otherName)
    requires name != otherName
    ensures NamedCount(Deregister(s, slot), name) == 0
    ensures SlotOwnsName(Deregister(s, slot), other, otherName)
  {
    if slot != null {
      NamedCountRemoveFirst(s, slot, name);
      NamedCountRemoveFirst(s, slot, otherName);
      if other != null && other in s {
        RemoveFirstKeepsOthers(s, slot, other);
      }
    }
  }

  /**
   * The second half: a new layer with the slot's name owns that name whether
   * or not it is appended, and appending it leaves a slot for another name
   * intact.
   */
  lemma SlotFilled(s: seq<Layer>, layer: Layer, name: string, other: Layer?, otherName: string)
    requires NamedCount(s, name) == 0
    requires SlotOwnsName(s, other, otherName)
    requires layer.name == name && name != otherName
    ensures SlotOwnsName(s, layer, name)
    ensures SlotOwnsName(s + [layer], layer, name)
    ensures SlotOwnsName(s + [layer], other, otherName)
  {
    NamedCountAppend(s, [layer], name);
    NamedCountAppend(s, [layer], otherName);
    assert NamedCount([layer], name) == 1;
    assert NamedCount([layer], otherName) == 0;
  }

  /** The visualizer's two slots each own their name in the layer list. */
  predicate SlotsOwned(s: seq<Layer>, fileSlot: Layer?, liveSlot: Layer?) {
    SlotOwnsName(s, fileSlot, FileLayerName) && SlotOwnsName(s, liveSlot, LiveLayerName)
  }

  lemma FeedNamesDiffer()
    ensures FileLayerName != LiveLayerName
  {
    assert FileLayerName[0] != LiveLayerName[0];
  }

  /**
   * parseAddJson(File) on the layer list: removing the file slot's layer and
   * putting a new file layer in the slot keeps both slots owning their names,
   * whether or not the new layer is then added.
   */
  lemma FileSlotReplaced(s: seq<Layer>, fileSlot: Layer?, liveSlot: Layer?, layer: Layer)
    requires SlotsOwned(s, fileSlot, liveSlot) && layer.name == FileLayerName
    ensures NamedCount(Deregister(s, fileSlot), FileLayerName) == 0
    ensures SlotsOwned(Deregister(s, fileSlot), layer, liveSlot)
    ensures SlotsOwned(Deregister(s, fileSlot) + [layer], layer, liveSlot)
  {
    FeedNamesDiffer();
    SlotCleared(s, fileSlot, FileLayerName, liveSlot, LiveLayerName);
    SlotFilled(Deregister(s, fileSlot), layer, FileLayerName, liveSlot, LiveLayerName);
  }

  /** parseAddJson(String) on the layer list, the same for the live slot. */
  lemma LiveSlotReplaced(s: seq<Layer>, fileSlot: Layer?, liveSlot: Layer?, layer: Layer)
    requires SlotsOwned(s, fileSlot, liveSlot) && layer.name == LiveLayerName
    ensures NamedCount(Deregister(s, liveSlot), LiveLayerName) == 0
    ensures SlotsOwned(Deregister(s, liveSlot), fileSlot, layer)
    ensures SlotsOwned(Deregister(s, liveSlot) + [layer], fileSlot, layer)
  {
    FeedNamesDiffer();
    SlotCleared(s, liveSlot, LiveLayerName, fileSlot, FileLayerName);
    SlotFilled(Deregister(s, liveSlot), layer, LiveLayerName, fileSlot, FileLayerName);
  }
}
