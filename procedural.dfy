/** The C implementation: a tagged asset record kept in a growable array
    whose size and capacity the list updates in place, and the report
    `display_asset_list` writes, one line per asset. */
module Procedural {
  import opened Assets
  import opened Decimal

  /** Capacity of a freshly created list. */
  const INIT_SIZE: nat := 20

  function Pow2(k: nat): (p: nat)
    ensures p >= 1
  {
    if k == 0 then 1 else 2 * Pow2(k - 1)
  }

  // ---------------------------------------------------------------------
  // Label selection for one line of the report
  // ---------------------------------------------------------------------

  /** "Item" for an ITEM, "Document" otherwise. */
  function AssetTypeStr(a: Asset): string {
    if a.Item? then "Item" else "Document"
  }

  /** The label of the second field: "Item" for an ITEM, "Division" for a
      DOCUMENT. */
  function SpecificTypeLabel(a: Asset): string {
    if a.Item? then "Item" else "Division"
  }

  /** The sub-kind text. Every item kind other than LAPTOP reads "ID Card";
      the switch's "Unknown" default cannot be reached by a closed DocKind. */
  function SpecificTypeStr(a: Asset): string {
    match a
    case Item(k, _, _) => if k == Laptop then "Laptop" else "ID Card"
    case Document(d, _, _) =>
      match d
      case Finance => "Finance"
      case IT => "IT"
      case HR => "HR"
  }

  /** The line printed for the asset at index i (without its newline). */
  function Line(i: nat, a: Asset): string {
    "Asset " + NatToDecimal(i + 1) + ": Type: " + AssetTypeStr(a) + ", "
    + SpecificTypeLabel(a) + ": " + SpecificTypeStr(a)
    + ", Name: " + a.name + ", Assignee: " + a.assignee
  }

  /** The whole report for a list holding s: line i renders s[i] at index i. */
  function Listing(s: seq<Asset>): seq<string> {
    seq(|s|, i requires 0 <= i < |s| => Line(i, s[i]))
  }

  /** Appending an asset adds exactly one line, numbered after the others,
      and leaves the earlier lines as they were. */
  lemma ListingAppend(s: seq<Asset>, a: Asset)
    ensures Listing(s + [a]) == Listing(s) + [Line(|s|, a)]
  {
    var r := Listing(s + [a]);
    assert |r| == |s| + 1;
    forall j | 0 <= j < |s| + 1
      ensures r[j] == (Listing(s) + [Line(|s|, a)])[j]
    {
      if j < |s| {
        assert (s + [a])[j] == s[j];
      }
    }
  }

  /** After removing the asset at k, the lines before k are unchanged and
      every later asset is rendered one position earlier. */
  lemma ListingAfterRemove(s: seq<Asset>, k: nat)
    requires k < |s|
    ensures |Listing(Removed(s, k))| == |s| - 1
    ensures forall j :: 0 <= j < k ==> Listing(Removed(s, k))[j] == Listing(s)[j]
    ensures forall j :: k <= j < |s| - 1 ==> Listing(Removed(s, k))[j] == Line(j, s[j + 1])
  {
    RemovedAt(s, k);
  }

  // ---------------------------------------------------------------------
  // The list
  // ---------------------------------------------------------------------

  /** AssetList: `assets` is the buffer, of which the first `size` slots
      hold the list; `capacity` is the buffer's length. */
  class AssetList {
    var assets: array<Asset>
    var size: nat
    var capacity: nat
    /** How many times the buffer has doubled since creation. */
    ghost var growths: nat

    /** The buffer is exactly `capacity` long, holds the `size` elements,
        and its capacity is INIT_SIZE doubled `growths` times. */
    ghost predicate Valid()
      reads this
    {
      && assets.Length == capacity
      && size <= capacity
      && capacity == INIT_SIZE * Pow2(growths)
    }

    /** The assets in the list, in insertion order. */
    ghost function Contents(): seq<Asset>
      reads this, assets
      requires Valid()
    {
      assets[..size]
    }

    /** new_asset_list: an empty list with room for INIT_SIZE assets. */
    constructor ()
      ensures Valid() && fresh(assets)
      ensures size == 0 && capacity == INIT_SIZE && Contents() == []
    {
      assets := new Asset[INIT_SIZE];
      size := 0;
      capacity := INIT_SIZE;
      growths := 0;
    }

    /** realloc: a fresh buffer of length n holding a copy of the old one
        at its front. */
    static method Reallocate(old_assets: array<Asset>, n: nat) returns (grown: array<Asset>)
      requires old_assets.Length <= n
      ensures fresh(grown) && grown.Length == n
      ensures grown[..old_assets.Length] == old_assets[..]
    {
      grown := new Asset[n];
      var k := 0;
      while k < old_assets.Length
        invariant k <= old_assets.Length
        invariant grown[..k] == old_assets[..k]
      {
        grown[k] := old_assets[k];
        k := k + 1;
      }
    }

    /** push_asset. When the list is full the buffer is doubled first; if
        that allocation fails (`growthFails`, consulted only then) the result
        is -1 and nothing changes. Otherwise the asset goes in at index
        `size`, `size` grows by one and the result is 0. */
    method Push(asset: Asset, growthFails: bool) returns (rc: int)
      requires Valid()
      modifies this, assets
      ensures Valid()
      ensures rc == 0 || rc == -1
      ensures rc == -1 <==> old(size) >= old(capacity) && growthFails
      ensures rc == -1 ==>
        && assets == old(assets) && size == old(size) && capacity == old(capacity)
        && Contents() == old(Contents())
      ensures rc == 0 ==>
        && size == old(size) + 1
        && capacity == (if old(size) >= old(capacity) then 2 * old(capacity) else old(capacity))
        && Contents() == old(Contents()) + [asset]
      ensures assets == old(assets) || fresh(assets)
    {
      if size >= capacity {
        if growthFails {
          return -1;
        }
        var newCapacity := capacity * 2;
        var grown := Reallocate(assets, newCapacity);
        assets := grown;
        capacity := newCapacity;
        growths := growths + 1;
      }
      assets[size] := asset;
      size := size + 1;
      rc := 0;
    }

    /** memmove of the slots after `index` one place down: the first n - 1
        slots then hold the first n with the one at `index` taken out, and the
        slots from n - 1 on are as they were. */
    static method ShiftDown(buffer: array<Asset>, index: nat, n: nat)
      requires index < n <= buffer.Length
      modifies buffer
      ensures buffer[..n - 1] == Removed(old(buffer[..n]), index)
      ensures buffer[n - 1..] == old(buffer[n - 1..])
    {
      ghost var before := buffer[..];
      var k := index;
      while k < n - 1
        invariant index <= k <= n - 1
        invariant forall j :: 0 <= j < index ==> buffer[j] == before[j]
        invariant forall j :: index <= j < k ==> buffer[j] == before[j + 1]
        invariant forall j :: k <= j < buffer.Length ==> buffer[j] == before[j]
      {
        buffer[k] := buffer[k + 1];
        k := k + 1;
      }
      RemovedAt(before[..n], index);
      assert buffer[..n - 1] == Removed(before[..n], index);
    }

    /** remove_asset. An index at or past `size` gives -1 and changes
        nothing. Otherwise the later elements are shifted down one slot,
        `size` drops by one and the result is 0; the buffer and its
        capacity stay as they are. */
    method Remove(index: nat) returns (rc: int)
      requires Valid()
      modifies this`size, assets
      ensures Valid()
      ensures rc == (if index < old(size) then 0 else -1)
      ensures capacity == old(capacity) && assets == old(assets)
      ensures rc == -1 ==> size == old(size) && Contents() == old(Contents())
      ensures rc == 0 ==>
        && size == old(size) - 1
        && Contents() == Removed(old(Contents()), index)
    {
      if index >= size {
        return -1;
      }
      ShiftDown(assets, index, size);
      size := size - 1;
      rc := 0;
    }

    /** display_asset_list: the report of the list's current contents, line
        i for the asset at index i; the list is only read. */
    method Display() returns (lines: seq<string>)
      requires Valid()
      ensures lines == Listing(Contents())
    {
      lines := [];
      var i := 0;
      while i < size
        invariant i <= size
        invariant lines == Listing(assets[..i])
      {
        ListingAppend(assets[..i], assets[i]);
        assert assets[..i + 1] == assets[..i] + [assets[i]];
        lines := lines + [Line(i, assets[i])];
        i := i + 1;
      }
    }
  }
}
