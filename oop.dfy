/** The C++ implementation: each asset class renders itself, and an
    AssetManager keeps the assets in a vector it changes in place. Dynamic
    dispatch over ItemAsset and DocumentAsset becomes a match on the
    variant of Asset. */
module ObjectOriented {
  import opened Assets
  import opened Decimal

  /** ItemAsset::display's type_str: LAPTOP reads "Laptop", every other
      item kind "ID Card". */
  function ItemTypeStr(itemType: ItemKind): string {
    if itemType == Laptop then "Laptop" else "ID Card"
  }

  function ItemDisplay(itemType: ItemKind, name: string, assignee: string, index: nat): string {
    "Asset " + NatToDecimal(index + 1) + ": Type: Item, Item: " + ItemTypeStr(itemType)
    + ", Name: " + name + ", Assignee: " + assignee
  }

  /** DocumentAsset::display's type_str. The switch's "Unknown" default
      cannot be reached by a closed DocKind. */
  function DocumentTypeStr(documentType: DocKind): string {
    match documentType
    case Finance => "Finance"
    case IT => "IT"
    case HR => "HR"
  }

  function DocumentDisplay(documentType: DocKind, name: string, assignee: string, index: nat): string {
    "Asset " + NatToDecimal(index + 1) + ": Type: Document, Division: " + DocumentTypeStr(documentType)
    + ", Name: " + name + ", Assignee: " + assignee
  }

  /** The virtual call `asset->display(index)`. */
  function DisplayAsset(a: Asset, index: nat): string {
    match a
    case Item(k, name, assignee) => ItemDisplay(k, name, assignee, index)
    case Document(d, name, assignee) => DocumentDisplay(d, name, assignee, index)
  }

  /** What AssetManager::display writes for a vector holding s. */
  function Listing(s: seq<Asset>): seq<string> {
    seq(|s|, i requires 0 <= i < |s| => DisplayAsset(s[i], i))
  }

  /** Adding an asset adds exactly one line, for its index, after the
      lines that were there. */
  lemma ListingAppend(s: seq<Asset>, a: Asset)
    ensures Listing(s + [a]) == Listing(s) + [DisplayAsset(a, |s|)]
  {
    var r := Listing(s + [a]);
    assert |r| == |s| + 1;
    forall j | 0 <= j < |s| + 1
      ensures r[j] == (Listing(s) + [DisplayAsset(a, |s|)])[j]
    {
      if j < |s| {
        assert (s + [a])[j] == s[j];
      }
    }
  }

  /** AssetManager: the owning vector of assets, in insertion order. */
  class AssetManager {
    var assets: seq<Asset>

    constructor ()
      ensures assets == []
    {
      assets := [];
    }

    /** add: push_back at the end; the earlier elements stay where they are. */
    method Add(asset: Asset)
      modifies this
      ensures assets == old(assets) + [asset]
    {
      assets := assets + [asset];
    }

    /** remove: an index past the end is silently ignored; otherwise exactly
        that element is erased and the others keep their order. */
    method Remove(index: nat)
      modifies this
      ensures index < |old(assets)| ==> assets == Removed(old(assets), index)
      ensures index >= |old(assets)| ==> assets == old(assets)
    {
      if index < |assets| {
        assets := assets[..index] + assets[index + 1..];
      }
    }

    /** display: each asset renders itself at its current index. The method
        is const: it changes nothing, so two calls with nothing in between
        give the same lines. */
    method Display() returns (lines: seq<string>)
      ensures lines == Listing(assets)
    {
      lines := [];
      var i := 0;
      while i < |assets|
        invariant i <= |assets|
        invariant lines == Listing(assets[..i])
      {
        ListingAppend(assets[..i], assets[i]);
        assert assets[..i + 1] == assets[..i] + [assets[i]];
        lines := lines + [DisplayAsset(assets[i], i)];
        i := i + 1;
      }
    }
  }
}
