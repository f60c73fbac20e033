/** The asset record shared by both implementations, and the one
    sequence operation both containers perform on removal. */
module Assets {

  /** Sub-kind of an Item asset (ItemType in procedural.c and oop.cpp). */
  datatype ItemKind = Laptop | IdCard

  /** Owning division of a Document asset (DocumentType in procedural.c and oop.cpp). */
  datatype DocKind = Finance | IT | HR

  /** One tracked asset. The variant fixes which sub-kind it carries, so an
      Item never holds a division and a Document never holds an item kind. */
  datatype Asset =
    | Item(itemKind: ItemKind, name: string, assignee: string)
    | Document(docKind: DocKind, name: string, assignee: string)

  /** The (variant, sub-kind) pair of an asset, without its text fields. */
  datatype Kind = ItemOf(item: ItemKind) | DocumentOf(division: DocKind)

  function KindOf(a: Asset): Kind {
    match a
    case Item(k, _, _) => ItemOf(k)
    case Document(d, _, _) => DocumentOf(d)
  }

  /** The sequence left after taking out the element at position k,
      the later elements moving down by one. */
  function Removed<T>(s: seq<T>, k: nat): seq<T>
    requires k < |s|
  {
    s[..k] + s[k + 1..]
  }

  /** Removal keeps the elements before k where they were and moves every
      later element down one position. */
  lemma RemovedAt<T>(s: seq<T>, k: nat)
    requires k < |s|
    ensures |Removed(s, k)| == |s| - 1
    ensures forall j :: 0 <= j < k ==> Removed(s, k)[j] == s[j]
    ensures forall j :: k <= j < |s| - 1 ==> Removed(s, k)[j] == s[j + 1]
  {
  }

  /** Removal loses exactly the element at k and no other. */
  lemma RemovedLosesOne<T>(s: seq<T>, k: nat)
    requires k < |s|
    ensures multiset(Removed(s, k)) + multiset{s[k]} == multiset(s)
  {
    assert s == s[..k] + [s[k]] + s[k + 1..];
  }
}
