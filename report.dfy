/** The report line both implementations write, read back independently
    of either: a reader that recovers the printed position and the asset's
    variant and sub-kind from a line, and the proof that the C and the C++
    code write the same lines. */
module Report {
  import opened Assets
  import opened Decimal
  import Procedural
  import ObjectOriented
  import Spelling

  datatype Option<T> = None | Some(value: T)

  /** What the front of a line says: the printed (1-based) position and the
      kind of the asset. */
  datatype Header = Header(number: nat, kind: Kind)

  /** The fixed text between the position and the name, written out for
      each of the five kinds. */
  function KindText(k: Kind): (r: string)
    ensures |r| > 0 && r[0] == ':'
  {
    match k
    case ItemOf(Laptop) => ": Type: Item, Item: Laptop, Name: "
    case ItemOf(IdCard) => ": Type: Item, Item: ID Card, Name: "
    case DocumentOf(Finance) => ": Type: Document, Division: Finance, Name: "
    case DocumentOf(IT) => ": Type: Document, Division: IT, Name: "
    case DocumentOf(HR) => ": Type: Document, Division: HR, Name: "
  }

  /** The kind whose fixed text starts t, if any. */
  function ReadKind(t: string): Option<Kind> {
    if KindText(ItemOf(Laptop)) <= t then Some(ItemOf(Laptop))
    else if KindText(ItemOf(IdCard)) <= t then Some(ItemOf(IdCard))
    else if KindText(DocumentOf(Finance)) <= t then Some(DocumentOf(Finance))
    else if KindText(DocumentOf(IT)) <= t then Some(DocumentOf(IT))
    else if KindText(DocumentOf(HR)) <= t then Some(DocumentOf(HR))
    else None
  }

  /** Reads "Asset ", a run of digits and a kind's fixed text off the front
      of a line. */
  function ReadHeader(line: string): Option<Header> {
    if !("Asset " <= line) then None
    else
      var rest := line[6..];
      var n := DigitRun(rest);
      if n == 0 then None
      else
        match ReadKind(rest[n..])
        case None => None
        case Some(k) => Some(Header(DecimalValue(rest[..n]), k))
  }

  /** No kind's fixed text is a prefix of another's followed by anything,
      so the reader picks out exactly the kind that was written. */
  lemma ReadKindText(k: Kind, rest: string)
    ensures ReadKind(KindText(k) + rest) == Some(k)
  {
    var t := KindText(k) + rest;
    assert KindText(k) <= t;
    match k
    case ItemOf(Laptop) =>
    case ItemOf(IdCard) =>
      assert t[20] == 'I';
    case DocumentOf(Finance) =>
      assert t[8] == 'D';
    case DocumentOf(IT) =>
      assert t[8] == 'D' && t[28] == 'I';
    case DocumentOf(HR) =>
      assert t[8] == 'D' && t[28] == 'H';
  }

  lemma Regroup7(p: string, x1: string, x2: string, x3: string, x4: string, x5: string, x6: string, x7: string)
    ensures p + x1 + x2 + x3 + x4 + x5 + x6 + x7 == p + (x1 + x2 + x3 + x4 + x5 + x6 + x7)
  {
  }

  /** The pieces the C code prints between the position and the name,
      joined, for one kind. */
  function ProceduralMiddle(a: Asset): string {
    ": Type: " + Procedural.AssetTypeStr(a) + ", " + Procedural.SpecificTypeLabel(a) + ": "
    + Procedural.SpecificTypeStr(a) + ", Name: "
  }

  lemma Regroup3(p: string, x1: string, x2: string, x3: string)
    ensures p + x1 + x2 + x3 == p + (x1 + x2 + x3)
  {
  }

  /** The C labels between the position and the name spell the kind's
      fixed text. */
  lemma ProceduralKindText(a: Asset)
    ensures ProceduralMiddle(a) == KindText(KindOf(a))
  {
    match a
    case Item(Laptop, _, _) => Spelling.CLaptop();
    case Item(IdCard, _, _) => Spelling.CIdCard();
    case Document(Finance, _, _) => Spelling.CFinance();
    case Document(IT, _, _) => Spelling.CIt();
    case Document(HR, _, _) => Spelling.CHr();
  }

  /** The C line is "Asset ", the position, the kind's fixed text, the name
      and the assignee. */
  lemma ProceduralLineShape(i: nat, a: Asset)
    ensures Procedural.Line(i, a)
         == "Asset " + NatToDecimal(i + 1) + KindText(KindOf(a)) + a.name + ", Assignee: " + a.assignee
  {
    var p := "Asset " + NatToDecimal(i + 1);
    var typ, second, sub := Procedural.AssetTypeStr(a), Procedural.SpecificTypeLabel(a), Procedural.SpecificTypeStr(a);
    Regroup7(p, ": Type: ", typ, ", ", second, ": ", sub, ", Name: ");
    ProceduralKindText(a);
  }

  /** The C++ text between the position and the name spells the kind's
      fixed text, for an item and for a document. */
  lemma ItemKindText(k: ItemKind)
    ensures ": Type: Item, Item: " + ObjectOriented.ItemTypeStr(k) + ", Name: " == KindText(ItemOf(k))
  {
    match k
    case Laptop =>
    case IdCard =>
  }

  lemma DocumentKindText(d: DocKind)
    ensures ": Type: Document, Division: " + ObjectOriented.DocumentTypeStr(d) + ", Name: " == KindText(DocumentOf(d))
  {
    match d
    case Finance =>
    case IT =>
    case HR =>
  }

  /** The C++ line has the same shape as the C line. */
  lemma ObjectOrientedLineShape(i: nat, a: Asset)
    ensures ObjectOriented.DisplayAsset(a, i)
         == "Asset " + NatToDecimal(i + 1) + KindText(KindOf(a)) + a.name + ", Assignee: " + a.assignee
  {
    var p := "Asset " + NatToDecimal(i + 1);
    match a
    case Item(k, name, assignee) =>
      var t := ObjectOriented.ItemTypeStr(k);
      ItemKindText(k);
      Regroup3(p, ": Type: Item, Item: ", t, ", Name: ");
    case Document(d, name, assignee) =>
      var t := ObjectOriented.DocumentTypeStr(d);
      DocumentKindText(d);
      Regroup3(p, ": Type: Document, Division: ", t, ", Name: ");
  }

  /** Reading the front of "Asset ", a numeral, a kind's fixed text and
      anything after gives back the number and the kind. */
  lemma {:induction false} ReadHeaderOf(n: nat, k: Kind, tail: string)
    ensures ReadHeader("Asset " + NatToDecimal(n) + KindText(k) + tail) == Some(Header(n, k))
  {
    var d := NatToDecimal(n);
    var rest := KindText(k) + tail;
    var line := "Asset " + d + KindText(k) + tail;
    Regroup3("Asset ", d, KindText(k), tail);
    assert d + KindText(k) + tail == d + rest;
    assert "Asset " <= line;
    assert line[6..] == d + rest;
    DigitRunOfNumeral(d, rest);
    assert (d + rest)[..|d|] == d;
    assert (d + rest)[|d|..] == rest;
    ReadKindText(k, tail);
    DecimalRoundTrip(n);
  }

  /** Every C line reads back as its 1-based position and its asset's kind. */
  lemma ProceduralLineHeader(i: nat, a: Asset)
    ensures ReadHeader(Procedural.Line(i, a)) == Some(Header(i + 1, KindOf(a)))
  {
    var p := "Asset " + NatToDecimal(i + 1) + KindText(KindOf(a));
    ProceduralLineShape(i, a);
    Regroup3(p, a.name, ", Assignee: ", a.assignee);
    ReadHeaderOf(i + 1, KindOf(a), a.name + ", Assignee: " + a.assignee);
  }

  /** The C and the C++ code write the same line for the same asset at the
      same index. */
  lemma SameLine(i: nat, a: Asset)
    ensures Procedural.Line(i, a) == ObjectOriented.DisplayAsset(a, i)
  {
    ProceduralLineShape(i, a);
    ObjectOrientedLineShape(i, a);
  }

  /** ... and so the same report for the same assets. */
  lemma SameListing(s: seq<Asset>)
    ensures Procedural.Listing(s) == ObjectOriented.Listing(s)
  {
    forall i | 0 <= i < |s|
      ensures Procedural.Listing(s)[i] == ObjectOriented.Listing(s)[i]
    {
      SameLine(i, s[i]);
    }
  }

  /** Line i of a report reads back as position i + 1 and the kind of the
      i-th asset. */
  lemma ListingHeaders(s: seq<Asset>)
    ensures |Procedural.Listing(s)| == |s|
    ensures forall i :: 0 <= i < |s| ==> ReadHeader(Procedural.Listing(s)[i]) == Some(Header(i + 1, KindOf(s[i])))
  {
    forall i | 0 <= i < |s|
      ensures ReadHeader(Procedural.Listing(s)[i]) == Some(Header(i + 1, KindOf(s[i])))
    {
      ProceduralLineHeader(i, s[i]);
    }
  }

  /** After removing the asset at k, the report is renumbered: the line at
      j >= k carries position j + 1 and the kind of the asset that was at
      j + 1. */
  lemma RenumberedAfterRemove(s: seq<Asset>, k: nat)
    requires k < |s|
    ensures |Procedural.Listing(Removed(s, k))| == |s| - 1
    ensures forall j :: k <= j < |s| - 1 ==>
      ReadHeader(Procedural.Listing(Removed(s, k))[j]) == Some(Header(j + 1, KindOf(s[j + 1])))
  {
    RemovedAt(s, k);
    ListingHeaders(Removed(s, k));
  }
}
