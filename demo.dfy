/** The demonstration flow both programs run: three assets added, the
    report, the second asset removed, the report again. */
module Demo {
  import opened Assets
  import opened Decimal
  import Procedural
  import ObjectOriented
  import Report
  import Spelling

  const LaptopAsset := Item(Laptop, "Dell XPS 13", "Alice")
  const CardAsset := Item(IdCard, "ID12345", "Bob")
  const PolicyAsset := Document(IT, "IT Policy", "Charlie")

  lemma LaptopFirst()
    ensures Procedural.Line(0, LaptopAsset)
         == "Asset 1: Type: Item, Item: Laptop, Name: Dell XPS 13, Assignee: Alice"
  {
    assert NatToDecimal(1) == "1";
    Spelling.LaptopLine();
  }

  lemma CardSecond()
    ensures Procedural.Line(1, CardAsset)
         == "Asset 2: Type: Item, Item: ID Card, Name: ID12345, Assignee: Bob"
  {
    assert NatToDecimal(2) == "2";
    Spelling.CardLine();
  }

  lemma PolicySecond()
    ensures Procedural.Line(1, PolicyAsset)
         == "Asset 2: Type: Document, Division: IT, Name: IT Policy, Assignee: Charlie"
  {
    assert NatToDecimal(2) == "2";
    Spelling.PolicySecondLine();
  }

  lemma PolicyThird()
    ensures Procedural.Line(2, PolicyAsset)
         == "Asset 3: Type: Document, Division: IT, Name: IT Policy, Assignee: Charlie"
  {
    assert NatToDecimal(3) == "3";
    Spelling.PolicyThirdLine();
  }

  /** The report before and after the removal, as both programs print it. */
  lemma DemoListings()
    ensures Procedural.Listing([LaptopAsset, CardAsset, PolicyAsset]) == [
      "Asset 1: Type: Item, Item: Laptop, Name: Dell XPS 13, Assignee: Alice",
      "Asset 2: Type: Item, Item: ID Card, Name: ID12345, Assignee: Bob",
      "Asset 3: Type: Document, Division: IT, Name: IT Policy, Assignee: Charlie"]
    ensures Procedural.Listing([LaptopAsset, PolicyAsset]) == [
      "Asset 1: Type: Item, Item: Laptop, Name: Dell XPS 13, Assignee: Alice",
      "Asset 2: Type: Document, Division: IT, Name: IT Policy, Assignee: Charlie"]
  {
    LaptopFirst();
    CardSecond();
    PolicySecond();
    PolicyThird();
  }

  /** procedural.c's main: push three assets, display, remove index 1,
      display again. Every call returns 0, so none of main's error exits is
      taken. */
  method ProceduralScenario() returns (before: seq<string>, after: seq<string>)
    ensures before == [
      "Asset 1: Type: Item, Item: Laptop, Name: Dell XPS 13, Assignee: Alice",
      "Asset 2: Type: Item, Item: ID Card, Name: ID12345, Assignee: Bob",
      "Asset 3: Type: Document, Division: IT, Name: IT Policy, Assignee: Charlie"]
    ensures after == [
      "Asset 1: Type: Item, Item: Laptop, Name: Dell XPS 13, Assignee: Alice",
      "Asset 2: Type: Document, Division: IT, Name: IT Policy, Assignee: Charlie"]
  {
    DemoListings();
    var list := new Procedural.AssetList();
    var rc := list.Push(LaptopAsset, false);
    assert rc == 0;
    rc := list.Push(CardAsset, false);
    assert rc == 0;
    rc := list.Push(PolicyAsset, false);
    assert rc == 0;
    var three := [LaptopAsset, CardAsset, PolicyAsset];
    assert list.Contents() == three;
    before := list.Display();
    rc := list.Remove(1);
    assert rc == 0;
    assert list.Contents() == Removed(three, 1) == [LaptopAsset, PolicyAsset];
    after := list.Display();
  }

  /** oop.cpp's main: the same flow on an AssetManager, giving the same
      reports. */
  method ObjectOrientedScenario() returns (before: seq<string>, after: seq<string>)
    ensures before == [
      "Asset 1: Type: Item, Item: Laptop, Name: Dell XPS 13, Assignee: Alice",
      "Asset 2: Type: Item, Item: ID Card, Name: ID12345, Assignee: Bob",
      "Asset 3: Type: Document, Division: IT, Name: IT Policy, Assignee: Charlie"]
    ensures after == [
      "Asset 1: Type: Item, Item: Laptop, Name: Dell XPS 13, Assignee: Alice",
      "Asset 2: Type: Document, Division: IT, Name: IT Policy, Assignee: Charlie"]
  {
    DemoListings();
    var three := [LaptopAsset, CardAsset, PolicyAsset];
    var two := [LaptopAsset, PolicyAsset];
    Report.SameListing(three);
    Report.SameListing(two);
    var manager := new ObjectOriented.AssetManager();
    manager.Add(LaptopAsset);
    manager.Add(CardAsset);
    manager.Add(PolicyAsset);
    assert manager.assets == three;
    before := manager.Display();
    manager.Remove(1);
    assert manager.assets == Removed(three, 1) == two;
    after := manager.Display();
  }
}
