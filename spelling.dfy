/** Joins of string literals that the C labels and the demonstration
    lines rely on. Each is proved left to right, one short piece at a
    time, in a module with no other definitions in scope. */
module Spelling {

  // What the C code prints between the position and the name, per kind.

  lemma CLaptop()
    ensures ": Type: " + "Item" + ", " + "Item" + ": " + "Laptop" + ", Name: "
         == ": Type: Item, Item: Laptop, Name: "
  {
    assert ": Type: " + "Item" == ": Type: Item";
    assert ": Type: Item" + ", " == ": Type: Item, ";
    assert ": Type: Item, " + "Item" == ": Type: Item, Item";
    assert ": Type: Item, Item" + ": " == ": Type: Item, Item: ";
    assert ": Type: Item, Item: " + "Laptop" == ": Type: Item, Item: Laptop";
    assert ": Type: Item, Item: Laptop" + ", Name: " == ": Type: Item, Item: Laptop, Name: ";
  }

  lemma CIdCard()
    ensures ": Type: " + "Item" + ", " + "Item" + ": " + "ID Card" + ", Name: "
         == ": Type: Item, Item: ID Card, Name: "
  {
    assert ": Type: " + "Item" == ": Type: Item";
    assert ": Type: Item" + ", " == ": Type: Item, ";
    assert ": Type: Item, " + "Item" == ": Type: Item, Item";
    assert ": Type: Item, Item" + ": " == ": Type: Item, Item: ";
    assert ": Type: Item, Item: " + "ID Card" == ": Type: Item, Item: ID Card";
    assert ": Type: Item, Item: ID Card" + ", Name: " == ": Type: Item, Item: ID Card, Name: ";
  }

  lemma CFinance()
    ensures ": Type: " + "Document" + ", " + "Division" + ": " + "Finance" + ", Name: "
         == ": Type: Document, Division: Finance, Name: "
  {
    assert ": Type: " + "Document" == ": Type: Document";
    assert ": Type: Document" + ", " == ": Type: Document, ";
    assert ": Type: Document, " + "Division" == ": Type: Document, Division";
    assert ": Type: Document, Division" + ": " == ": Type: Document, Division: ";
    assert ": Type: Document, Division: " + "Finance" == ": Type: Document, Division: Finance";
    assert ": Type: Document, Division: Finance" + ", Name: " == ": Type: Document, Division: Finance, Name: ";
  }

  lemma CIt()
    ensures ": Type: " + "Document" + ", " + "Division" + ": " + "IT" + ", Name: "
         == ": Type: Document, Division: IT, Name: "
  {
    assert ": Type: " + "Document" == ": Type: Document";
    assert ": Type: Document" + ", " == ": Type: Document, ";
    assert ": Type: Document, " + "Division" == ": Type: Document, Division";
    assert ": Type: Document, Division" + ": " == ": Type: Document, Division: ";
    assert ": Type: Document, Division: " + "IT" == ": Type: Document, Division: IT";
    assert ": Type: Document, Division: IT" + ", Name: " == ": Type: Document, Division: IT, Name: ";
  }

  lemma CHr()
    ensures ": Type: " + "Document" + ", " + "Division" + ": " + "HR" + ", Name: "
         == ": Type: Document, Division: HR, Name: "
  {
    assert ": Type: " + "Document" == ": Type: Document";
    assert ": Type: Document" + ", " == ": Type: Document, ";
    assert ": Type: Document, " + "Division" == ": Type: Document, Division";
    assert ": Type: Document, Division" + ": " == ": Type: Document, Division: ";
    assert ": Type: Document, Division: " + "HR" == ": Type: Document, Division: HR";
    assert ": Type: Document, Division: HR" + ", Name: " == ": Type: Document, Division: HR, Name: ";
  }

  // The four lines of the demonstration flow, as the C code joins them.

  lemma LaptopLineFront()
    ensures "Asset " + "1" + ": Type: " + "Item" + ", " + "Item"
         == "Asset 1: Type: Item, Item"
  {
    assert "Asset " + "1" == "Asset 1";
    assert "Asset 1" + ": Type: " == "Asset 1: Type: ";
    assert "Asset 1: Type: " + "Item" == "Asset 1: Type: Item";
    assert "Asset 1: Type: Item" + ", " == "Asset 1: Type: Item, ";
    assert "Asset 1: Type: Item, " + "Item" == "Asset 1: Type: Item, Item";
  }

  lemma LaptopLineBack()
    ensures "Asset 1: Type: Item, Item" + ": " + "Laptop" + ", Name: " + "Dell XPS 13" + ", Assignee: " + "Alice"
         == "Asset 1: Type: Item, Item: Laptop, Name: Dell XPS 13, Assignee: Alice"
  {
    assert "Asset 1: Type: Item, Item" + ": " == "Asset 1: Type: Item, Item: ";
    assert "Asset 1: Type: Item, Item: " + "Laptop" == "Asset 1: Type: Item, Item: Laptop";
    assert "Asset 1: Type: Item, Item: Laptop" + ", Name: " == "Asset 1: Type: Item, Item: Laptop, Name: ";
    assert "Asset 1: Type: Item, Item: Laptop, Name: " + "Dell XPS 13" == "Asset 1: Type: Item, Item: Laptop, Name: Dell XPS 13";
    assert "Asset 1: Type: Item, Item: Laptop, Name: Dell XPS 13" + ", Assignee: " == "Asset 1: Type: Item, Item: Laptop, Name: Dell XPS 13, Assignee: ";
    assert "Asset 1: Type: Item, Item: Laptop, Name: Dell XPS 13, Assignee: " + "Alice" == "Asset 1: Type: Item, Item: Laptop, Name: Dell XPS 13, Assignee: Alice";
  }

  /** The laptop at index 0. */
  lemma LaptopLine()
    ensures "Asset " + "1" + ": Type: " + "Item" + ", " + "Item" + ": " + "Laptop" + ", Name: " + "Dell XPS 13" + ", Assignee: " + "Alice"
         == "Asset 1: Type: Item, Item: Laptop, Name: Dell XPS 13, Assignee: Alice"
  {
    LaptopLineFront();
    LaptopLineBack();
  }

  lemma CardLineFront()
    ensures "Asset " + "2" + ": Type: " + "Item" + ", " + "Item"
         == "Asset 2: Type: Item, Item"
  {
    assert "Asset " + "2" == "Asset 2";
    assert "Asset 2" + ": Type: " == "Asset 2: Type: ";
    assert "Asset 2: Type: " + "Item" == "Asset 2: Type: Item";
    assert "Asset 2: Type: Item" + ", " == "Asset 2: Type: Item, ";
    assert "Asset 2: Type: Item, " + "Item" == "Asset 2: Type: Item, Item";
  }

  lemma CardLineBack()
    ensures "Asset 2: Type: Item, Item" + ": " + "ID Card" + ", Name: " + "ID12345" + ", Assignee: " + "Bob"
         == "Asset 2: Type: Item, Item: ID Card, Name: ID12345, Assignee: Bob"
  {
    assert "Asset 2: Type: Item, Item" + ": " == "Asset 2: Type: Item, Item: ";
    assert "Asset 2: Type: Item, Item: " + "ID Card" == "Asset 2: Type: Item, Item: ID Card";
    assert "Asset 2: Type: Item, Item: ID Card" + ", Name: " == "Asset 2: Type: Item, Item: ID Card, Name: ";
    assert "Asset 2: Type: Item, Item: ID Card, Name: " + "ID12345" == "Asset 2: Type: Item, Item: ID Card, Name: ID12345";
    assert "Asset 2: Type: Item, Item: ID Card, Name: ID12345" + ", Assignee: " == "Asset 2: Type: Item, Item: ID Card, Name: ID12345, Assignee: ";
    assert "Asset 2: Type: Item, Item: ID Card, Name: ID12345, Assignee: " + "Bob" == "Asset 2: Type: Item, Item: ID Card, Name: ID12345, Assignee: Bob";
  }

  /** The ID card at index 1. */
  lemma CardLine()
    ensures "Asset " + "2" + ": Type: " + "Item" + ", " + "Item" + ": " + "ID Card" + ", Name: " + "ID12345" + ", Assignee: " + "Bob"
         == "Asset 2: Type: Item, Item: ID Card, Name: ID12345, Assignee: Bob"
  {
    CardLineFront();
    CardLineBack();
  }

  lemma PolicySecondLineFront()
    ensures "Asset " + "2" + ": Type: " + "Document" + ", " + "Division"
         == "Asset 2: Type: Document, Division"
  {
    assert "Asset " + "2" == "Asset 2";
    assert "Asset 2" + ": Type: " == "Asset 2: Type: ";
    assert "Asset 2: Type: " + "Document" == "Asset 2: Type: Document";
    assert "Asset 2: Type: Document" + ", " == "Asset 2: Type: Document, ";
    assert "Asset 2: Type: Document, " + "Division" == "Asset 2: Type: Document, Division";
  }

  lemma PolicySecondLineBack()
    ensures "Asset 2: Type: Document, Division" + ": " + "IT" + ", Name: " + "IT Policy" + ", Assignee: " + "Charlie"
         == "Asset 2: Type: Document, Division: IT, Name: IT Policy, Assignee: Charlie"
  {
    assert "Asset 2: Type: Document, Division" + ": " == "Asset 2: Type: Document, Division: ";
    assert "Asset 2: Type: Document, Division: " + "IT" == "Asset 2: Type: Document, Division: IT";
    assert "Asset 2: Type: Document, Division: IT" + ", Name: " == "Asset 2: Type: Document, Division: IT, Name: ";
    assert "Asset 2: Type: Document, Division: IT, Name: " + "IT Policy" == "Asset 2: Type: Document, Division: IT, Name: IT Policy";
    assert "Asset 2: Type: Document, Division: IT, Name: IT Policy" + ", Assignee: " == "Asset 2: Type: Document, Division: IT, Name: IT Policy, Assignee: ";
    assert "Asset 2: Type: Document, Division: IT, Name: IT Policy, Assignee: " + "Charlie" == "Asset 2: Type: Document, Division: IT, Name: IT Policy, Assignee: Charlie";
  }

  /** The IT policy at index 1. */
  lemma PolicySecondLine()
    ensures "Asset " + "2" + ": Type: " + "Document" + ", " + "Division" + ": " + "IT" + ", Name: " + "IT Policy" + ", Assignee: " + "Charlie"
         == "Asset 2: Type: Document, Division: IT, Name: IT Policy, Assignee: Charlie"
  {
    PolicySecondLineFront();
    PolicySecondLineBack();
  }

  lemma PolicyThirdLineFront()
    ensures "Asset " + "3" + ": Type: " + "Document" + ", " + "Division"
         == "Asset 3: Type: Document, Division"
  {
    assert "Asset " + "3" == "Asset 3";
    assert "Asset 3" + ": Type: " == "Asset 3: Type: ";
    assert "Asset 3: Type: " + "Document" == "Asset 3: Type: Document";
    assert "Asset 3: Type: Document" + ", " == "Asset 3: Type: Document, ";
    assert "Asset 3: Type: Document, " + "Division" == "Asset 3: Type: Document, Division";
  }

  lemma PolicyThirdLineBack()
    ensures "Asset 3: Type: Document, Division" + ": " + "IT" + ", Name: " + "IT Policy" + ", Assignee: " + "Charlie"
         == "Asset 3: Type: Document, Division: IT, Name: IT Policy, Assignee: Charlie"
  {
    assert "Asset 3: Type: Document, Division" + ": " == "Asset 3: Type: Document, Division: ";
    assert "Asset 3: Type: Document, Division: " + "IT" == "Asset 3: Type: Document, Division: IT";
    assert "Asset 3: Type: Document, Division: IT" + ", Name: " == "Asset 3: Type: Document, Division: IT, Name: ";
    assert "Asset 3: Type: Document, Division: IT, Name: " + "IT Policy" == "Asset 3: Type: Document, Division: IT, Name: IT Policy";
    assert "Asset 3: Type: Document, Division: IT, Name: IT Policy" + ", Assignee: " == "Asset 3: Type: Document, Division: IT, Name: IT Policy, Assignee: ";
    assert "Asset 3: Type: Document, Division: IT, Name: IT Policy, Assignee: " + "Charlie" == "Asset 3: Type: Document, Division: IT, Name: IT Policy, Assignee: Charlie";
  }

  /** The IT policy at index 2. */
  lemma PolicyThirdLine()
    ensures "Asset " + "3" + ": Type: " + "Document" + ", " + "Division" + ": " + "IT" + ", Name: " + "IT Policy" + ", Assignee: " + "Charlie"
         == "Asset 3: Type: Document, Division: IT, Name: IT Policy, Assignee: Charlie"
  {
    PolicyThirdLineFront();
    PolicyThirdLineBack();
  }
}
