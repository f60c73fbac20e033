# Asset list, procedural and object-oriented

This project models a small inventory tracker that exists in two versions.
An asset is either an Item (a laptop or an ID card) or a Document (owned by
the Finance, IT or HR division). Each asset has a name and an assignee. A
list of assets keeps insertion order. It supports three operations: append,
removal by index with the later elements moving down one place, and a
report with one line per asset:

    Asset <i+1>: Type: <Item|Document>, <Item|Division>: <sub-kind>, Name: <name>, Assignee: <assignee>

- `procedural.c` keeps the list in a C array with `size` and `capacity`
  fields. The array starts with room for 20 assets and doubles when full.
  Removal moves the tail down with `memmove`.
- `oop.cpp` keeps the list in a `std::vector` inside an `AssetManager`. Each
  asset class renders its own line through a virtual `display`.

Modules:

- `Assets` (assets.dfy): the asset datatype and `Removed`, the sequence that
  remains after taking out one element.
- `Decimal` (decimal.dfy): the decimal numeral that `%zu` and `operator<<`
  print for a position, and a reader that turns digits back into a number.
- `Procedural` (procedural.dfy): the C label selection, the line and the
  report, and the `AssetList` class over an `array<Asset>` with its `size`
  and `capacity` fields.
- `ObjectOriented` (oop.dfy): `ItemAsset::display` and
  `DocumentAsset::display`, the virtual call, and the `AssetManager` class
  over a `seq<Asset>`.
- `Report` (report.dfy): a reader for report lines, built from a literal
  table of the five kind texts and independent of both programs. It proves
  that a line reads back as its 1-based position and its asset's kind. It
  also proves that the C and the C++ code write the same line for every
  asset and position.
- `Spelling` (spelling.dfy): the joins of string literals that the C labels
  and the demonstration lines need. Each join is proved one short piece at
  a time.
- `Demo` (demo.dfy): the demonstration flow of both `main` functions. It
  adds three assets, reports, removes index 1 and reports again. The expected
  lines are proved exactly.

The report is returned as a sequence of lines without their trailing
newline, instead of being written to standard output.

The two programs handle an out-of-range removal differently, and the model
follows each program's code. The C `remove_asset` returns -1 and changes
nothing. The C++ `remove` silently does nothing. The model does not adopt a
single error policy for both.

## Model

| member | source | states |
|---|---|---|
| Assets.Removed | procedural.c:95-100 | The list left after removing index k: the elements before k, then those after it. Stated by Assets.RemovedAt (positions and length) and Assets.RemovedLosesOne (exactly the element at k is lost) |
| Assets.RemovedAt | procedural.c:95-101 | After removing index k, the elements before k keep their positions, each later element moves down one position, and the length drops by one |
| Assets.RemovedLosesOne | oop.cpp:71-73 | Erasing index k loses exactly the element at k: the old multiset of elements equals the new one plus that element |
| Decimal.NatToDecimal | procedural.c:73 | The printed position is a non-empty string of decimal digits, with no leading zero unless the number is 0 |
| Decimal.DecimalRoundTrip | procedural.c:73-75 | Reading the printed numeral back gives the number that was printed |
| Decimal.DecimalInjective | oop.cpp:32 | Different positions are printed as different numerals |
| Procedural.AssetTypeStr | procedural.c:49-50 | "Item" for an ITEM, "Document" otherwise. Stated by Report.ProceduralKindText, which ties it to the reference table |
| Procedural.SpecificTypeLabel | procedural.c:51-57 | "Item" for an ITEM, "Division" for a DOCUMENT. Stated by Report.ProceduralKindText |
| Procedural.SpecificTypeStr | procedural.c:54-71 | "Laptop" or "ID Card" for an item, "Finance", "IT" or "HR" for a document. Stated by Report.ProceduralKindText |
| Procedural.Line | procedural.c:73-75 | The printf line for the asset at index i. Stated by Report.ProceduralLineShape (its shape), Report.ProceduralLineHeader (it reads back as i+1 and the asset's kind) and Report.SameLine (it equals the C++ display) |
| Procedural.Listing | procedural.c:47-76 | The lines display_asset_list prints, in list order. Stated by Procedural.ListingAppend, Procedural.ListingAfterRemove and Report.ListingHeaders |
| Procedural.ListingAppend | procedural.c:47-75 | Appending an asset adds exactly one line, numbered after the others, and leaves the earlier lines unchanged |
| Procedural.ListingAfterRemove | procedural.c:93-102 | After a removal at k, lines before k are unchanged and every later asset is rendered one position earlier |
| Procedural.AssetList.constructor | procedural.c:24-35 | A new list is valid, has size 0 and capacity INIT_SIZE (20), and holds no assets |
| Procedural.AssetList.Reallocate | procedural.c:83-86 | The grown buffer is fresh, has the requested length, and starts with a copy of the old buffer |
| Procedural.AssetList.Push | procedural.c:80-91 | Keeps size <= capacity, with capacity equal to INIT_SIZE times a power of two. If the list is full and growth fails: returns -1, and buffer, size, capacity and contents are unchanged. Otherwise: returns 0, capacity doubles exactly when the list was full and is unchanged when it was not, size grows by 1, and the contents are the old contents plus the asset |
| Procedural.AssetList.ShiftDown | procedural.c:95-99 | The memmove shift: the first n-1 slots hold the first n slots with the one at index taken out, and the slots from n-1 on are unchanged |
| Procedural.AssetList.Remove | procedural.c:93-102 | Returns -1 exactly when index >= size, and then nothing changes. Otherwise returns 0, size drops by 1, and the contents become the old contents with the element at index removed. Capacity and buffer never change |
| Procedural.AssetList.Display | procedural.c:44-78 | Returns one line per asset, in list order: line i renders the asset at index i. The list is only read |
| ObjectOriented.ItemTypeStr | oop.cpp:31 | "Laptop" for LAPTOP, "ID Card" otherwise. Stated by Report.ItemKindText |
| ObjectOriented.ItemDisplay | oop.cpp:30-34 | ItemAsset::display's line. Stated by Report.ObjectOrientedLineShape and Report.ItemKindText |
| ObjectOriented.DocumentTypeStr | oop.cpp:45-51 | "Finance", "IT" or "HR" for each division. Stated by Report.DocumentKindText |
| ObjectOriented.DocumentDisplay | oop.cpp:44-54 | DocumentAsset::display's line. Stated by Report.ObjectOrientedLineShape and Report.DocumentKindText |
| ObjectOriented.DisplayAsset | oop.cpp:79 | The virtual call: an item renders as ItemAsset::display, a document as DocumentAsset::display. Stated by Report.ObjectOrientedLineShape and Report.SameLine |
| ObjectOriented.Listing | oop.cpp:77-80 | The lines AssetManager::display prints, in vector order. Stated by Report.SameListing, which equates it with the C report |
| ObjectOriented.ListingAppend | oop.cpp:77-80 | Adding an asset adds exactly one line, for its index, after the lines that were there |
| ObjectOriented.AssetManager.constructor | oop.cpp:58-59 | A new manager holds no assets |
| ObjectOriented.AssetManager.Add | oop.cpp:66-68 | The vector becomes the old vector plus the asset at the end |
| ObjectOriented.AssetManager.Remove | oop.cpp:70-75 | For an index in range, the vector loses exactly that element and keeps the order of the rest. For an index at or past the end, the vector is unchanged |
| ObjectOriented.AssetManager.Display | oop.cpp:77-80 | Returns one line per asset, in order: line i is the asset's own display at index i. The method has no modifies clause, so it cannot change the manager, and two calls in a row return the same lines |
| Report.ReadKindText | procedural.c:49-72 | The five kind texts are pairwise distinguishable: reading any kind's text followed by anything gives back exactly that kind |
| Report.ProceduralKindText | procedural.c:49-72 | The C type string, second label and sub-kind string match the reference table: Item/Item/Laptop, Item/Item/ID Card, Document/Division/Finance, IT or HR |
| Report.ItemKindText | oop.cpp:30-33 | ItemAsset::display writes "Type: Item, Item: Laptop" for LAPTOP and "Type: Item, Item: ID Card" otherwise, as the reference table says |
| Report.DocumentKindText | oop.cpp:44-53 | DocumentAsset::display writes "Type: Document, Division: Finance", "IT" or "HR" for each division, as the reference table says |
| Report.ProceduralLineShape | procedural.c:73-75 | A C line is "Asset ", then the position, then the kind text, then the name, then ", Assignee: " and the assignee |
| Report.ObjectOrientedLineShape | oop.cpp:30-54 | A C++ line has exactly the same shape |
| Report.ReadHeaderOf | procedural.c:73 | Reading "Asset ", a numeral and a kind text, followed by anything, gives back the number and the kind |
| Report.ProceduralLineHeader | procedural.c:47-75 | Every C line reads back as position i+1 and the kind of the asset it renders |
| Report.SameLine | oop.cpp:30-54 | The C line and the C++ display are equal for every asset and index |
| Report.SameListing | oop.cpp:77-80 | The C report and the C++ report are equal for every sequence of assets |
| Report.ListingHeaders | procedural.c:47 | The report has exactly one line per asset, and line i reads back as position i+1 and the kind of asset i |
| Report.RenumberedAfterRemove | procedural.c:93-102 | After a removal at k, the report is renumbered: line j >= k reads back as position j+1 and the kind of the asset that was at j+1 |
| Demo.DemoListings | procedural.c:122-144 | The report of the three demonstration assets, and of the two left after removing index 1, are exactly the expected lines |
| Demo.ProceduralScenario | procedural.c:117-144 | The C demonstration flow prints three lines, then two lines renumbered 1 and 2 |
| Demo.ObjectOrientedScenario | oop.cpp:87-99 | The C++ demonstration flow prints the same two reports |

## Left out

- NULL checks on the list and its buffer (procedural.c:38, 45, 81, 94): a Dafny reference is never null, so these -1 paths cannot occur.
- Procedural.AssetList.constructor: the NULL result of new_asset_list when malloc fails is not modelled; creation always succeeds.
- free_asset_list, the AssetManager destructor, and the delete in AssetManager::remove: memory is not managed in Dafny.
- AssetManager's `std::vector<Asset*>` (oop.cpp:58) is modelled as a sequence of asset values. A null pointer cannot be represented. Neither can the same pointer added twice, after which `remove` deletes it and leaves a dangling entry behind (oop.cpp:71-72).
- Procedural.AssetList.Push: capacity doubling uses unbounded naturals. The size_t overflow of `capacity * 2` and of `new_capacity * sizeof(Asset)` is not modelled. Realloc failure is a parameter (`growthFails`) that is consulted only when the list is full.
- printf and std::cout output: the report is returned as lines without newlines. The headings and blank lines that oop.cpp's main prints around the reports are not modelled.
- Timing in both main functions (clock_gettime, std::chrono) and the elapsed-time line: these depend on the clock and on floating point.
- The 50-byte name and assignee buffers of the C record: no code truncates text, so names are unbounded strings.
- The untagged union of the C record and the "Unknown" default of both switches: a closed datatype makes a sub-kind that does not match its variant impossible. So an item kind other than LAPTOP is always ID_CARD.
- The error messages and exit codes of the two main functions.
