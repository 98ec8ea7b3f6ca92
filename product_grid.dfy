/** The product grid: the category list, the fixed catalog and the category
    filter that chooses which products are displayed. */
module ProductGrid {
  import opened Options
  import opened Sequences
  import opened ProductCard

  const AllProducts: string := "All Products"

  const PensAndPencilsCategory: string := "Pens & Pencils"

  /** The category buttons, in display order; the first shows everything. */
  const Categories: seq<string> := [
    AllProducts,
    PensAndPencilsCategory,
    "Notebooks",
    "Office Supplies",
    "Art Materials",
    "Desk Accessories"
  ]

  /** The selection when the grid is first shown. */
  const InitialCategory: string := AllProducts

  const ImageBase: string := "https://df3k2q0k3bu2n.cloudfront.net/static/images/"

  const FountainPen: Product :=
    Product(1, "Pilot Disposal Fountain Pen", 12000.0, Some(15000.0), 4.8, 156,
      ImageBase + "PENRPISVP4MBL.webp", "Pens & Pencils", Some(true), Some(true))
  const RingNoteBook: Product :=
    Product(2, "A'zone Uno Ring Note Book", 25000.0, None, 4.9, 203,
      ImageBase + "NOTBAZUNOA5-all.jpg", "Notebooks", None, None)
  const PencilShaker: Product :=
    Product(3, "Pilot Mechanical Pencil Shaker", 25000.0, Some(34990.0), 4.7, 89,
      ImageBase + "MECPPISH1010_sq.jpg", "Pens & Pencils", None, Some(true))
  const SteelRuler: Product :=
    Product(4, "Steel Metal Ruler 12 Inch", 17500.0, None, 4.6, 124,
      ImageBase + "steel-metal-ruler-12-inch_sq.jpg", "Desk Accessories", Some(true), None)
  const AcrylicPaint: Product :=
    Product(5, "Staedtler Acrylic Paint 12 Colour", 78000.0, None, 4.8, 67,
      ImageBase + "staedtler-acrylic-paint-12-colour-8500c12-1a_sq.jpg", "Art Materials", None, None)
  const PremiumPaper: Product :=
    Product(6, "PaperOne Premium Paper A4", 32000.0, None, 4.7, 198,
      ImageBase + "PPCPPONE-2_sq.jpg", "Notebooks", None, None)
  const PermanentMarker: Product :=
    Product(7, "Pentel Permanent Marker", 18000.0, Some(25000.0), 4.5, 142,
      ImageBase + "PERMPEN850-060325.jpg", "Pens & Pencils", None, Some(true))
  const Scissors: Product :=
    Product(8, "Deli Scissors 170mm", 15000.0, None, 4.0, 76,
      ImageBase + "E0603_3_sq.jpg", "Office Supplies", None, None)
  const Stapler: Product :=
    Product(9, "Deli Stapler (25 Sheets)", 12000.0, None, 4.4, 80,
      ImageBase + "E1E0312-1_sq.jpg", "Office Supplies", None, None)
  const ArchFile: Product :=
    Product(10, "PVC Arch File 3 Inch A4 No Index", 18000.0, None, 4.6, 70,
      ImageBase + "ARCFPVC3INA4-1_sq_WIgEQeU.jpg", "Office Supplies", None, None)
  const PencilLead: Product :=
    Product(11, "Pilot Polymer Mechanical Pencil Lead 2B 0.5mm", 22000.0, Some(25000.0), 4.5, 142,
      ImageBase + "PENLPI0P52B_sq.jpg", "Pens & Pencils", None, Some(true))
  const DeskOrganizer: Product :=
    Product(12, "Deli Mesh Desk Organizer", 40500.0, None, 4.6, 124,
      ImageBase + "E9175_sq.jpg", "Desk Accessories", Some(true), None)

  /** The fixed catalog, in display order. */
  const Catalog: seq<Product> := [
    FountainPen,
    RingNoteBook,
    PencilShaker,
    SteelRuler,
    AcrylicPaint,
    PremiumPaper,
    PermanentMarker,
    Scissors,
    Stapler,
    ArchFile,
    PencilLead,
    DeskOrganizer
  ]

  /** The products displayed for the selected category: all of them for
      "All Products", otherwise those whose category equals the selection. */
  function FilteredProducts(selected: string, products: seq<Product>): (r: seq<Product>)
    ensures selected == AllProducts ==> r == products
    ensures |r| <= |products|
  {
    if selected == AllProducts then products
    else Filter(products, (p: Product) => p.category == selected)
  }

  /** For a real category, a product is displayed exactly when it is in the
      list and has that category, as often as it occurs there. */
  lemma FilteredMembers(selected: string, products: seq<Product>, p: Product)
    requires selected != AllProducts
    ensures p in FilteredProducts(selected, products) <==> p in products && p.category == selected
    ensures multiset(FilteredProducts(selected, products))[p]
         == if p.category == selected then multiset(products)[p] else 0
  {
    FilterMembers(products, (q: Product) => q.category == selected, p);
    FilterCounts(products, (q: Product) => q.category == selected, p);
  }

  /** The displayed products appear in catalog order. */
  lemma FilteredInOrder(selected: string, products: seq<Product>)
    ensures IsSubsequence(FilteredProducts(selected, products), products)
  {
    if selected == AllProducts {
      SubsequenceReflexive(products);
    } else {
      FilterIsSubsequence(products, (p: Product) => p.category == selected);
    }
  }

  /** The "N products" counter above the grid. */
  function DisplayedCount(selected: string): (n: nat)
    ensures n <= |Catalog|
    ensures selected == AllProducts ==> n == |Catalog|
  {
    |FilteredProducts(selected, Catalog)|
  }

  /** The ids of `products`, in order. */
  function Ids(products: seq<Product>): seq<int> {
    seq(|products|, i requires 0 <= i < |products| => products[i].id)
  }

  /** With the initial selection the whole catalog, twelve products, is shown. */
  lemma InitialShowsAll()
    ensures FilteredProducts(InitialCategory, Catalog) == Catalog
    ensures DisplayedCount(InitialCategory) == 12
  {
  }

  /** Catalog ids are 1..12 in order, hence pairwise distinct. */
  lemma CatalogIds()
    ensures forall i :: 0 <= i < |Catalog| ==> Catalog[i].id == i + 1
    ensures forall i, j :: 0 <= i < j < |Catalog| ==> Catalog[i].id != Catalog[j].id
  {
  }

  /** Every catalog product belongs to one of the five real categories. */
  lemma CatalogCategories()
    ensures forall p :: p in Catalog ==> p.category in Categories[1..]
  {
  }

  /** The five category filters partition the catalog: each product is
      shown by exactly the filter of its own category. */
  lemma CategoriesPartitionCatalog(p: Product)
    requires p in Catalog
    ensures p.category in Categories[1..]
    ensures forall c :: c in Categories[1..] ==> (p in FilteredProducts(c, Catalog) <==> c == p.category)
  {
    CatalogCategories();
    forall c | c in Categories[1..]
      ensures p in FilteredProducts(c, Catalog) <==> c == p.category
    {
      assert c != AllProducts;
      FilteredMembers(c, Catalog, p);
    }
  }

  /** The four marked-down products show discounts of 20, 29, 28 and 12
      percent, and all four carry the sale badge. */
  lemma CatalogDiscounts()
    ensures Discount(FountainPen) == 20 && Discount(PencilShaker) == 29
    ensures Discount(PermanentMarker) == 28 && Discount(PencilLead) == 12
    ensures SaleBadge(FountainPen) && SaleBadge(PencilShaker)
    ensures SaleBadge(PermanentMarker) && SaleBadge(PencilLead)
  {
  }

  /** Every product with an original price is marked down from it. */
  lemma CatalogMarkdowns()
    ensures forall p :: p in Catalog && p.originalPrice.Some? ==> p.originalPrice.value > p.price
  {
  }

  /** One step of the category filter: the first product, when it matches,
      followed by the filtered rest. */
  lemma FilterStep(selected: string, products: seq<Product>)
    requires selected != AllProducts && products != []
    ensures FilteredProducts(selected, products)
         == (if products[0].category == selected then [products[0]] else [])
            + FilteredProducts(selected, products[1..])
  {
  }

  /** The "Pens & Pencils" filter over the last four catalog products. */
  lemma PensAndPencilsFrom8()
    ensures FilteredProducts(PensAndPencilsCategory, Catalog[8..]) == [PencilLead]
  {
    var s := Catalog;
    assert FilteredProducts(PensAndPencilsCategory, s[12..]) == [] by { assert s[12..] == []; }
    assert FilteredProducts(PensAndPencilsCategory, s[11..]) == [] by {
      assert s[11] == DeskOrganizer && s[11..][1..] == s[12..];
      FilterStep(PensAndPencilsCategory, s[11..]);
    }
    assert FilteredProducts(PensAndPencilsCategory, s[10..]) == [PencilLead] by {
      assert s[10] == PencilLead && s[10..][1..] == s[11..];
      FilterStep(PensAndPencilsCategory, s[10..]);
    }
    assert FilteredProducts(PensAndPencilsCategory, s[9..]) == [PencilLead] by {
      assert s[9] == ArchFile && s[9..][1..] == s[10..];
      FilterStep(PensAndPencilsCategory, s[9..]);
    }
    assert FilteredProducts(PensAndPencilsCategory, s[8..]) == [PencilLead] by {
      assert s[8] == Stapler && s[8..][1..] == s[9..];
      FilterStep(PensAndPencilsCategory, s[8..]);
    }
  }

  /** The "Pens & Pencils" filter over the last eight catalog products. */
  lemma PensAndPencilsFrom4()
    ensures FilteredProducts(PensAndPencilsCategory, Catalog[4..]) == [PermanentMarker, PencilLead]
  {
    var s := Catalog;
    PensAndPencilsFrom8();
    assert FilteredProducts(PensAndPencilsCategory, s[7..]) == [PencilLead] by {
      assert s[7] == Scissors && s[7..][1..] == s[8..];
      FilterStep(PensAndPencilsCategory, s[7..]);
    }
    assert FilteredProducts(PensAndPencilsCategory, s[6..]) == [PermanentMarker, PencilLead] by {
      assert s[6] == PermanentMarker && s[6..][1..] == s[7..];
      FilterStep(PensAndPencilsCategory, s[6..]);
    }
    assert FilteredProducts(PensAndPencilsCategory, s[5..]) == [PermanentMarker, PencilLead] by {
      assert s[5] == PremiumPaper && s[5..][1..] == s[6..];
      FilterStep(PensAndPencilsCategory, s[5..]);
    }
    assert FilteredProducts(PensAndPencilsCategory, s[4..]) == [PermanentMarker, PencilLead] by {
      assert s[4] == AcrylicPaint && s[4..][1..] == s[5..];
      FilterStep(PensAndPencilsCategory, s[4..]);
    }
  }

  /** "Pens & Pencils" shows products 1, 3, 7 and 11, in that order. */
  lemma PensAndPencils()
    ensures FilteredProducts(PensAndPencilsCategory, Catalog) == [FountainPen, PencilShaker, PermanentMarker, PencilLead]
    ensures Ids(FilteredProducts(PensAndPencilsCategory, Catalog)) == [1, 3, 7, 11]
  {
    var s := Catalog;
    PensAndPencilsFrom4();
    assert FilteredProducts(PensAndPencilsCategory, s[3..]) == [PermanentMarker, PencilLead] by {
      assert s[3] == SteelRuler && s[3..][1..] == s[4..];
      FilterStep(PensAndPencilsCategory, s[3..]);
    }
    assert FilteredProducts(PensAndPencilsCategory, s[2..]) == [PencilShaker, PermanentMarker, PencilLead] by {
      assert s[2] == PencilShaker && s[2..][1..] == s[3..];
      FilterStep(PensAndPencilsCategory, s[2..]);
    }
    assert FilteredProducts(PensAndPencilsCategory, s[1..]) == [PencilShaker, PermanentMarker, PencilLead] by {
      assert s[1] == RingNoteBook && s[1..][1..] == s[2..];
      FilterStep(PensAndPencilsCategory, s[1..]);
    }
    assert FilteredProducts(PensAndPencilsCategory, s[0..]) == [FountainPen, PencilShaker, PermanentMarker, PencilLead] by {
      assert s[0] == FountainPen && s[0..][1..] == s[1..];
      FilterStep(PensAndPencilsCategory, s[0..]);
    }
    assert s[0..] == s;
    var shown := [FountainPen, PencilShaker, PermanentMarker, PencilLead];
    assert Ids(shown) == [1, 3, 7, 11] by {
      assert shown[0].id == 1 && shown[1].id == 3 && shown[2].id == 7 && shown[3].id == 11;
    }
  }
}
