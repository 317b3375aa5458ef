/**
 * The mock data source (src/lib/data.ts): the two catalogue products, the
 * slug lookup, the capacity ledger with its date lookup, and the schedule
 * configuration.  Prices are in cents.
 */
module Data {
  import opened Wrappers
  import opened JsArray
  import opened ProductTypes
  import opened ScheduleTypes

  function MockCake(): CustomizableProduct {
    CustomizableProduct(
      "cake_choc101",
      "Signature Chocolate Delight",
      "signature-chocolate-delight",
      "Rich, moist chocolate cake with your choice of filling and inscription.",
      2500,
      Cakes,
      ["/images/cake-product-1.jpg"],
      [ OptionGroup("size", "1. Select Your Cake Size", SingleSelect, true,
          Some([ Choice("size_6in", "6-Inch Round", 0),
                 Choice("size_8in", "8-Inch Round", 1500),
                 Choice("size_2tier", "Two-Tier Special", 5500) ]),
          None, None),
        OptionGroup("inscription", "2. Personalized Message (Optional)", TextInput, false,
          None, Some(50), Some(200)) ],
      48)
  }

  function MockCatfish(): StandardProduct {
    StandardProduct(
      "catfish_fresh202",
      "Premium Whole Catfish (Fresh)",
      "fresh-catfish",
      "Locally sourced, fresh Catfish. Perfect for grilling or soup.",
      1250,
      Catfish,
      ["/images/catfish-product-1.jpg"],
      StandardOptions("weight", "Select Weight/Preparation",
        [ Variant("w_1kg", "1 Kg (Fresh)", 1250, 50),
          Variant("w_2kg", "2 Kg (Fresh)", 2500, 20),
          Variant("w_1kg_smoked", "1 Kg (Smoked)", 1500, 15) ]))
  }

  /** The catalogue lookup: each product under its own slug and under its legacy category slug. */
  function GetProductBySlug(slug: string): (r: Option<Product>)
    ensures r == Some(Customizable(MockCake())) <==> slug == "signature-chocolate-delight" || slug == "cakes"
    ensures r == Some(Standard(MockCatfish())) <==> slug == "fresh-catfish" || slug == "catfish"
    ensures r.None? <==> slug != "signature-chocolate-delight" && slug != "fresh-catfish" && slug != "cakes" && slug != "catfish"
  {
    if slug == "signature-chocolate-delight" then Some(Customizable(MockCake()))
    else if slug == "fresh-catfish" then Some(Standard(MockCatfish()))
    else if slug == "cakes" then Some(Customizable(MockCake()))
    else if slug == "catfish" then Some(Standard(MockCatfish()))
    else None
  }

  function MockCapacity(): seq<CapacityLimit> {
    [ CapacityLimit("2025-11-15", 5, false,
        Some([ SlotCapacity("12:00", 1, 1), SlotCapacity("14:00", 3, 2) ])),
      CapacityLimit("2025-11-16", 10, true, None) ]
  }

  /** `ledger.find(c => c.date === date)`: the first entry for that date. */
  function FindCapacity(ledger: seq<CapacityLimit>, date: string): (r: Option<CapacityLimit>)
    ensures r.None? <==> forall i :: 0 <= i < |ledger| ==> ledger[i].date != date
    ensures r.Some? ==> r.value.date == date && r.value in ledger
  {
    Find(ledger, (c: CapacityLimit) => c.date == date)
  }

  /** The capacity lookup over the mock ledger: only 2025-11-15 and 2025-11-16 have entries. */
  function GetCapacityForDate(date: string): (r: Option<CapacityLimit>)
    ensures r.Some? <==> date == "2025-11-15" || date == "2025-11-16"
    ensures r.Some? ==> r.value.date == date && r.value in MockCapacity()
  {
    FindCapacity(MockCapacity(), date)
  }

  function MockScheduleConfig(): ScheduleConfig {
    ScheduleConfig(TimeWindow("09:00", "17:00"), 60, 48, [DayException(Sunday, true, None, None)])
  }
}
