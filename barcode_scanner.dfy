/**
 * The product scanner (src/components/BarcodeScanner.tsx): the mock product
 * database and the manual lookup with its fixed fallback. The scan result is
 * emitted through the `onScanResult` callback, which the method here returns
 * instead.
 */
module BarcodeScanner {
  import opened ProductResult

  const OrganicBananas: Product :=
    Product("Organic Bananas", "Fresh Farm", 0.7, "food", 85.0, ["Organic", "Fair Trade"])
  const BeefBurger: Product :=
    Product("Beef Burger", "Quick Eats", 15.2, "food", 25.0, [])
  const LedLightBulb: Product :=
    Product("LED Light Bulb", "EcoLight", 2.1, "electronics", 92.0, ["Energy Star"])

  /** `productDatabase`, keyed by barcode. */
  const ProductDatabase: map<string, Product> := map[
    "1234567890123" := OrganicBananas,
    "9876543210987" := BeefBurger,
    "5555666677778" := LedLightBulb]

  /** What any unknown barcode yields. */
  const UnknownProduct: Product :=
    Product("Unknown Product", "Unknown Brand", 5.0, "unknown", 50.0, [])

  /** Every product the scanner can emit has a non-negative footprint and a score out of 100. */
  predicate WellFormedProduct(p: Product)
  {
    p.carbonFootprint >= 0.0 && 0.0 <= p.sustainabilityScore <= 100.0
  }

  /** The product `handleManualScan` emits for a barcode. */
  function LookupProduct(code: string): (p: Product)
    ensures code in ProductDatabase ==> p == ProductDatabase[code]
    ensures code !in ProductDatabase ==> p == UnknownProduct
    ensures WellFormedProduct(p)
  {
    if code in ProductDatabase then ProductDatabase[code] else UnknownProduct
  }

  /** The three advertised barcodes find their products; anything else falls back. */
  lemma KnownBarcodes()
    ensures LookupProduct("1234567890123").name == "Organic Bananas"
    ensures LookupProduct("9876543210987").name == "Beef Burger"
    ensures LookupProduct("5555666677778").name == "LED Light Bulb"
    ensures LookupProduct("").name == "Unknown Product"
  {
  }

  /** The badges of the known products and of the fallback. */
  lemma ProductBadges()
    ensures GetScoreColor(OrganicBananas.sustainabilityScore) == GreenScore
    ensures GetScoreColor(BeefBurger.sustainabilityScore) == RedScore
    ensures GetScoreColor(LedLightBulb.sustainabilityScore) == GreenScore
    ensures GetScoreColor(UnknownProduct.sustainabilityScore) == RedScore
    ensures CertificationsViewOf(BeefBurger) == NoCertificationsAvailable
  {
  }

  /** The component's state: the barcode text field. */
  class Scanner {
    var manualBarcode: string

    constructor()
      ensures manualBarcode == ""
    {
      manualBarcode := "";
    }

    /** The text field's `onChange`. */
    method SetManualBarcode(text: string)
      modifies this
      ensures manualBarcode == text
    {
      manualBarcode := text;
    }

    /** `handleManualScan`: look the barcode up, emit the product, clear the field. */
    method HandleManualScan() returns (emitted: Product)
      modifies this
      ensures emitted == LookupProduct(old(manualBarcode))
      ensures manualBarcode == ""
    {
      if manualBarcode in ProductDatabase {
        emitted := ProductDatabase[manualBarcode];
        manualBarcode := "";
      } else {
        emitted := UnknownProduct;
        manualBarcode := "";
      }
    }
  }
}
