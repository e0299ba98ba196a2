/** The labels and fallbacks a listing card chooses (src/Components/ListingItem.jsx),
    as functions of the listing rather than as markup. */
module ListingCard {
  import opened Numerals
  import opened Listings

  /** The fixed picture shown when a listing has no usable first image. */
  const FallbackImage: string := "https://www.google.com/imgres?q=real%20estate&imgurl=https%3A%2F%2Fcdn.prod.website-files.com%2F620ec747459e13c7cf12a39e%2F625b10a58137b364b18df2ea_iStock-94179607.jpg&imgrefurl=https%3A%2F%2Fwww.concreit.com%2Fblog%2Fbasics-of-real-estate&docid=L0PhEgtl2Q4dOM&tbnid=44Mix5G356a2VM&vet=12ahUKEwjm4LCCiKOPAxVdvScCHbKIG-UQM3oECCcQAA..i&w=725&h=482&hcb=2&ved=2ahUKEwjm4LCCiKOPAxVdvScCHbKIG-UQM3oECCcQAA"

  const RentSuffix: string := " /month"

  predicate EndsWith(s: string, suffix: string) {
    |suffix| <= |s| && s[|s| - |suffix|..] == suffix
  }

  /** The image source: the first image URL when there is one and it is not blank,
      the fallback picture otherwise. Never blank. */
  function ImageSource(l: Listing): (src: string)
    ensures src != ""
    ensures |l.imageUrls| > 0 && l.imageUrls[0] != "" ==> src == l.imageUrls[0]
    ensures !(|l.imageUrls| > 0 && l.imageUrls[0] != "") ==> src == FallbackImage
  {
    if |l.imageUrls| > 0 && l.imageUrls[0] != "" then l.imageUrls[0] else FallbackImage
  }

  /** The alternative text: the listing's name, or "Listing" when the name is blank.
      Never blank. */
  function AltText(l: Listing): (alt: string)
    ensures alt != ""
    ensures l.name != "" ==> alt == l.name
    ensures l.name == "" ==> alt == "Listing"
  {
    if l.name != "" then l.name else "Listing"
  }

  /** The price the card shows. */
  function ShownPrice(l: Listing): int {
    if l.offer then l.discountPrice else l.regularPrice
  }

  /** "$", the shown price in en-US grouping, and " /month" for a rental. */
  function PriceLabel(l: Listing): string {
    "$" + LocaleNumber(ShownPrice(l)) + (if l.kind == "rent" then RentSuffix else "")
  }

  /** "N bed" / "N beds" style text: the noun takes a plural "s" only above one. */
  function RoomLabel(count: int, noun: string): string {
    IntText(count) + " " + noun + (if count > 1 then "s" else "")
  }

  function BedroomLabel(l: Listing): string { RoomLabel(l.bedrooms, "bed") }

  function BathroomLabel(l: Listing): string { RoomLabel(l.bathrooms, "bath") }

  /** The " /month" suffix appears exactly on rentals. */
  lemma PriceLabelSuffix(l: Listing)
    ensures EndsWith(PriceLabel(l), RentSuffix) <==> l.kind == "rent"
  {
    var amount := "$" + LocaleNumber(ShownPrice(l));
    if l.kind != "rent" {
      assert PriceLabel(l) == amount;
      var last := amount[|amount| - 1];
      assert last == LocaleNumber(ShownPrice(l))[|LocaleNumber(ShownPrice(l))| - 1];
      assert IsDigit(last) || last == ',' || last == '-';
    } else {
      assert PriceLabel(l)[|PriceLabel(l)| - |RentSuffix|..] == RentSuffix;
    }
  }

  /** The amount on the card reads back as the discount price when the listing is on
      offer and as the regular price otherwise; a negative price is written with a
      leading minus sign after the "$". */
  lemma {:induction false} PriceLabelShowsPrice(l: Listing)
    ensures var suffix := if l.kind == "rent" then RentSuffix else "";
            var text := PriceLabel(l);
            var price := if l.offer then l.discountPrice else l.regularPrice;
            |text| > |suffix| + 1
            && text[0] == '$'
            && (price >= 0 ==>
                  AllDigits(StripCommas(text[1..|text| - |suffix|]))
                  && ParseDecimal(StripCommas(text[1..|text| - |suffix|])) == price)
            && (price < 0 ==>
                  |text| > |suffix| + 2
                  && text[1] == '-'
                  && AllDigits(StripCommas(text[2..|text| - |suffix|]))
                  && ParseDecimal(StripCommas(text[2..|text| - |suffix|])) == -price)
  {
    var suffix := if l.kind == "rent" then RentSuffix else "";
    var price := ShownPrice(l);
    var amount := LocaleNumber(price);
    var text := PriceLabel(l);
    assert text == "$" + amount + suffix;
    assert text[1..|text| - |suffix|] == amount;
    if price >= 0 {
      GroupedRoundTrip(price);
    } else {
      assert amount == "-" + Grouped(-price);
      assert text[2..|text| - |suffix|] == Grouped(-price);
      GroupedRoundTrip(-price);
    }
  }

  /** A room text starts with the count and is plural exactly when the count exceeds
      one (so 0 and 1 both read singular). */
  lemma RoomLabelPlural(count: int, noun: string)
    requires noun != "" && noun[|noun| - 1] != 's'
    ensures var text := RoomLabel(count, noun);
            && |IntText(count)| < |text|
            && text[..|IntText(count)|] == IntText(count)
            && (EndsWith(text, "s") <==> count > 1)
  {
    var text := RoomLabel(count, noun);
    var t := IntText(count);
    assert text == t + (" " + noun + (if count > 1 then "s" else ""));
    assert text[..|t|] == t;
    if count <= 1 {
      assert text[|text| - 1] == noun[|noun| - 1];
    }
  }

  /** "N beds" exactly when there is more than one bedroom, "N bed" otherwise. */
  lemma BedroomLabelPlural(l: Listing)
    ensures EndsWith(BedroomLabel(l), "s") <==> l.bedrooms > 1
    ensures BedroomLabel(l)[..|IntText(l.bedrooms)|] == IntText(l.bedrooms)
  {
    RoomLabelPlural(l.bedrooms, "bed");
  }

  /** "N baths" exactly when there is more than one bathroom, "N bath" otherwise. */
  lemma BathroomLabelPlural(l: Listing)
    ensures EndsWith(BathroomLabel(l), "s") <==> l.bathrooms > 1
    ensures BathroomLabel(l)[..|IntText(l.bathrooms)|] == IntText(l.bathrooms)
  {
    RoomLabelPlural(l.bathrooms, "bath");
  }
}
