/**
 * The Address entity and its two renderings, plus the optional value used
 * wherever the app holds an Address? (a selection that may be absent).
 */
module Data {
  import opened Text

  datatype Option<T> = None | Some(value: T)

  const DefaultCountry: string := "Canada"

  /**
   * The Kotlin class declares five properties (street, city, province,
   * postalCode and country, which defaults to "Canada"). The provider-record
   * parser also passes a named argument fullAddress that the class as written
   * does not declare; the model carries it as an explicit sixth field holding
   * the provider's short label.
   */
  datatype Address = Address(
    street: string,
    city: string,
    province: string,
    postalCode: string,
    country: string := DefaultCountry,
    fullAddress: string := "")
  {
    /** toShortString: street and city separated by ", ", even when city is empty. */
    function ToShortString(): (r: string)
      ensures |r| == |street| + 2 + |city|
      ensures r[..|street|] == street && r[|street|..|street| + 2] == ", " && r[|street| + 2..] == city
    {
      street + ", " + city
    }

    /**
     * toFullString: the street, then ", " and the city, ", " and the province,
     * and " " and the postal code, each only when that field is non-empty.
     * The country never takes part.
     */
    function ToFullString(): string {
      street
        + (if city != "" then ", " + city else "")
        + (if province != "" then ", " + province else "")
        + (if postalCode != "" then " " + postalCode else "")
    }

    /** toString is the full rendering. */
    function ToString(): (r: string)
      ensures r == ToFullString()
    {
      ToFullString()
    }
  }

  /**
   * The full rendering starts with the street; then ", " and the city, ", "
   * and the province, and " " and the postal code follow in that order, each
   * exactly when that field is non-empty, so an empty field is skipped and a
   * non-empty one is never lost.
   */
  lemma FullStringShape(a: Address)
    ensures a.street <= a.ToFullString()
    ensures |a.ToFullString()| == |a.street|
      + (if a.city != "" then 2 + |a.city| else 0)
      + (if a.province != "" then 2 + |a.province| else 0)
      + (if a.postalCode != "" then 1 + |a.postalCode| else 0)
    ensures var afterCity := |a.street| + (if a.city != "" then 2 + |a.city| else 0);
      && (a.city != "" ==> a.ToFullString()[|a.street|..afterCity] == ", " + a.city)
      && (a.province != "" ==> a.ToFullString()[afterCity..afterCity + 2 + |a.province|] == ", " + a.province)
      && (a.postalCode != "" ==>
            a.ToFullString()[|a.ToFullString()| - 1 - |a.postalCode|..] == " " + a.postalCode)
  {
    var cityPart := if a.city != "" then ", " + a.city else "";
    var provincePart := if a.province != "" then ", " + a.province else "";
    var postalPart := if a.postalCode != "" then " " + a.postalCode else "";
    var full := a.ToFullString();
    assert full == a.street + cityPart + provincePart + postalPart;
    var afterCity := |a.street| + |cityPart|;
    assert full[|a.street|..afterCity] == cityPart;
    assert full[afterCity..afterCity + |provincePart|] == provincePart;
    assert full[|full| - |postalPart|..] == postalPart;
  }

  /** The country has no influence on the full rendering. */
  lemma FullStringIgnoresCountry(a: Address, country: string)
    ensures a.(country := country).ToFullString() == a.ToFullString()
  {
  }

  /** With no city, province or postal code the full rendering is the street alone. */
  lemma FullStringOfStreetOnly(a: Address)
    requires a.city == "" && a.province == "" && a.postalCode == ""
    ensures a.ToFullString() == a.street
  {
  }

  /**
   * The short and full renderings coincide exactly when the city is present
   * and the province and postal code are both absent.
   */
  lemma ShortEqualsFullIff(a: Address)
    ensures a.ToShortString() == a.ToFullString() <==> (a.city != "" && a.province == "" && a.postalCode == "")
  {
    FullStringShape(a);
    if a.city == "" && a.province == "" && |a.postalCode| == 1 {
      // Same length, but the character after the street differs.
      assert a.ToFullString()[|a.street|] == ' ';
      assert a.ToShortString()[|a.street|] == ',';
    }
  }

  /**
   * The short rendering splits at its one comma back into the street and the
   * city (behind the blank of the separator), when neither holds a comma.
   */
  lemma ShortStringSplits(a: Address)
    requires ',' !in a.street && ',' !in a.city
    ensures Split(a.ToShortString(), ',') == [a.street, " " + a.city]
  {
    assert a.ToShortString() == a.street + [','] + (" " + a.city);
    assert Join([a.street, " " + a.city], ',') == a.street + [','] + Join([" " + a.city], ',');
    SplitJoin([a.street, " " + a.city], ',');
  }

  /** A constructor call that leaves out the country gets "Canada". */
  lemma CountryDefaultsToCanada(street: string, city: string, province: string, postalCode: string)
    ensures Address(street, city, province, postalCode).country == "Canada"
  {
  }
}
