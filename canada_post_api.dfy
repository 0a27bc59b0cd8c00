/**
 * The Canada Post AddressComplete record shapes and the parser that turns a
 * record's free-text description into a structured Address. The HTTP client
 * and JSON mapping are not modelled: a response arrives as a value.
 */
module CanadaPostApi {
  import opened Text
  import opened Data

  /** One suggestion record of the provider: "Id", "Text" and "Description". */
  datatype AddressItem = AddressItem(id: string, text: string, description: string)
  {
    /** description.split(",").map { it.trim() }: one trimmed part per comma-separated field. */
    function Parts(): (parts: seq<string>)
      ensures |parts| == Count(description, ',') + 1
      ensures forall i :: 0 <= i < |parts| ==> ',' !in parts[i]
    {
      var raw := Split(description, ',');
      seq(|raw|, i requires 0 <= i < |raw| => Trim(raw[i]))
    }

    /**
     * toAddress: with exactly three parts, street and city are the first two
     * and the third is cut at its first space into province and postal code;
     * with any other number of parts, the record's text becomes the street
     * and the other fields are empty. Total: every record gives an address.
     */
    function ToAddress(): (a: Address)
      ensures a.fullAddress == text
      ensures a.country == DefaultCountry
    {
      var parts := Parts();
      if |parts| == 3 then
        Address(
          fullAddress := text,
          street := parts[0],
          city := parts[1],
          province := SubstringBefore(parts[2], ' '),
          postalCode := Trim(SubstringAfter(parts[2], ' ')))
      else
        Address(
          fullAddress := text,
          street := text,
          city := "",
          province := "",
          postalCode := "")
    }
  }

  /** The provider's answer: the "Items" array. */
  datatype AddressResponse = AddressResponse(items: seq<AddressItem>)

  /**
   * A description of the shape "a,b,c" (no further commas) is parsed field by
   * field: street and city are a and b trimmed, and the trimmed c is cut at
   * its first space.
   */
  lemma ToAddressOfThreeFields(item: AddressItem, a: string, b: string, c: string)
    requires item.description == a + "," + b + "," + c
    requires ',' !in a && ',' !in b && ',' !in c
    ensures item.ToAddress().street == Trim(a)
    ensures item.ToAddress().city == Trim(b)
    ensures item.ToAddress().province == SubstringBefore(Trim(c), ' ')
    ensures item.ToAddress().postalCode == Trim(SubstringAfter(Trim(c), ' '))
  {
    JoinThree(a, b, c, ',');
    SplitJoin([a, b, c], ',');
  }

  /** Every description with exactly two commas has the shape "a,b,c". */
  lemma TwoCommasGiveThreeFields(item: AddressItem)
    requires Count(item.description, ',') == 2
    ensures var raw := Split(item.description, ',');
      |raw| == 3 && item.description == raw[0] + "," + raw[1] + "," + raw[2]
  {
    var raw := Split(item.description, ',');
    JoinSplit(item.description, ',');
    assert raw == [raw[0], raw[1], raw[2]];
    JoinThree(raw[0], raw[1], raw[2], ',');
  }

  /** Any other number of commas gives the fallback: the text as street, nothing else. */
  lemma ToAddressFallback(item: AddressItem)
    requires Count(item.description, ',') != 2
    ensures item.ToAddress() == Address(item.text, "", "", "", DefaultCountry, item.text)
  {
  }

  /**
   * With three parts, the third part p is cut at its first space: province
   * is what precedes it (and holds no space), the postal code is what
   * follows it, trimmed. When p has no space, province and postal code are
   * both the whole of p.
   */
  lemma ProvinceAndPostalCode(item: AddressItem)
    requires Count(item.description, ',') == 2
    ensures var p := item.Parts()[2];
      var a := item.ToAddress();
      (' ' in p ==> ' ' !in a.province && p == a.province + " " + SubstringAfter(p, ' ')
                    && a.postalCode == Trim(SubstringAfter(p, ' '))) &&
      (' ' !in p ==> a.province == p && a.postalCode == p)
  {
    var p := item.Parts()[2];
    if ' ' in p {
      AroundFirstDelimiter(p, ' ');
    } else {
      TrimIdempotent(Split(item.description, ',')[2]);
    }
  }

  /**
   * With three non-empty parts the parsed address is not degenerate: street,
   * city and province are all non-empty.
   */
  lemma StructuredFieldsNonEmpty(item: AddressItem)
    requires Count(item.description, ',') == 2
    requires forall i :: 0 <= i < 3 ==> item.Parts()[i] != ""
    ensures item.ToAddress().street != ""
    ensures item.ToAddress().city != ""
    ensures item.ToAddress().province != ""
  {
    var p := item.Parts()[2];
    assert p[0] != ' ';
    if ' ' in p {
      assert IndexOf(p, ' ') != 0;
    }
  }

  /**
   * The third field of the typical description "123 Main St, Toronto,
   * ON M5V 2T6" cuts into province "ON" and postal code "M5V 2T6".
   */
  lemma CutsTypicalThirdField()
    ensures SubstringBefore("ON M5V 2T6", ' ') == "ON"
    ensures Trim(SubstringAfter("ON M5V 2T6", ' ')) == "M5V 2T6"
  {
    var p := "ON M5V 2T6";
    assert p[0] != ' ' && p[1] != ' ' && p[2] == ' ';
    assert IndexOf(p, ' ') == 2;
    assert p[..2] == "ON" && p[3..] == "M5V 2T6";
    TrimUnchanged("M5V 2T6");
  }

  /** A description without commas falls back to the record's text. */
  lemma ParsesDescriptionWithoutCommas(id: string, text: string)
    ensures AddressItem(id, text, "Unit 5 Somewhere").ToAddress() == Address(text, "", "", "", DefaultCountry, text)
  {
    assert ',' !in "Unit 5 Somewhere";
    ToAddressFallback(AddressItem(id, text, "Unit 5 Somewhere"));
  }
}
