/**
 * CanadaPostRepository.searchAddress: the provider call's outcome mapped
 * through the record parser, any failure turned into an empty list.
 */
module CanadaPostRepository {
  import opened Data
  import opened CanadaPostApi

  /**
   * What api.findAddress(query) produced for the query: a response, or a
   * failure (network, HTTP or deserialisation exception). The HTTP call
   * itself is not modelled.
   */
  datatype ProviderResult = Success(response: AddressResponse) | Failure

  /** items.map { it.toAddress() }: one address per record, in the same order. */
  function MapToAddress(items: seq<AddressItem>): (addresses: seq<Address>)
    ensures |addresses| == |items|
    ensures forall i :: 0 <= i < |items| ==> addresses[i] == items[i].ToAddress()
  {
    if items == [] then []
    else [items[0].ToAddress()] + MapToAddress(items[1..])
  }

  /**
   * searchAddress: on success, the parsed records in provider order; on
   * failure, the empty list. No failure reaches the caller.
   */
  function SearchAddress(outcome: ProviderResult): (addresses: seq<Address>)
    ensures outcome.Failure? ==> addresses == []
    ensures outcome.Success? ==>
      |addresses| == |outcome.response.items| &&
      forall i :: 0 <= i < |addresses| ==> addresses[i] == outcome.response.items[i].ToAddress()
  {
    match outcome
    case Failure => []
    case Success(response) => MapToAddress(response.items)
  }

  /**
   * Every suggestion carries the provider label of the record it came from
   * and the default country.
   */
  lemma SuggestionsKeepProviderLabels(outcome: ProviderResult)
    requires outcome.Success?
    ensures forall i :: 0 <= i < |SearchAddress(outcome)| ==>
      SearchAddress(outcome)[i].fullAddress == outcome.response.items[i].text &&
      SearchAddress(outcome)[i].country == DefaultCountry
  {
  }
}
