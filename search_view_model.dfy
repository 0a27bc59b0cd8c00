/**
 * SearchViewModel: the three observable cells of the address search
 * (suggestions, loading flag, selection), the three-character query gate,
 * and the fetch that each accepted query launches.
 *
 * A launched fetch is split into two events: SearchAddress starts it (the
 * coroutine body runs at once up to the provider call and sets the loading
 * flag), and CompleteFetch delivers the repository's result for one of the
 * fetches still running, in whatever order they finish. As in the app there
 * is no staleness guard: whichever fetch completes last decides the
 * suggestions, and the first completion clears the loading flag even while
 * other fetches are still running.
 */
module Search {
  import opened Text
  import opened Data
  import CanadaPostRepository

  /**
   * Queries shorter than this never reach the provider. The length is Kotlin's
   * String.length, a count of UTF-16 code units.
   */
  const MinQueryLength: nat := 3

  class SearchViewModel {
    var addressSuggestions: seq<Address>
    var isLoading: bool
    var selectedAddress: Option<Address>
    /** The queries whose fetch has started and not yet completed, in start order. */
    ghost var inFlight: seq<string>

    /** Loading implies some fetch is running; every running fetch passed the gate. */
    ghost predicate Valid()
      reads this
    {
      (isLoading ==> inFlight != []) &&
      forall i :: 0 <= i < |inFlight| ==> Utf16Length(inFlight[i]) >= MinQueryLength
    }

    constructor ()
      ensures Valid()
      ensures addressSuggestions == [] && !isLoading && selectedAddress == None
      ensures inFlight == []
    {
      addressSuggestions := [];
      isLoading := false;
      selectedAddress := None;
      inFlight := [];
    }

    /**
     * searchAddress: a query shorter than three UTF-16 units empties the
     * suggestions and starts nothing; a longer one starts a fetch and sets
     * the loading flag. The selection is never touched.
     */
    method SearchAddress(query: string)
      requires Valid()
      modifies this
      ensures Valid()
      ensures selectedAddress == old(selectedAddress)
      ensures Utf16Length(query) < MinQueryLength ==>
        addressSuggestions == [] && isLoading == old(isLoading) && inFlight == old(inFlight)
      ensures Utf16Length(query) >= MinQueryLength ==>
        isLoading && addressSuggestions == old(addressSuggestions) && inFlight == old(inFlight) + [query]
    {
      if Utf16Length(query) < MinQueryLength {
        addressSuggestions := [];
        return;
      }
      isLoading := true;
      inFlight := inFlight + [query];
    }

    /**
     * The end of the k-th running fetch: the suggestions are replaced
     * wholesale by the repository's result for the provider's outcome, and
     * the loading flag is cleared (the finally block), whatever else is
     * still running.
     */
    method CompleteFetch(k: nat, outcome: CanadaPostRepository.ProviderResult)
      requires Valid()
      requires k < |inFlight|
      modifies this
      ensures Valid()
      ensures addressSuggestions == CanadaPostRepository.SearchAddress(outcome)
      ensures !isLoading
      ensures selectedAddress == old(selectedAddress)
      ensures inFlight == old(inFlight[..k] + inFlight[k + 1..])
    {
      addressSuggestions := CanadaPostRepository.SearchAddress(outcome);
      isLoading := false;
      inFlight := inFlight[..k] + inFlight[k + 1..];
    }

    /** selectAddress: the selection becomes exactly the address and the suggestions are emptied. */
    method SelectAddress(address: Address)
      requires Valid()
      modifies this
      ensures Valid()
      ensures selectedAddress == Some(address) && addressSuggestions == []
      ensures isLoading == old(isLoading) && inFlight == old(inFlight)
    {
      selectedAddress := Some(address);
      addressSuggestions := [];
    }

    /** clearSelectedAddress: only the selection changes, to none. */
    method ClearSelectedAddress()
      requires Valid()
      modifies this
      ensures Valid()
      ensures selectedAddress == None
      ensures addressSuggestions == old(addressSuggestions) && isLoading == old(isLoading)
      ensures inFlight == old(inFlight)
    {
      selectedAddress := None;
    }

    /** clearAddressSuggestions: only the suggestions change, to empty. */
    method ClearAddressSuggestions()
      requires Valid()
      modifies this
      ensures Valid()
      ensures addressSuggestions == []
      ensures isLoading == old(isLoading) && selectedAddress == old(selectedAddress)
      ensures inFlight == old(inFlight)
    {
      addressSuggestions := [];
    }
  }

  /**
   * The gate counts as Kotlin does: a letter and an emoji outside the Basic
   * Multilingual Plane are two characters but three UTF-16 units, enough to
   * start a fetch.
   */
  lemma AstralQueryPassesGate()
    ensures |"a\U{1F600}"| == 2 && Utf16Length("a\U{1F600}") == MinQueryLength
  {
  }

  /**
   * Two fetches finishing in the opposite order to their start: "Que" is
   * started, then "Quebec"; "Quebec" completes first, then "Que". The loading
   * flag is already false while "Que" is still running, and the suggestions
   * left on screen are those of the older query "Que".
   */
  method OutOfOrderCompletion(older: CanadaPostRepository.ProviderResult, newer: CanadaPostRepository.ProviderResult)
    returns (loadingBetween: bool, shown: seq<Address>, ghost runningBetween: seq<string>)
    ensures !loadingBetween && runningBetween == ["Que"]
    ensures shown == CanadaPostRepository.SearchAddress(older)
  {
    var vm := new SearchViewModel();
    vm.SearchAddress("Que");
    vm.SearchAddress("Quebec");
    vm.CompleteFetch(1, newer);
    loadingBetween := vm.isLoading;
    runningBetween := vm.inFlight;
    vm.CompleteFetch(0, older);
    shown := vm.addressSuggestions;
  }

  /**
   * A short query after a started fetch: the suggestions are emptied at once,
   * but the running fetch later fills them again.
   */
  method ShortQueryThenCompletion(outcome: CanadaPostRepository.ProviderResult)
    returns (afterShortQuery: seq<Address>, afterCompletion: seq<Address>)
    ensures afterShortQuery == []
    ensures afterCompletion == CanadaPostRepository.SearchAddress(outcome)
  {
    var vm := new SearchViewModel();
    vm.SearchAddress("Toronto");
    vm.SearchAddress("To");
    afterShortQuery := vm.addressSuggestions;
    vm.CompleteFetch(0, outcome);
    afterCompletion := vm.addressSuggestions;
  }
}
