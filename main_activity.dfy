/**
 * The event handlers of the three input fields on the search screen: the
 * phone-number field (accept or reject an edit, cursor to the end, error
 * flag), the inline address search and the bottom-sheet address search.
 * Layout and rendering are not modelled; each field's remembered state is a
 * class whose handlers reassign it.
 */
module MainActivity {
  import opened Text
  import opened Data
  import opened PhoneNumberFormatter
  import opened Search
  import CanadaPostRepository

  /** A selection in a text field; TextRange(n) is the collapsed TextRange(n, n). */
  datatype TextRange = TextRange(start: nat, end: nat)

  datatype TextFieldValue = TextFieldValue(text: string, selection: TextRange)

  /** The phone field holds at most ten digits. */
  const MaxPhoneDigits: nat := 10

  /**
   * What the phone field can display: the mask of its own digits (so a fixed
   * point of format after deformat), at most ten digits, and the cursor
   * collapsed at the end.
   */
  ghost predicate IsSettledPhoneValue(v: TextFieldValue) {
    |Deformat(v.text)| <= MaxPhoneDigits &&
    Mask(Deformat(v.text)) == v.text &&
    v.selection == TextRange(|v.text|, |v.text|)
  }

  /** The one place the cursor policy lives: after every accepted edit it goes to the end. */
  function CursorAtEnd(text: string): (v: TextFieldValue)
    ensures v.text == text && v.selection.start == v.selection.end == |text|
  {
    TextFieldValue(text, TextRange(|text|, |text|))
  }

  /** An accepted edit (at most ten digits) always produces a settled value. */
  lemma AcceptedEditIsSettled(input: string)
    requires |Deformat(input)| <= MaxPhoneDigits
    ensures IsSettledPhoneValue(CursorAtEnd(Mask(Deformat(input))))
  {
    DeformatFormatRoundTrip(Deformat(input));
  }

  /** isError and the supporting text: the field is non-empty and not a valid number. */
  function ShowsPhoneError(text: string): bool {
    text != "" && !IsValid(text)
  }

  /** On a settled value, the error shows exactly when one to nine digits have been entered. */
  lemma PhoneErrorIffIncomplete(v: TextFieldValue)
    requires IsSettledPhoneValue(v)
    ensures ShowsPhoneError(v.text) <==> 0 < |Deformat(v.text)| < MaxPhoneDigits
  {
    MaskEmptyIff(Deformat(v.text));
  }

  /** PhoneNumberInput's remembered TextFieldValue and its onValueChange handler. */
  class PhoneNumberInput {
    var phoneNumberState: TextFieldValue

    ghost predicate Valid()
      reads this
    {
      IsSettledPhoneValue(phoneNumberState)
    }

    constructor ()
      ensures Valid()
      ensures phoneNumberState == TextFieldValue("", TextRange(0, 0))
    {
      phoneNumberState := TextFieldValue("", TextRange(0, 0));
    }

    /**
     * onValueChange: an edit whose digits number at most ten is accepted and
     * shown formatted with the cursor at the end; any other edit is dropped
     * and the previous value stays.
     */
    method OnValueChange(input: TextFieldValue)
      requires Valid()
      modifies this
      ensures Valid()
      ensures |Deformat(input.text)| <= MaxPhoneDigits ==>
        phoneNumberState == CursorAtEnd(Mask(Deformat(input.text)))
      ensures |Deformat(input.text)| > MaxPhoneDigits ==>
        phoneNumberState == old(phoneNumberState)
    {
      var deformatted := Deformat(input.text);
      if |deformatted| <= MaxPhoneDigits {
        var formatted := Format(deformatted);
        DeformatIdempotent(input.text);
        phoneNumberState := TextFieldValue(formatted, TextRange(|formatted|, |formatted|));
        AcceptedEditIsSettled(input.text);
      }
    }
  }

  /** AddressTextField: a search field with its own local selection. */
  class AddressTextField {
    var searchText: string
    var selectedAddress: Option<Address>
    const viewModel: SearchViewModel

    ghost predicate Valid()
      reads this, viewModel
    {
      viewModel.Valid()
    }

    constructor (viewModel: SearchViewModel)
      requires viewModel.Valid()
      ensures Valid() && this.viewModel == viewModel
      ensures searchText == "" && selectedAddress == None
    {
      searchText := "";
      selectedAddress := None;
      this.viewModel := viewModel;
    }

    /** Typing: the text is taken, the local selection cleared, and the query sent to the view model. */
    method OnQueryChange(query: string)
      requires Valid()
      modifies this, viewModel
      ensures Valid()
      ensures searchText == query && selectedAddress == None
      ensures viewModel.selectedAddress == old(viewModel.selectedAddress)
      ensures Utf16Length(query) < MinQueryLength ==>
        viewModel.addressSuggestions == [] && viewModel.isLoading == old(viewModel.isLoading) &&
        viewModel.inFlight == old(viewModel.inFlight)
      ensures Utf16Length(query) >= MinQueryLength ==>
        viewModel.isLoading && viewModel.addressSuggestions == old(viewModel.addressSuggestions) &&
        viewModel.inFlight == old(viewModel.inFlight) + [query]
    {
      searchText := query;
      selectedAddress := None;
      viewModel.SearchAddress(query);
    }

    /**
     * Clicking a suggestion: the search text is cleared, the suggestion
     * becomes the local selection, and the view model's suggestions are
     * emptied (its own selection is left alone).
     */
    method OnSuggestionClick(address: Address)
      requires Valid()
      modifies this, viewModel
      ensures Valid()
      ensures searchText == "" && selectedAddress == Some(address)
      ensures viewModel.addressSuggestions == []
      ensures viewModel.isLoading == old(viewModel.isLoading)
      ensures viewModel.selectedAddress == old(viewModel.selectedAddress)
      ensures viewModel.inFlight == old(viewModel.inFlight)
    {
      searchText := "";
      selectedAddress := Some(address);
      viewModel.ClearAddressSuggestions();
    }
  }

  /** The suggestions the bottom sheet lists: none while a fetch is loading, otherwise the view model's. */
  function SheetSuggestions(isLoading: bool, suggestions: seq<Address>): (shown: seq<Address>)
    ensures isLoading ==> shown == []
    ensures !isLoading ==> shown == suggestions
  {
    if isLoading then [] else suggestions
  }

  /** AddressSearchWithBottomSheet: a trigger field that opens a sheet bound to the view model's selection. */
  class AddressSearchWithBottomSheet {
    var showBottomSheet: bool
    var searchText: string
    const viewModel: SearchViewModel

    ghost predicate Valid()
      reads this, viewModel
    {
      viewModel.Valid()
    }

    constructor (viewModel: SearchViewModel)
      requires viewModel.Valid()
      ensures Valid() && this.viewModel == viewModel
      ensures !showBottomSheet && searchText == ""
    {
      showBottomSheet := false;
      searchText := "";
      this.viewModel := viewModel;
    }

    /** What the open sheet lists. */
    function ShownSuggestions(): seq<Address>
      reads this, viewModel
    {
      SheetSuggestions(viewModel.isLoading, viewModel.addressSuggestions)
    }

    /** Clicking the trigger field opens the sheet. */
    method OnTriggerClick()
      requires Valid()
      modifies this
      ensures Valid()
      ensures showBottomSheet && searchText == old(searchText)
    {
      showBottomSheet := true;
    }

    /** Typing in the sheet: the text is taken and the query sent; the selection is kept. */
    method OnSearchTextChange(query: string)
      requires Valid()
      modifies this, viewModel
      ensures Valid()
      ensures searchText == query && showBottomSheet == old(showBottomSheet)
      ensures viewModel.selectedAddress == old(viewModel.selectedAddress)
      ensures Utf16Length(query) < MinQueryLength ==>
        viewModel.addressSuggestions == [] && viewModel.isLoading == old(viewModel.isLoading) &&
        viewModel.inFlight == old(viewModel.inFlight)
      ensures Utf16Length(query) >= MinQueryLength ==>
        viewModel.isLoading && viewModel.addressSuggestions == old(viewModel.addressSuggestions) &&
        viewModel.inFlight == old(viewModel.inFlight) + [query]
    {
      searchText := query;
      viewModel.SearchAddress(query);
    }

    /**
     * Picking a suggestion: the view model selects it (and empties its
     * suggestions), the sheet closes and its text is cleared.
     */
    method OnSuggestionSelected(address: Address)
      requires Valid()
      modifies this, viewModel
      ensures Valid()
      ensures viewModel.selectedAddress == Some(address) && viewModel.addressSuggestions == []
      ensures !showBottomSheet && searchText == ""
      ensures ShownSuggestions() == []
      ensures viewModel.isLoading == old(viewModel.isLoading) && viewModel.inFlight == old(viewModel.inFlight)
    {
      viewModel.SelectAddress(address);
      showBottomSheet := false;
      searchText := "";
    }

    /** Dismissing the sheet closes it and clears its text; the view model is untouched. */
    method OnDismiss()
      requires Valid()
      modifies this
      ensures Valid()
      ensures !showBottomSheet && searchText == ""
    {
      showBottomSheet := false;
      searchText := "";
    }
  }

  /**
   * The sheet while a fetch runs: a first search has completed and filled the
   * suggestions; typing a longer query hides them from the open sheet while
   * its fetch runs (the view model still holds them), and the sheet lists the
   * new result once that fetch completes.
   */
  method SheetDuringFetch(first: CanadaPostRepository.ProviderResult, second: CanadaPostRepository.ProviderResult)
    returns (whileLoading: seq<Address>, heldMeanwhile: seq<Address>, afterCompletion: seq<Address>)
    ensures whileLoading == []
    ensures heldMeanwhile == CanadaPostRepository.SearchAddress(first)
    ensures afterCompletion == CanadaPostRepository.SearchAddress(second)
  {
    var vm := new SearchViewModel();
    var sheet := new AddressSearchWithBottomSheet(vm);
    sheet.OnTriggerClick();
    sheet.OnSearchTextChange("Toronto");
    vm.CompleteFetch(0, first);
    sheet.OnSearchTextChange("Toronto St");
    whileLoading := sheet.ShownSuggestions();
    heldMeanwhile := vm.addressSuggestions;
    vm.CompleteFetch(0, second);
    afterCompletion := sheet.ShownSuggestions();
  }
}
