/** The floating search bar at the bottom of the home page: two dropdown selects, a location
    input with suggestions over a fixed list, and a visibility rule driven by scrolling and by
    the pointer approaching the bottom edge. */
module FloatingSearchWidget {
  import opened Options
  import opened Seqs
  import opened Autocomplete
  import opened ScrollRule

  /** One entry of a dropdown: the value reported and the label shown (`caption` here, as
      `label` is a keyword). */
  datatype SelectOption = SelectOption(value: string, caption: string)

  /** The position of the first option carrying `value`, as `Array.prototype.find` scans. */
  function FirstIndexOf(options: seq<SelectOption>, value: string): (r: Option<nat>)
    ensures r.None? <==> forall i :: 0 <= i < |options| ==> options[i].value != value
    ensures r.Some? ==> r.value < |options| && options[r.value].value == value
    ensures r.Some? ==> forall j :: 0 <= j < r.value ==> options[j].value != value
  {
    if options == [] then None
    else if options[0].value == value then Some(0)
    else match FirstIndexOf(options[1..], value)
      case None => None
      case Some(i) => Some(i + 1)
  }

  /** `displayLabel`: the placeholder while no value (or the empty value) is selected;
      otherwise the label of the first option with the selected value, or nothing when no
      option has it. */
  function DisplayLabel(options: seq<SelectOption>, placeholder: string, selected: Option<string>): (r: Option<string>)
    ensures selected.None? || selected.value == "" ==> r == Some(placeholder)
    ensures selected.Some? && selected.value != "" ==>
      (r.None? <==> forall i :: 0 <= i < |options| ==> options[i].value != selected.value)
    ensures selected.Some? && selected.value != "" && r.Some? ==>
      exists i :: 0 <= i < |options| && options[i].value == selected.value && options[i].caption == r.value
        && forall j :: 0 <= j < i ==> options[j].value != selected.value
  {
    if selected.None? || selected.value == "" then Some(placeholder)
    else match FirstIndexOf(options, selected.value)
      case None => None
      case Some(i) => Some(options[i].caption)
  }

  /** No two options share a value. */
  predicate DistinctValues(options: seq<SelectOption>)
  {
    forall i, j :: 0 <= i < j < |options| ==> options[i].value != options[j].value
  }

  /** With distinct, non-empty values, selecting an option shows exactly that option's
      label. */
  lemma SelectedLabelShown(options: seq<SelectOption>, placeholder: string, i: int)
    requires DistinctValues(options)
    requires 0 <= i < |options| && options[i].value != ""
    ensures DisplayLabel(options, placeholder, Some(options[i].value)) == Some(options[i].caption)
  {
    var found := FirstIndexOf(options, options[i].value);
    assert found.Some?;
    assert found.value == i;
  }

  /** The options of the action select. */
  const ActionOptions: seq<SelectOption> :=
    [SelectOption("buy", "Comprar"), SelectOption("rent", "Alugar"), SelectOption("sell", "Vender")]

  /** The options of the property-type select. */
  const PropertyTypeOptions: seq<SelectOption> :=
    [SelectOption("apartment", "Apartamento"), SelectOption("house", "Casa"),
     SelectOption("condo", "Condomínio"), SelectOption("townhouse", "Sobrado")]

  /** Both option lists have distinct, non-empty values, so each choice shows its own label. */
  lemma OptionListsWellFormed()
    ensures DistinctValues(ActionOptions) && DistinctValues(PropertyTypeOptions)
    ensures forall i :: 0 <= i < |ActionOptions| ==> ActionOptions[i].value != ""
    ensures forall i :: 0 <= i < |PropertyTypeOptions| ==> PropertyTypeOptions[i].value != ""
  {
  }

  /** The widget's own fixed list of known locations. */
  const Locations: seq<string> := [
    "Guarulhos, São Paulo",
    "São Paulo, São Paulo",
    "Campinas, São Paulo",
    "Rio de Janeiro, Rio de Janeiro",
    "Belo Horizonte, Minas Gerais",
    "Curitiba, Paraná",
    "Porto Alegre, Rio Grande do Sul",
    "Salvador, Bahia",
    "Fortaleza, Ceará",
    "Brasília, Distrito Federal",
    "Recife, Pernambuco",
    "Manaus, Amazonas",
    "Goiânia, Goiás",
    "Belém, Pará",
    "Joaçaba, Santa Catarina"
  ]

  /** The `CustomSelect` dropdown: whether its list is open and which value is selected. */
  class CustomSelect {
    const placeholder: string
    const options: seq<SelectOption>
    var isOpen: bool
    var selectedValue: Option<string>

    constructor (placeholder: string, options: seq<SelectOption>)
      ensures this.placeholder == placeholder && this.options == options
      ensures !isOpen && selectedValue == None
    {
      this.placeholder := placeholder;
      this.options := options;
      isOpen := false;
      selectedValue := None;
    }

    /** `handleToggle`: the trigger button flips the list open or closed. */
    method HandleToggle()
      modifies this
      ensures isOpen == !old(isOpen)
      ensures selectedValue == old(selectedValue)
    {
      isOpen := !isOpen;
    }

    /** `handleSelect`: the clicked value becomes the selection, the list closes, and the
        same value is reported to the owner. */
    method HandleSelect(value: string) returns (reported: string)
      modifies this
      ensures selectedValue == Some(value) && !isOpen
      ensures reported == value
    {
      selectedValue := Some(value);
      isOpen := false;
      reported := value;
    }

    /** The mousedown listener: a press outside the component closes the list. */
    method HandleClickOutside(outside: bool)
      modifies this
      ensures isOpen == (old(isOpen) && !outside)
      ensures selectedValue == old(selectedValue)
    {
      if outside {
        isOpen := false;
      }
    }

    /** The text on the trigger button. */
    function Shown(): (r: Option<string>)
      reads this
      ensures selectedValue.None? ==> r == Some(placeholder)
    {
      DisplayLabel(options, placeholder, selectedValue)
    }
  }

  /** The `FloatingSearch` component. `lastScrollY` and `mouseNearBottom` are the refs the
      listeners keep; `locations` is the fixed list above; `selectedAction` and `selectedPropertyType` are what the two selects
      last reported. */
  class FloatingSearch {
    const locations: seq<string>
    const actionSelect: CustomSelect
    const typeSelect: CustomSelect
    var isVisible: bool
    var lastScrollY: int
    var mouseNearBottom: bool
    var locationQuery: string
    var suggestions: seq<string>
    var showSuggestions: bool
    var selectedAction: Option<string>
    var selectedPropertyType: Option<string>

    /** While the pointer pins the widget, the widget is shown. The two selects are distinct objects with their own option lists; what the widget
        records as chosen is what each select has selected; the suggestion list only holds
        known locations, and while shown it is exactly the suggestions for the non-empty
        query in the input. */
    ghost predicate Valid()
      reads this, actionSelect, typeSelect
    {
      && (mouseNearBottom ==> isVisible)
      && actionSelect != typeSelect
      && actionSelect.options == ActionOptions
      && typeSelect.options == PropertyTypeOptions
      && selectedAction == actionSelect.selectedValue
      && selectedPropertyType == typeSelect.selectedValue
      && Subsequence(suggestions, locations)
      && (showSuggestions ==> locationQuery != "" && suggestions == Suggest(locations, locationQuery))
    }

    constructor ()
      ensures locations == Locations && |locations| == 15
      ensures isVisible && lastScrollY == 0 && !mouseNearBottom
      ensures locationQuery == "" && suggestions == [] && !showSuggestions
      ensures selectedAction == None && selectedPropertyType == None
      ensures !actionSelect.isOpen && !typeSelect.isOpen
      ensures actionSelect.placeholder == "Comprar" && typeSelect.placeholder == "Tipo"
      ensures fresh(actionSelect) && fresh(typeSelect)
      ensures Valid()
    {
      locations := Locations;
      actionSelect := new CustomSelect("Comprar", ActionOptions);
      typeSelect := new CustomSelect("Tipo", PropertyTypeOptions);
      isVisible, lastScrollY, mouseNearBottom := true, 0, false;
      locationQuery, suggestions, showSuggestions := "", [], false;
      selectedAction, selectedPropertyType := None, None;
    }

    /** `handleScroll`: ignored entirely while the pointer is near the bottom; otherwise
        the scroll rule decides visibility and the position is recorded. */
    method HandleScroll(scrollY: int)
      requires Valid()
      modifies this
      ensures Valid()
      ensures old(mouseNearBottom) ==> isVisible == old(isVisible) && lastScrollY == old(lastScrollY)
      ensures !old(mouseNearBottom) ==>
        isVisible == NextVisibility(scrollY, old(lastScrollY), old(isVisible)) && lastScrollY == scrollY
      ensures mouseNearBottom == old(mouseNearBottom)
      ensures locationQuery == old(locationQuery) && suggestions == old(suggestions)
      ensures showSuggestions == old(showSuggestions)
      ensures selectedAction == old(selectedAction) && selectedPropertyType == old(selectedPropertyType)
    {
      if mouseNearBottom {
        return;
      }
      if scrollY > lastScrollY && scrollY > ScrollThreshold {
        isVisible := false;
      } else if scrollY < lastScrollY || scrollY <= ScrollThreshold {
        isVisible := true;
      }
      lastScrollY := scrollY;
    }

    /** `handleMouseMove`: within 100 pixels of the viewport's bottom the widget is pinned
        and shown; elsewhere the pin is released and the widget hides when the page sits
        past the threshold and below the last recorded position. */
    method HandleMouseMove(clientY: int, innerHeight: int, scrollY: int)
      requires Valid()
      modifies this
      ensures Valid()
      ensures mouseNearBottom == (clientY > innerHeight - 100)
      ensures mouseNearBottom ==> isVisible
      ensures !mouseNearBottom ==> isVisible == AfterPointerLeaves(scrollY, old(lastScrollY), old(isVisible))
      ensures lastScrollY == old(lastScrollY)
      ensures locationQuery == old(locationQuery) && suggestions == old(suggestions)
      ensures showSuggestions == old(showSuggestions)
      ensures selectedAction == old(selectedAction) && selectedPropertyType == old(selectedPropertyType)
    {
      var threshold := 100;
      if clientY > innerHeight - threshold {
        mouseNearBottom := true;
        isVisible := true;
      } else {
        mouseNearBottom := false;
        if scrollY > 50 && scrollY > lastScrollY {
          isVisible := false;
        }
      }
    }

    /** `handleClickOutsideInput`: a mousedown outside the input container hides the
        suggestions and changes nothing else. */
    method HandleClickOutsideInput(outside: bool)
      requires Valid()
      modifies this
      ensures Valid()
      ensures showSuggestions == (old(showSuggestions) && !outside)
      ensures isVisible == old(isVisible) && lastScrollY == old(lastScrollY)
      ensures mouseNearBottom == old(mouseNearBottom)
      ensures locationQuery == old(locationQuery) && suggestions == old(suggestions)
      ensures selectedAction == old(selectedAction) && selectedPropertyType == old(selectedPropertyType)
    {
      if outside {
        showSuggestions := false;
      }
    }

    /** `handleLocationInputChange`: the input shows what was typed; a non-empty query shows
        the matching known locations, an empty one clears and hides them. */
    method HandleLocationInputChange(query: string)
      requires Valid()
      modifies this
      ensures Valid()
      ensures locationQuery == query
      ensures query != "" ==> suggestions == Suggest(locations, query) && showSuggestions
      ensures query == "" ==> suggestions == [] && !showSuggestions
      ensures isVisible == old(isVisible) && lastScrollY == old(lastScrollY)
      ensures mouseNearBottom == old(mouseNearBottom)
      ensures selectedAction == old(selectedAction) && selectedPropertyType == old(selectedPropertyType)
    {
      locationQuery := query;
      if |query| > 0 {
        suggestions := Suggest(locations, query);
        showSuggestions := true;
      } else {
        suggestions := [];
        showSuggestions := false;
      }
    }

    /** `handleSelectSuggestion`: the chosen suggestion fills the input and the list hides. */
    method HandleSelectSuggestion(suggestion: string)
      requires Valid()
      modifies this
      ensures Valid()
      ensures locationQuery == suggestion && !showSuggestions
      ensures suggestions == old(suggestions)
      ensures isVisible == old(isVisible) && lastScrollY == old(lastScrollY)
      ensures mouseNearBottom == old(mouseNearBottom)
      ensures selectedAction == old(selectedAction) && selectedPropertyType == old(selectedPropertyType)
    {
      locationQuery := suggestion;
      showSuggestions := false;
    }

    /** Picking an entry of the action select: the select records it and reports it, and
        the widget stores what was reported (`onValueChange={setSelectedAction}`). */
    method ChooseAction(value: string)
      requires Valid()
      modifies this, actionSelect
      ensures Valid()
      ensures selectedAction == Some(value) && !actionSelect.isOpen
      ensures selectedPropertyType == old(selectedPropertyType)
      ensures isVisible == old(isVisible) && lastScrollY == old(lastScrollY)
      ensures mouseNearBottom == old(mouseNearBottom)
      ensures locationQuery == old(locationQuery) && suggestions == old(suggestions)
      ensures showSuggestions == old(showSuggestions)
    {
      var reported := actionSelect.HandleSelect(value);
      selectedAction := Some(reported);
    }

    /** Picking an entry of the property-type select (`onValueChange={setSelectedPropertyType}`). */
    method ChoosePropertyType(value: string)
      requires Valid()
      modifies this, typeSelect
      ensures Valid()
      ensures selectedPropertyType == Some(value) && !typeSelect.isOpen
      ensures selectedAction == old(selectedAction)
      ensures isVisible == old(isVisible) && lastScrollY == old(lastScrollY)
      ensures mouseNearBottom == old(mouseNearBottom)
      ensures locationQuery == old(locationQuery) && suggestions == old(suggestions)
      ensures showSuggestions == old(showSuggestions)
    {
      var reported := typeSelect.HandleSelect(value);
      selectedPropertyType := Some(reported);
    }
  }

  /** After picking the `i`-th action, the action select's button shows that action's
      label. */
  lemma ChosenActionLabelShown(widget: FloatingSearch, i: int)
    requires widget.Valid()
    requires 0 <= i < |ActionOptions| && widget.selectedAction == Some(ActionOptions[i].value)
    ensures widget.actionSelect.Shown() == Some(ActionOptions[i].caption)
  {
    OptionListsWellFormed();
    SelectedLabelShown(ActionOptions, widget.actionSelect.placeholder, i);
  }

  /** After picking the `i`-th property type, the type select's button shows its label. */
  lemma ChosenTypeLabelShown(widget: FloatingSearch, i: int)
    requires widget.Valid()
    requires 0 <= i < |PropertyTypeOptions| && widget.selectedPropertyType == Some(PropertyTypeOptions[i].value)
    ensures widget.typeSelect.Shown() == Some(PropertyTypeOptions[i].caption)
  {
    OptionListsWellFormed();
    SelectedLabelShown(PropertyTypeOptions, widget.typeSelect.placeholder, i);
  }

  /** Every known location is among the suggestions for its own full name, so selecting a
      suggestion and typing it again offers it once more. */
  lemma {:induction false} LocationSuggestsItself(locations: seq<string>, i: int)
    requires 0 <= i < |locations|
    ensures locations[i] in Suggest(locations, locations[i])
  {
    var loc := locations[i];
    assert Text.Lower(loc) <= Text.Lower(loc);
    assert Text.MatchesIgnoringCase(loc, loc);
  }
}
