/** The tag picker screen that starts the chart wizard. */
module TagSelection {
  import opened Options
  import opened Seqs
  import opened TagLists

  /** The plant tags the screen offers. */
  const Tags: seq<string> := [
    "CA_PRESSURE", "VCM_TEMP", "EOEG_FLOW", "PTA_LEVEL", "AYPET_TEMP",
    "PA_PRESSURE", "PP_FLOW", "YYPE_TEMP", "BUEU_STATUS", "AGU_LEVEL",
    "ACN_PRESSURE", "AYPE_TEMP", "ETILEN_FLOW", "AROM_TEMP", "PVC_LEVEL",
    "YNSUART_PRESSURE", "ESUART_TEMP", "UNIT100_FLOW", "UNIT110_LEVEL",
    "UNIT150_PRESSURE", "UNIT190_TEMP"]

  /** The screen's state. */
  class Screen {
    var searchText: string
    var selectedTags: seq<string>

    /** No tag is selected twice. */
    ghost predicate Valid()
      reads this
    {
      Distinct(selectedTags)
    }

    constructor ()
      ensures Valid() && searchText == "" && selectedTags == []
    {
      searchText := "";
      selectedTags := [];
    }

    /** `handleTagPress`: a selected tag is removed, another one goes to the end. */
    method HandleTagPress(tag: string)
      requires Valid()
      modifies this`selectedTags
      ensures Valid()
      ensures selectedTags == ToggleAppend(old(selectedTags), tag)
      ensures tag in selectedTags <==> tag !in old(selectedTags)
    {
      ToggleAppendDistinct(selectedTags, tag);
      selectedTags := if tag in selectedTags then RemoveAll(selectedTags, tag) else selectedTags + [tag];
    }

    /** `filteredTags`: the offered tags that contain the search text, in their own order. */
    function FilteredTags(): (r: seq<string>)
      reads this
    {
      Search(Tags, searchText)
    }

    /**
     * The forward button: refused (with an alert) while nothing is selected;
     * otherwise the selected tags are handed to the chart type screen.
     */
    method Proceed() returns (selected: Option<seq<string>>)
      ensures selected.None? <==> selectedTags == []
      ensures selected.Some? ==> selected.value == selectedTags
    {
      if |selectedTags| == 0 {
        return None;
      }
      selected := Some(selectedTags);
    }
  }
}
