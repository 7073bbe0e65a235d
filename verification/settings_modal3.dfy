/** The chart settings form of the grid dashboard: a searchable tag list, a time range, frequency and sample type. */
module SettingsModal3 {
  import opened Options
  import opened Seqs
  import opened Text
  import opened TagLists

  const HourMs: int := 60 * 60 * 1000
  const FreqOptions: seq<int> := [300, 600, 900, 1800, 3600]
  const SampleTypes: seq<string> := ["raw", "avg", "min", "max", "sum"]
  /** How many matching options the list shows. */
  const ShownOptions: nat := 50

  /** A tag offered by the form. */
  datatype TagOption = TagOption(caption: string, value: string)

  /**
   * `editData`. Instants are milliseconds; a missing or empty time is `None`,
   * as are a `null` frequency or sample type.
   */
  datatype EditData = EditData(
    tags: seq<string>, startTime: Option<int>, endTime: Option<int>,
    freq: Option<int>, sampleType: Option<string>)

  /** The `ChartConfig` handed to `onSave`; the times are the local-time instants `toISOLocal` writes out. */
  datatype Payload = Payload(tags: seq<string>, startTime: int, endTime: int, freq: int, sampleType: string)

  /** Why `handleSave` refused, in the order it checks. */
  datatype SaveError = NoTags | NoSampleType | EndNotAfterStart

  datatype SaveResult = Saved(payload: Payload) | Refused(error: SaveError)

  /** `toISOLocal`: the instant moved by the time-zone offset, so that its UTC fields read as local time. */
  function ToLocal(t: int, tzOffsetMinutes: int): (r: int)
    ensures r + tzOffsetMinutes * 60000 == t
  {
    t - tzOffsetMinutes * 60000
  }

  /** `filteredOptions`: the options whose label (`caption`) or value contains the search text, case-insensitively. */
  function FilteredOptions(options: seq<TagOption>, search: string): (r: seq<TagOption>)
    ensures |r| <= |options|
    ensures forall o :: o in r <==> o in options && (Matches(o.caption, search) || Matches(o.value, search))
  {
    Filter(options, (o: TagOption) => Matches(o.caption, search) || Matches(o.value, search))
  }

  /** The options drawn: the first 50 matches. */
  function ShownOptionsOf(options: seq<TagOption>, search: string): (r: seq<TagOption>)
    ensures |r| <= ShownOptions
    ensures |r| <= |FilteredOptions(options, search)| && r == FilteredOptions(options, search)[..|r|]
    ensures |FilteredOptions(options, search)| <= ShownOptions ==> r == FilteredOptions(options, search)
  {
    var all := FilteredOptions(options, search);
    if |all| <= ShownOptions then all else all[..ShownOptions]
  }

  /** The form's state. */
  class Form {
    var search: string
    var selectedTags: seq<string>
    var startDate: int
    var endDate: int
    var freq: int
    var sampleType: string

    /** The first render at time `now`: no tags, a one-hour range, 300 seconds, `raw`. */
    constructor (now: int)
      ensures search == "" && selectedTags == [] && startDate == now && endDate == now + HourMs
      ensures freq == FreqOptions[0] && sampleType == SampleTypes[0]
    {
      search := "";
      selectedTags := [];
      startDate := now;
      endDate := now + 60 * 60 * 1000;
      freq := FreqOptions[0];
      sampleType := SampleTypes[0];
    }

    /**
     * The effect run when the modal is shown or `editData` changes: fill the form
     * from `editData` (with `now`, 300 and `raw` for what it lacks), or reset it
     * to a one-hour range starting `now` when there is none.
     */
    method Reset(visible: bool, editData: Option<EditData>, now: int)
      modifies this`selectedTags, this`startDate, this`endDate, this`freq, this`sampleType
      ensures !visible ==>
                selectedTags == old(selectedTags) && startDate == old(startDate) && endDate == old(endDate) &&
                freq == old(freq) && sampleType == old(sampleType)
      ensures visible && editData.None? ==>
                selectedTags == [] && startDate == now && endDate == now + HourMs &&
                freq == 300 && sampleType == "raw"
      ensures visible && editData.Some? ==>
                selectedTags == editData.value.tags &&
                startDate == editData.value.startTime.GetOr(now) && endDate == editData.value.endTime.GetOr(now) &&
                freq == editData.value.freq.GetOr(300) && sampleType == editData.value.sampleType.GetOr("raw")
    {
      if visible && editData.Some? {
        var e := editData.value;
        selectedTags := e.tags;
        startDate := if e.startTime.Some? then e.startTime.value else now;
        endDate := if e.endTime.Some? then e.endTime.value else now;
        freq := if e.freq.Some? then e.freq.value else FreqOptions[0];
        sampleType := if e.sampleType.Some? then e.sampleType.value else SampleTypes[0];
      }
      if visible && editData.None? {
        selectedTags := [];
        startDate := now;
        endDate := now + 60 * 60 * 1000;
        freq := FreqOptions[0];
        sampleType := SampleTypes[0];
      }
    }

    /** `toggleTag`: a selected tag is removed everywhere, another one goes to the end. */
    method ToggleTag(val: string)
      modifies this`selectedTags
      ensures selectedTags == ToggleAppend(old(selectedTags), val)
      ensures val in selectedTags <==> val !in old(selectedTags)
    {
      selectedTags := if val in selectedTags then RemoveAll(selectedTags, val) else selectedTags + [val];
    }

    /** `removeTag`: every occurrence goes; an unselected tag changes nothing. */
    method RemoveTag(val: string)
      modifies this`selectedTags
      ensures val !in selectedTags
      ensures forall x :: x != val ==> (x in selectedTags <==> x in old(selectedTags))
      ensures val !in old(selectedTags) ==> selectedTags == old(selectedTags)
    {
      RemoveAbsentIsNoOp(selectedTags, val);
      selectedTags := RemoveAll(selectedTags, val);
    }

    /**
     * `handleSave`: refused without tags, without a sample type, or when the end
     * is not after the start; otherwise the form's values, times in local time.
     */
    method HandleSave(tzOffsetMinutes: int) returns (r: SaveResult)
      ensures r.Refused? <==> selectedTags == [] || sampleType == "" || endDate <= startDate
      ensures r.Refused? ==> r.error == (if selectedTags == [] then NoTags else if sampleType == "" then NoSampleType else EndNotAfterStart)
      ensures r.Saved? ==> r.payload.tags == selectedTags && r.payload.freq == freq && r.payload.sampleType == sampleType
      ensures r.Saved? ==> r.payload.startTime < r.payload.endTime && r.payload.endTime - r.payload.startTime == endDate - startDate
    {
      if |selectedTags| == 0 {
        return Refused(NoTags);
      }
      if sampleType == "" {
        return Refused(NoSampleType);
      }
      if endDate <= startDate {
        return Refused(EndNotAfterStart);
      }
      r := Saved(Payload(selectedTags, ToLocal(startDate, tzOffsetMinutes), ToLocal(endDate, tzOffsetMinutes), freq, sampleType));
    }
  }

  /** Removing a tag that is not selected leaves the list as it was. */
  lemma RemoveAbsentIsNoOp(s: seq<string>, val: string)
    ensures val !in s ==> RemoveAll(s, val) == s
  {
    if val !in s {
      RemoveAbsent(s, val);
    }
  }
}
