/** The chart settings form of the two-slot dashboards: tags, time range, frequency and sample type. */
module SettingsModal {
  import opened Options
  import opened Numbers
  import opened Seqs
  import opened Text
  import opened TagLists

  /** Milliseconds in a minute and in a day. */
  const MinuteMs: int := 60 * 1000
  const DayMs: int := 24 * 60 * MinuteMs

  /**
   * `finalDate = new Date(tempDate); setHours(time.getHours()); setMinutes(time.getMinutes())`,
   * with instants as local milliseconds: the day, seconds and milliseconds of
   * `date` with the hour and minute of `time`.
   */
  function WithClock(date: int, time: int): (r: int)
    ensures r / DayMs == date / DayMs
    ensures (r % DayMs) / MinuteMs == (time % DayMs) / MinuteMs
    ensures r % MinuteMs == date % MinuteMs
  {
    var day := date / DayMs;
    var clock := (time % DayMs) / MinuteMs;
    var rest := date % MinuteMs;
    var inDay := clock * MinuteMs + rest;
    DivModUnique(inDay, clock, rest, MinuteMs);
    DivModUnique(day * DayMs + inDay, day, inDay, DayMs);
    DivModUnique(day * DayMs + inDay, day * 1440 + clock, rest, MinuteMs);
    day * DayMs + inDay
  }

  datatype PickerMode = DateMode | TimeMode
  datatype Target = Start | End

  /** `showPicker`: which field is being picked, and whether the date or the time is asked for. */
  datatype Picker = Picker(mode: PickerMode, target: Option<Target>)

  datatype QuickRange = LastHour | LastDay

  /** `editData`, and also the payload of `onApply`; `None` is `null`. */
  datatype Settings = Settings(
    startTime: Option<int>, endTime: Option<int>, sampleType: Option<string>,
    freq: Option<int>, tags: seq<string>)

  /** What the save button reports to the parent, in order. */
  datatype Event = Applied(settings: Settings) | Closed

  /** `filteredTags`: the selected tags, then the other options that match the search. */
  function FilteredTags(selected: seq<string>, options: seq<string>, search: string): (r: seq<string>)
    ensures |selected| <= |r| && r[..|selected|] == selected
    ensures forall x :: x in r <==> x in selected || (x in options && Matches(x, search))
  {
    var rest := Filter(options, x => x !in selected && Matches(x, search));
    assert (selected + rest)[..|selected|] == selected;
    selected + rest
  }

  /** With duplicate-free selections and options, no tag is listed twice. */
  lemma FilteredTagsDistinct(selected: seq<string>, options: seq<string>, search: string)
    requires Distinct(selected) && Distinct(options)
    ensures Distinct(FilteredTags(selected, options, search))
  {
    var p := (x: string) => x !in selected && Matches(x, search);
    var rest := Filter(options, p);
    FilterDistinct(options, p);
    var r := selected + rest;
    assert r == FilteredTags(selected, options, search);
    forall i, j | 0 <= i < j < |r| ensures r[i] != r[j] {
      if j >= |selected| {
        assert r[j] == rest[j - |selected|];
        assert r[j] !in selected;
        if i < |selected| {
          assert r[i] == selected[i];
        } else {
          assert r[i] == rest[i - |selected|];
        }
      }
    }
  }

  /** The form's state. */
  class Form {
    var search: string
    var selectedTags: seq<string>
    var startTime: Option<int>
    var endTime: Option<int>
    var sampleType: Option<string>
    var freq: Option<int>
    var quickSelect: Option<QuickRange>
    var picker: Picker
    var tempDate: Option<int>

    /** The first render, filled from `editData` when there is one. */
    constructor (editData: Option<Settings>)
      ensures editData.None? ==> selectedTags == [] && startTime.None? && endTime.None? && sampleType.None? && freq.None?
      ensures editData.Some? ==>
                selectedTags == editData.value.tags && startTime == editData.value.startTime &&
                endTime == editData.value.endTime && sampleType == editData.value.sampleType && freq == editData.value.freq
      ensures search == "" && quickSelect.None? && picker == Picker(DateMode, None) && tempDate.None?
    {
      search := "";
      if editData.Some? {
        selectedTags := editData.value.tags;
        startTime := editData.value.startTime;
        endTime := editData.value.endTime;
        sampleType := editData.value.sampleType;
        freq := editData.value.freq;
      } else {
        selectedTags := [];
        startTime := None;
        endTime := None;
        sampleType := None;
        freq := None;
      }
      quickSelect := None;
      picker := Picker(DateMode, None);
      tempDate := None;
    }

    /** `toggleTag`: a selected tag is removed everywhere, another one goes to the front. */
    method ToggleTag(tag: string)
      modifies this`selectedTags
      ensures selectedTags == TogglePrepend(old(selectedTags), tag)
      ensures tag in selectedTags <==> tag !in old(selectedTags)
    {
      if tag in selectedTags {
        selectedTags := RemoveAll(selectedTags, tag);
      } else {
        selectedTags := [tag] + selectedTags;
      }
    }

    /** The start or end button: ask for a date first. */
    method OpenPicker(target: Target)
      modifies this`picker
      ensures picker == Picker(DateMode, Some(target))
    {
      picker := Picker(DateMode, Some(target));
    }

    /** `handleDateChange`: a picked date is kept and the time is asked for; a cancel closes the picker. */
    method HandleDateChange(date: Option<int>)
      modifies this`tempDate, this`picker
      ensures date.Some? ==> tempDate == date && picker == old(picker).(mode := TimeMode)
      ensures date.None? ==> tempDate == old(tempDate) && picker == Picker(DateMode, None)
    {
      if date.Some? {
        tempDate := date;
        picker := picker.(mode := TimeMode);
      } else {
        picker := Picker(DateMode, None);
      }
    }

    /**
     * `handleTimeChange`: a picked time completes the kept date and writes the
     * targeted field only; the picker is reset either way.
     */
    method HandleTimeChange(time: Option<int>)
      modifies this`startTime, this`endTime, this`picker, this`tempDate
      ensures picker == Picker(DateMode, None) && tempDate.None?
      ensures time.Some? && old(tempDate).Some? && old(picker).target == Some(Start) ==>
                startTime == Some(WithClock(old(tempDate).value, time.value)) && endTime == old(endTime)
      ensures time.Some? && old(tempDate).Some? && old(picker).target == Some(End) ==>
                endTime == Some(WithClock(old(tempDate).value, time.value)) && startTime == old(startTime)
      ensures time.None? || old(tempDate).None? || old(picker).target.None? ==>
                startTime == old(startTime) && endTime == old(endTime)
    {
      if time.Some? && tempDate.Some? {
        var finalDate := WithClock(tempDate.value, time.value);
        if picker.target == Some(Start) {
          startTime := Some(finalDate);
        } else if picker.target == Some(End) {
          endTime := Some(finalDate);
        }
      }
      picker := Picker(DateMode, None);
      tempDate := None;
    }

    /** The `1h` and `24h` buttons: the range ends now and starts one hour or one day earlier. */
    method QuickSelect(range: QuickRange, now: int)
      modifies this`startTime, this`endTime, this`quickSelect
      ensures endTime == Some(now) && quickSelect == Some(range)
      ensures startTime == Some(now - (if range == LastHour then 60 else 24 * 60) * MinuteMs)
    {
      endTime := Some(now);
      startTime := Some(now - (if range == LastHour then 60 * 60 * 1000 else 24 * 60 * 60 * 1000));
      quickSelect := Some(range);
    }

    /** `apply`: the form's values are reported, then the modal asks to close. */
    method Apply() returns (events: seq<Event>)
      ensures |events| == 2 && events[1] == Closed && events[0].Applied?
      ensures events[0].settings.tags == selectedTags && events[0].settings.freq == freq
      ensures events[0].settings.sampleType == sampleType
      ensures events[0].settings.startTime == startTime && events[0].settings.endTime == endTime
    {
      events := [Applied(Settings(startTime, endTime, sampleType, freq, selectedTags)), Closed];
    }
  }
}
