/**
 * `SelectCalendarListPreference`: a list preference that lets the user tick
 * several calendars. The ticks live in a boolean array over the entry values;
 * closing the dialog with OK stores the ticked values joined by `|`, and opening
 * it again parses that string back into the array. The calendars offered come
 * from the calendar provider as `id|name` descriptors joined by `,`.
 */
module CalendarListPreference {
  import opened JavaText

  /** A row of the provider's calendar table: `_id`, `displayName`, `selected`. */
  datatype CalendarRow = CalendarRow(id: string, displayName: string, selected: string)

  /** Entry values (calendar ids) and entries (display names), in list order. */
  datatype CalendarEntries = CalendarEntries(values: seq<string>, names: seq<string>)

  /** How `onPrepareDialogBuilder` ends. */
  datatype PrepareOutcome =
    | NoCalendars   // no calendar qualifies: an error toast, nothing else
    | ParseFailed   // a descriptor without a name: ArrayIndexOutOfBoundsException
    | DialogReady   // entries set and ticks restored

  // ---------------------------------------------------------------------------
  // The stored value and the ticks
  // ---------------------------------------------------------------------------

  /** `parseStoredValue`: null and "" give null; any other value is split on `|`. */
  function ParseStoredValue(value: Option<string>): (r: Option<seq<string>>)
    ensures r.None? <==> value.None? || value.value == ""
  {
    if value.None? then None
    else if value.value == "" then None
    else Some(Split(value.value, '|'))
  }

  /** The index at which the inner loop of `restoreCheckedEntries` stops for `t`. */
  function FirstIndex(values: seq<string>, t: string): (r: Option<nat>)
    ensures r.Some? ==> r.value < |values| && values[r.value] == t
    ensures r.Some? ==> forall k :: 0 <= k < r.value ==> values[k] != t
    ensures r.None? <==> t !in values
  {
    if |values| == 0 then None
    else if values[0] == t then Some(0)
    else match FirstIndex(values[1..], t)
      case None => None
      case Some(k) => Some(k + 1)
  }

  lemma FirstIndexAt(values: seq<string>, t: string, i: nat)
    requires i < |values| && values[i] == t
    requires forall k :: 0 <= k < i ==> values[k] != t
    ensures FirstIndex(values, t) == Some(i)
  {
    var r := FirstIndex(values, t);
    assert r.Some?;
    assert !(r.value < i);
    assert !(r.value > i);
  }

  /** One pass of the outer loop: tick the first entry equal to `t`, if any. */
  function MarkToken(values: seq<string>, t: string, ticks: seq<bool>): seq<bool>
    requires |values| <= |ticks|
  {
    match FirstIndex(values, t)
    case None => ticks
    case Some(i) => ticks[i := true]
  }

  /** The outer loop of `restoreCheckedEntries` over the stored tokens, trimmed. */
  function MarkTokens(values: seq<string>, tokens: seq<string>, ticks: seq<bool>): (r: seq<bool>)
    requires |values| <= |ticks|
    ensures |r| == |ticks|
  {
    if |tokens| == 0 then ticks
    else MarkToken(values, Trim(tokens[|tokens| - 1]), MarkTokens(values, tokens[..|tokens| - 1], ticks))
  }

  lemma MarkTokensSnoc(values: seq<string>, tokens: seq<string>, j: nat, ticks: seq<bool>)
    requires |values| <= |ticks| && j < |tokens|
    ensures MarkTokens(values, tokens[..j + 1], ticks) == MarkToken(values, Trim(tokens[j]), MarkTokens(values, tokens[..j], ticks))
  {
    assert tokens[..j + 1][..j] == tokens[..j];
  }

  /** Entry `i` is the first entry equal to some trimmed token. */
  ghost predicate Mentioned(values: seq<string>, tokens: seq<string>, i: nat)
  {
    exists j :: 0 <= j < |tokens| && Picks(values, tokens[j], i)
  }

  /** The trimmed token `t` ticks entry `i`. */
  predicate Picks(values: seq<string>, t: string, i: nat)
  {
    FirstIndex(values, Trim(t)) == Some(i)
  }

  /** The ticks that `restoreCheckedEntries` leaves for a stored value. */
  function RestoredSelection(values: seq<string>, stored: Option<string>, ticks: seq<bool>): seq<bool>
    requires |values| <= |ticks|
  {
    match ParseStoredValue(stored)
    case None => seq(|ticks|, _ => true)
    case Some(tokens) => MarkTokens(values, tokens, ticks)
  }

  /** One token ticks its first matching entry and nothing else. */
  lemma MarkTokenAt(values: seq<string>, t: string, ticks: seq<bool>, i: nat)
    requires |values| <= |ticks| && i < |ticks|
    ensures MarkToken(values, t, ticks)[i] <==> ticks[i] || FirstIndex(values, t) == Some(i)
  {
  }

  lemma MentionedSnoc(values: seq<string>, tokens: seq<string>, i: nat)
    requires |tokens| > 0
    ensures Mentioned(values, tokens, i) <==>
      Mentioned(values, tokens[..|tokens| - 1], i) || Picks(values, tokens[|tokens| - 1], i)
  {
    var init := tokens[..|tokens| - 1];
    if Mentioned(values, init, i) {
      var j :| 0 <= j < |init| && Picks(values, init[j], i);
      assert tokens[j] == init[j];
      assert Picks(values, tokens[j], i);
    }
    if Picks(values, tokens[|tokens| - 1], i) {
      var j := |tokens| - 1;
      assert Picks(values, tokens[j], i);
    }
    if Mentioned(values, tokens, i) {
      MentionedSplit(values, tokens, i);
    }
  }

  lemma MentionedSplit(values: seq<string>, tokens: seq<string>, i: nat)
    requires |tokens| > 0 && Mentioned(values, tokens, i)
    ensures Mentioned(values, tokens[..|tokens| - 1], i) || Picks(values, tokens[|tokens| - 1], i)
  {
    var init := tokens[..|tokens| - 1];
    var j :| 0 <= j < |tokens| && Picks(values, tokens[j], i);
    if j < |init| {
      assert init[j] == tokens[j];
      assert Picks(values, init[j], i);
    }
  }

  /**
   * With a stored value, an entry ends up ticked exactly when it was ticked
   * before or some trimmed token picks it; every other entry is left alone.
   */
  lemma {:induction false} MarkTokensAt(values: seq<string>, tokens: seq<string>, ticks: seq<bool>, i: nat)
    requires |values| <= |ticks| && i < |ticks|
    ensures MarkTokens(values, tokens, ticks)[i] <==> ticks[i] || Mentioned(values, tokens, i)
  {
    if |tokens| > 0 {
      var init := tokens[..|tokens| - 1];
      var last := Trim(tokens[|tokens| - 1]);
      var prev := MarkTokens(values, init, ticks);
      assert MarkTokens(values, tokens, ticks) == MarkToken(values, last, prev);
      MarkTokensAt(values, init, ticks, i);
      MarkTokenAt(values, last, prev, i);
      MentionedSnoc(values, tokens, i);
    }
  }

  /** The restore branch taken when nothing is stored: every entry ticked. */
  lemma NothingStoredTicksAll(values: seq<string>, stored: Option<string>, ticks: seq<bool>)
    requires |values| <= |ticks|
    requires stored.None? || stored.value == ""
    ensures RestoredSelection(values, stored, ticks) == seq(|ticks|, _ => true)
  {
  }

  /** Entry values that survive being stored: non-empty, `|`-free, trimmed and distinct. */
  predicate StorableValues(values: seq<string>)
  {
    && (forall i :: 0 <= i < |values| ==> values[i] != "" && '|' !in values[i] && IsTrimmed(values[i]))
    && (forall i, j :: 0 <= i < j < |values| ==> values[i] != values[j])
  }

  /** The ticked entry values in entry order. */
  function Selected(values: seq<string>, ticks: seq<bool>): seq<string>
    requires |values| <= |ticks|
  {
    if |values| == 0 then []
    else Selected(values[..|values| - 1], ticks) + (if ticks[|values| - 1] then [values[|values| - 1]] else [])
  }

  /** The string `onDialogClosed` builds: each ticked value, `|` between two. */
  function EncodedSelection(values: seq<string>, ticks: seq<bool>): string
    requires |values| <= |ticks|
  {
    JoinSeparated(Selected(values, ticks), '|')
  }

  lemma {:induction false} SelectedMembers(values: seq<string>, ticks: seq<bool>, x: string)
    requires |values| <= |ticks|
    ensures x in Selected(values, ticks) <==> exists i :: 0 <= i < |values| && ticks[i] && values[i] == x
  {
    if |values| > 0 {
      var n := |values| - 1;
      var init := values[..n];
      SelectedMembers(init, ticks, x);
      if exists i :: 0 <= i < |init| && ticks[i] && init[i] == x {
        var i :| 0 <= i < |init| && ticks[i] && init[i] == x;
        assert values[i] == x;
      }
      if exists i :: 0 <= i < |values| && ticks[i] && values[i] == x {
        var i :| 0 <= i < |values| && ticks[i] && values[i] == x;
        if i < n {
          assert init[i] == x;
        }
      }
    }
  }

  /**
   * The encoded selection is the ticked values joined by `|` in entry order,
   * with no leading or trailing separator, and it is empty exactly when
   * nothing is ticked.
   */
  lemma EncodedSelectionIsJoin(values: seq<string>, ticks: seq<bool>)
    requires |values| <= |ticks|
    requires forall i :: 0 <= i < |values| ==> values[i] != ""
    ensures EncodedSelection(values, ticks) == Join(Selected(values, ticks), '|')
    ensures EncodedSelection(values, ticks) == "" <==> forall i :: 0 <= i < |values| ==> !ticks[i]
  {
    var sel := Selected(values, ticks);
    forall k | 0 <= k < |sel|
      ensures sel[k] != ""
    {
      SelectedMembers(values, ticks, sel[k]);
    }
    JoinSeparatedIsJoin(sel, '|');
    if |sel| > 0 {
      JoinNonEmpty(sel, '|');
      SelectedMembers(values, ticks, sel[0]);
    } else {
      forall i | 0 <= i < |values|
        ensures !ticks[i]
      {
        SelectedMembers(values, ticks, values[i]);
      }
    }
  }

  /** With distinct entry values and trimmed tokens, a token picks entry `i` exactly when it equals it. */
  lemma MentionedDistinct(values: seq<string>, tokens: seq<string>, i: nat)
    requires i < |values|
    requires forall a, b :: 0 <= a < b < |values| ==> values[a] != values[b]
    requires forall k :: 0 <= k < |tokens| ==> IsTrimmed(tokens[k])
    ensures Mentioned(values, tokens, i) <==> values[i] in tokens
  {
    if Mentioned(values, tokens, i) {
      var j :| 0 <= j < |tokens| && Picks(values, tokens[j], i);
      assert Trim(tokens[j]) == tokens[j];
      assert values[i] == tokens[j];
    }
    if values[i] in tokens {
      var j :| 0 <= j < |tokens| && tokens[j] == values[i];
      assert Trim(tokens[j]) == tokens[j];
      FirstIndexAt(values, values[i], i);
      assert Picks(values, tokens[j], i);
    }
  }

  /**
   * Round trip: storing a selection that ticks at least one entry and opening
   * the dialog again (which starts from a fresh all-false array) restores
   * exactly that selection.
   */
  lemma SelectionRoundTrip(values: seq<string>, ticks: seq<bool>)
    requires |values| == |ticks|
    requires StorableValues(values)
    requires exists i :: 0 <= i < |ticks| && ticks[i]
    ensures RestoredSelection(values, Some(EncodedSelection(values, ticks)), seq(|values|, _ => false)) == ticks
  {
    SelectionParses(values, ticks);
    SelectionMarks(values, ticks);
  }

  /** A non-empty stored selection parses back into the selected values. */
  lemma SelectionParses(values: seq<string>, ticks: seq<bool>)
    requires |values| == |ticks|
    requires StorableValues(values)
    requires exists i :: 0 <= i < |ticks| && ticks[i]
    ensures ParseStoredValue(Some(EncodedSelection(values, ticks))) == Some(Selected(values, ticks))
  {
    var sel := Selected(values, ticks);
    forall k | 0 <= k < |sel|
      ensures sel[k] != "" && '|' !in sel[k] && IsTrimmed(sel[k])
    {
      SelectedMembers(values, ticks, sel[k]);
    }
    EncodedSelectionIsJoin(values, ticks);
    assert EncodedSelection(values, ticks) == Join(sel, '|') != "";
    SplitJoin(sel, '|');
  }

  /** Marking the selected values on an all-false array gives back the ticks. */
  lemma SelectionMarks(values: seq<string>, ticks: seq<bool>)
    requires |values| == |ticks|
    requires StorableValues(values)
    ensures MarkTokens(values, Selected(values, ticks), seq(|values|, _ => false)) == ticks
  {
    var sel := Selected(values, ticks);
    forall k | 0 <= k < |sel|
      ensures IsTrimmed(sel[k])
    {
      SelectedMembers(values, ticks, sel[k]);
    }
    var falses := seq(|values|, _ => false);
    var restored := MarkTokens(values, sel, falses);
    forall i | 0 <= i < |values|
      ensures restored[i] == ticks[i]
    {
      MarkTokensAt(values, sel, falses, i);
      MentionedDistinct(values, sel, i);
      SelectedMembers(values, ticks, values[i]);
    }
    assert restored == ticks;
  }

  /** The other half of the round trip: an empty selection is stored as "" and restores as all ticked. */
  lemma EmptySelectionRestoresAll(values: seq<string>, ticks: seq<bool>)
    requires |values| == |ticks|
    requires forall i :: 0 <= i < |ticks| ==> !ticks[i]
    ensures EncodedSelection(values, ticks) == ""
    ensures RestoredSelection(values, Some(EncodedSelection(values, ticks)), ticks) == seq(|ticks|, _ => true)
  {
    if Selected(values, ticks) != [] {
      SelectedMembers(values, ticks, Selected(values, ticks)[0]);
    }
  }

  // ---------------------------------------------------------------------------
  // The calendar list
  // ---------------------------------------------------------------------------

  /** A calendar is offered unless its `selected` column is "0". */
  predicate Offered(row: CalendarRow)
  {
    row.selected != "0"
  }

  function Descriptor(row: CalendarRow): string
  {
    row.id + "|" + row.displayName
  }

  /** The `id|name` descriptors of the offered calendars, in cursor order. */
  function Descriptors(rows: seq<CalendarRow>): (r: seq<string>)
    ensures |r| <= |rows|
    ensures forall k :: 0 <= k < |r| ==> '|' in r[k]
  {
    if |rows| == 0 then []
    else
      var last := rows[|rows| - 1];
      assert Descriptor(last)[|last.id|] == '|';
      Descriptors(rows[..|rows| - 1]) + (if Offered(last) then [Descriptor(last)] else [])
  }

  /** Each descriptor is that of an offered calendar. */
  lemma {:induction false} DescribedRowsOffered(rows: seq<CalendarRow>, k: nat)
    requires k < |Descriptors(rows)|
    ensures exists j :: 0 <= j < |rows| && Offered(rows[j]) && Descriptors(rows)[k] == Descriptor(rows[j])
  {
    var init := rows[..|rows| - 1];
    if k < |Descriptors(init)| {
      DescribedRowsOffered(init, k);
      var j :| 0 <= j < |init| && Offered(init[j]) && Descriptors(init)[k] == Descriptor(init[j]);
      assert init[j] == rows[j];
    } else {
      assert Descriptors(rows)[k] == Descriptor(rows[|rows| - 1]);
    }
  }

  lemma {:induction false} DescriptorsEmpty(rows: seq<CalendarRow>)
    ensures Descriptors(rows) == [] <==> forall k :: 0 <= k < |rows| ==> !Offered(rows[k])
  {
    if |rows| > 0 {
      var init := rows[..|rows| - 1];
      DescriptorsEmpty(init);
      if forall k :: 0 <= k < |rows| ==> !Offered(rows[k]) {
        assert forall k :: 0 <= k < |init| ==> init[k] == rows[k];
      }
    }
  }

  /** `getAvailableCalendars`: the descriptors joined by `,`, or null when there are none. */
  function CalendarsInfo(rows: seq<CalendarRow>): (r: Option<string>)
    ensures r.None? <==> forall k :: 0 <= k < |rows| ==> !Offered(rows[k])
  {
    var d := Descriptors(rows);
    var s := JoinSeparated(d, ',');
    DescriptorsEmpty(rows);
    JoinSeparatedEmpty(d, ',');
    if s == "" then None else Some(s)
  }

  lemma JoinSeparatedEmpty(items: seq<string>, sep: char)
    requires forall k :: 0 <= k < |items| ==> items[k] != ""
    ensures JoinSeparated(items, sep) == "" <==> items == []
  {
    JoinSeparatedIsJoin(items, sep);
    if |items| > 0 {
      JoinNonEmpty(items, sep);
    }
  }

  /** The parsing loop of `onPrepareDialogBuilder` over the `,`-separated parts. */
  function ParseParts(parts: seq<string>): (r: Option<CalendarEntries>)
    ensures r.Some? ==> |r.value.values| == |r.value.names| == |parts|
  {
    if |parts| == 0 then Some(CalendarEntries([], []))
    else match ParseParts(parts[..|parts| - 1])
      case None => None
      case Some(acc) =>
        var info := Split(parts[|parts| - 1], '|');
        if |info| < 2 then None
        else Some(CalendarEntries(acc.values + [info[0]], acc.names + [info[1]]))
  }

  function ParseCalendarList(info: string): Option<CalendarEntries>
  {
    ParseParts(Split(info, ','))
  }

  /** The ids and the names of the offered calendars, in cursor order. */
  function OfferedEntries(rows: seq<CalendarRow>): CalendarEntries
  {
    if |rows| == 0 then CalendarEntries([], [])
    else
      var acc := OfferedEntries(rows[..|rows| - 1]);
      var last := rows[|rows| - 1];
      if Offered(last) then CalendarEntries(acc.values + [last.id], acc.names + [last.displayName])
      else acc
  }

  /** Every offered calendar has its descriptor in the list. */
  lemma {:induction false} OfferedRowsDescribed(rows: seq<CalendarRow>, j: nat)
    requires j < |rows| && Offered(rows[j])
    ensures Descriptor(rows[j]) in Descriptors(rows)
  {
    var init := rows[..|rows| - 1];
    if j < |init| {
      OfferedRowsDescribed(init, j);
      assert init[j] == rows[j];
    }
  }

  /** The k-th descriptor is the id and the name of the k-th offered calendar: cursor order is kept. */
  lemma {:induction false} DescriptorsInOrder(rows: seq<CalendarRow>)
    ensures |Descriptors(rows)| == |OfferedEntries(rows).values| == |OfferedEntries(rows).names|
    ensures forall k :: 0 <= k < |Descriptors(rows)| ==>
              Descriptors(rows)[k] == OfferedEntries(rows).values[k] + "|" + OfferedEntries(rows).names[k]
  {
    if |rows| > 0 {
      DescriptorsInOrder(rows[..|rows| - 1]);
    }
  }

  /** Calendar ids and names that survive the descriptor format. */
  predicate DescribableRows(rows: seq<CalendarRow>)
  {
    forall k :: 0 <= k < |rows| ==>
      && ',' !in rows[k].id && '|' !in rows[k].id
      && ',' !in rows[k].displayName && '|' !in rows[k].displayName
      && rows[k].displayName != ""
  }

  lemma {:induction false} ParseDescriptors(rows: seq<CalendarRow>)
    requires DescribableRows(rows)
    ensures ParseParts(Descriptors(rows)) == Some(OfferedEntries(rows))
  {
    if |rows| > 0 {
      var init := rows[..|rows| - 1];
      var last := rows[|rows| - 1];
      assert DescribableRows(init) by {
        assert forall k :: 0 <= k < |init| ==> init[k] == rows[k];
      }
      ParseDescriptors(init);
      if Offered(last) {
        var d := Descriptors(rows);
        assert d == Descriptors(init) + [Descriptor(last)];
        assert d[..|d| - 1] == Descriptors(init);
        assert Join([last.id, last.displayName], '|') == Descriptor(last);
        SplitJoin([last.id, last.displayName], '|');
        assert Split(d[|d| - 1], '|') == [last.id, last.displayName];
      } else {
        assert Descriptors(rows) == Descriptors(init);
      }
    }
  }

  /**
   * The calendar list parses back into parallel value and name lists, in
   * cursor order, holding exactly the offered calendars.
   */
  lemma CalendarListRoundTrip(rows: seq<CalendarRow>)
    requires DescribableRows(rows)
    ensures CalendarsInfo(rows).Some? ==> ParseCalendarList(CalendarsInfo(rows).value) == Some(OfferedEntries(rows))
  {
    var d := Descriptors(rows);
    if CalendarsInfo(rows).Some? {
      JoinSeparatedIsJoin(d, ',');
      forall k | 0 <= k < |d|
        ensures ',' !in d[k]
      {
        DescriptorsCommaFree(rows, k);
      }
      DescriptorsEmpty(rows);
      SplitJoin(d, ',');
      ParseDescriptors(rows);
    }
  }

  lemma {:induction false} DescriptorsCommaFree(rows: seq<CalendarRow>, k: nat)
    requires DescribableRows(rows)
    requires k < |Descriptors(rows)|
    ensures ',' !in Descriptors(rows)[k] && Descriptors(rows)[k] != ""
  {
    var init := rows[..|rows| - 1];
    var last := rows[|rows| - 1];
    assert DescribableRows(init) by {
      assert forall j :: 0 <= j < |init| ==> init[j] == rows[j];
    }
    if k < |Descriptors(init)| {
      DescriptorsCommaFree(init, k);
    } else {
      assert Descriptors(rows)[k] == Descriptor(last);
    }
  }

  // ---------------------------------------------------------------------------
  // The preference object
  // ---------------------------------------------------------------------------

  class SelectCalendarListPreference {
    var entries: Option<seq<string>>
    var entryValues: Option<seq<string>>
    /** `_clickedDialogEntryIndices`; before any entries are set it is empty. */
    var clicked: array<bool>
    /** The stored preference value, `getValue()`; `None` is null. */
    var value: Option<string>

    constructor (stored: Option<string>)
      ensures entries.None? && entryValues.None?
      ensures clicked.Length == 0 && value == stored
    {
      entries := None;
      entryValues := None;
      clicked := new bool[0];
      value := stored;
    }

    /** `setEntries`: a fresh all-false tick array as long as the entries. */
    method SetEntries(newEntries: seq<string>)
      modifies this
      ensures entries == Some(newEntries)
      ensures fresh(clicked) && clicked[..] == seq(|newEntries|, _ => false)
      ensures entryValues == old(entryValues) && value == old(value)
    {
      entries := Some(newEntries);
      clicked := new bool[|newEntries|](_ => false);
    }

    /** `setEntryValues`: a fresh all-false tick array as long as the values. */
    method SetEntryValues(newValues: seq<string>)
      modifies this
      ensures entryValues == Some(newValues)
      ensures fresh(clicked) && clicked[..] == seq(|newValues|, _ => false)
      ensures entries == old(entries) && value == old(value)
    {
      entryValues := Some(newValues);
      clicked := new bool[|newValues|](_ => false);
    }

    function Values(): seq<string>
      reads this
    {
      if entryValues.Some? then entryValues.value else []
    }

    /**
     * `restoreCheckedEntries`. With a stored value every trimmed token ticks
     * the first entry equal to it; without one every entry is ticked.
     */
    method RestoreCheckedEntries()
      requires ParseStoredValue(value).Some? ==> entryValues.Some? && |entryValues.value| <= clicked.Length
      modifies clicked
      ensures |Values()| <= clicked.Length || ParseStoredValue(value).None?
      ensures clicked[..] == RestoredSelection(if ParseStoredValue(value).Some? then Values() else [], value, old(clicked[..]))
    {
      var preferenceValues := ParseStoredValue(value);
      if preferenceValues.Some? {
        var vs := entryValues.value;
        var ts := preferenceValues.value;
        var j := 0;
        while j < |ts|
          invariant 0 <= j <= |ts|
          invariant clicked[..] == MarkTokens(vs, ts[..j], old(clicked[..]))
        {
          MarkTokensSnoc(vs, ts, j, old(clicked[..]));
          TickFirstMatch(vs, Trim(ts[j]));
          j := j + 1;
        }
        assert ts[..|ts|] == ts;
      } else {
        var i := 0;
        while i < clicked.Length
          invariant 0 <= i <= clicked.Length
          invariant forall k :: 0 <= k < i ==> clicked[k]
        {
          clicked[i] := true;
          i := i + 1;
        }
      }
    }

    /** The inner loop of `restoreCheckedEntries`: tick the first entry equal to `t`. */
    method TickFirstMatch(vs: seq<string>, t: string)
      requires |vs| <= clicked.Length
      modifies clicked
      ensures clicked[..] == MarkToken(vs, t, old(clicked[..]))
    {
      var i := 0;
      while i < |vs|
        invariant 0 <= i <= |vs|
        invariant forall k :: 0 <= k < i ==> vs[k] != t
        invariant clicked[..] == old(clicked[..])
      {
        if vs[i] == t {
          FirstIndexAt(vs, t, i);
          clicked[i] := true;
          return;
        }
        i := i + 1;
      }
    }

    /** A tap on entry `index` of the multi-choice dialog. */
    method OnClick(index: nat, isChecked: bool)
      requires index < clicked.Length
      modifies clicked
      ensures clicked[..] == old(clicked[..])[index := isChecked]
    {
      clicked[index] := isChecked;
    }

    /**
     * `onDialogClosed`: on OK (and with entry values set) the ticked values are
     * joined into the stored value, if the change listener accepts it; on
     * Cancel, or without entry values, nothing is stored.
     */
    method OnDialogClosed(positiveResult: bool, listenerAccepts: bool)
      requires positiveResult && entryValues.Some? ==> |entryValues.value| <= clicked.Length
      modifies this`value
      ensures value == if positiveResult && entryValues.Some? && listenerAccepts
                       then Some(EncodedSelection(entryValues.value, clicked[..]))
                       else old(value)
    {
      if positiveResult && entryValues.Some? {
        var vs := entryValues.value;
        var buffer := "";
        var i := 0;
        while i < |vs|
          invariant 0 <= i <= |vs|
          invariant buffer == JoinSeparated(Selected(vs[..i], clicked[..]), '|')
          invariant value == old(value)
        {
          assert vs[..i + 1][..i] == vs[..i];
          ghost var sel := Selected(vs[..i], clicked[..]);
          assert Selected(vs[..i + 1], clicked[..]) == sel + (if clicked[i] then [vs[i]] else []);
          JoinSeparatedSnoc(sel, vs[i], '|');
          if clicked[i] {
            if buffer != "" {
              buffer := buffer + "|";
            }
            buffer := buffer + vs[i];
            assert buffer == JoinSeparated(sel + [vs[i]], '|');
          } else {
            assert sel + [] == sel;
          }
          assert buffer == JoinSeparated(Selected(vs[..i + 1], clicked[..]), '|');
          i := i + 1;
        }
        assert vs[..|vs|] == vs;
        if listenerAccepts {
          value := Some(buffer);
        }
      }
    }

    /** `getAvailableCalendars` over the provider's rows, in cursor order. */
    static method GetAvailableCalendars(rows: seq<CalendarRow>) returns (info: Option<string>)
      ensures info == CalendarsInfo(rows)
      ensures info.None? <==> forall k :: 0 <= k < |rows| ==> rows[k].selected == "0"
    {
      var calendarsInfo := "";
      var i := 0;
      while i < |rows|
        invariant 0 <= i <= |rows|
        invariant calendarsInfo == JoinSeparated(Descriptors(rows[..i]), ',')
      {
        assert rows[..i + 1][..i] == rows[..i];
        ghost var d := Descriptors(rows[..i]);
        assert Descriptors(rows[..i + 1]) == d + (if Offered(rows[i]) then [Descriptor(rows[i])] else []);
        JoinSeparatedSnoc(d, Descriptor(rows[i]), ',');
        if rows[i].selected != "0" {
          if calendarsInfo != "" {
            calendarsInfo := calendarsInfo + ",";
          }
          calendarsInfo := calendarsInfo + (rows[i].id + "|" + rows[i].displayName);
          assert calendarsInfo == JoinSeparated(d + [Descriptor(rows[i])], ',');
        } else {
          assert d + [] == d;
        }
        i := i + 1;
      }
      assert rows[..|rows|] == rows;
      if calendarsInfo == "" {
        info := None;
      } else {
        info := Some(calendarsInfo);
      }
    }

    /** The parsing loop of `onPrepareDialogBuilder`; `None` is the out-of-bounds failure. */
    static method ParseCalendars(calendarsInfo: string) returns (r: Option<CalendarEntries>)
      ensures r == ParseCalendarList(calendarsInfo)
      ensures r.Some? ==> |r.value.values| == |r.value.names|
    {
      var parts := Split(calendarsInfo, ',');
      var values: seq<string> := [];
      var names: seq<string> := [];
      var i := 0;
      while i < |parts|
        invariant 0 <= i <= |parts|
        invariant ParseParts(parts[..i]) == Some(CalendarEntries(values, names))
      {
        assert parts[..i + 1][..i] == parts[..i];
        var calendarInfo := Split(parts[i], '|');
        if |calendarInfo| < 2 {
          assert ParseParts(parts[..i + 1]).None?;
          ParsePartsFailureSticks(parts, i + 1);
          return None;
        }
        values := values + [calendarInfo[0]];
        names := names + [calendarInfo[1]];
        i := i + 1;
      }
      assert parts[..|parts|] == parts;
      r := Some(CalendarEntries(values, names));
    }

    /**
     * `onPrepareDialogBuilder`: build the entries from the calendar list, give
     * them to the preference and restore the ticks from the stored value.
     */
    method OnPrepareDialogBuilder(rows: seq<CalendarRow>) returns (outcome: PrepareOutcome)
      modifies this
      ensures outcome == NoCalendars <==> CalendarsInfo(rows).None?
      ensures outcome == ParseFailed <==> CalendarsInfo(rows).Some? && ParseCalendarList(CalendarsInfo(rows).value).None?
      ensures outcome != DialogReady ==>
        entries == old(entries) && entryValues == old(entryValues) && clicked == old(clicked) && value == old(value)
      ensures outcome == DialogReady ==>
        var parsed := ParseCalendarList(CalendarsInfo(rows).value).value;
        && entries == Some(parsed.names) && entryValues == Some(parsed.values)
        && value == old(value) && fresh(clicked)
        && clicked[..] == RestoredSelection(parsed.values, value, seq(|parsed.values|, _ => false))
    {
      var availableCalendarsInfo := GetAvailableCalendars(rows);
      if availableCalendarsInfo.None? {
        return NoCalendars;
      }
      var parsed := ParseCalendars(availableCalendarsInfo.value);
      if parsed.None? {
        return ParseFailed;
      }
      SetEntries(parsed.value.names);
      SetEntryValues(parsed.value.values);
      RestoreCheckedEntries();
      outcome := DialogReady;
    }
  }

  lemma {:induction false} ParsePartsFailureSticks(parts: seq<string>, n: nat)
    requires n <= |parts|
    requires ParseParts(parts[..n]).None?
    ensures ParseParts(parts).None?
    decreases |parts| - n
  {
    if n < |parts| {
      assert parts[..n + 1][..n] == parts[..n];
      ParsePartsFailureSticks(parts, n + 1);
    } else {
      assert parts[..n] == parts;
    }
  }
}
