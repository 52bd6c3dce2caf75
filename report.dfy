/**
 * The solfa analysis of `create_professional_doc` (Sanne/main.py): the notes
 * are grouped by pitch name, the groups become table rows sorted by
 * frequency, and the pitch range line takes the least and greatest name.
 * The Word document itself (headings, fonts, the picture) is not modelled;
 * a `Report` keeps what the document states about the notes.
 */
module Report {
  import opened Wrappers
  import opened Transcription
  import opened PitchGroups
  import opened FreqSort
  import PyStrings

  /** The three cells of one table row: note, solfa syllable, frequency. */
  datatype Row = Row(note: string, solfa: string, freq: real)

  /** What the document says: tempo, whether the staff picture is included, the table and the summary lines. */
  datatype Report = Report(tempo: real, staffNotation: bool, rows: seq<Row>, totalNotes: nat, lowest: string, highest: string)

  /** `min(pitch_groups.keys())` on an empty dictionary raises `ValueError`. */
  datatype DocError = EmptyPitchRange

  /** `pitch_groups.items()` in insertion order. */
  function ItemsOf(order: seq<string>, groups: map<string, Group>): seq<Item>
    requires forall n :: n in order ==> n in groups
  {
    seq(|order|, k requires 0 <= k < |order| => Item(order[k], groups[order[k]]))
  }

  /** Unfolds `ItemsOf` for the proofs below; a proof step, not a property of the source. */
  lemma ItemsInKeyOrder(order: seq<string>, groups: map<string, Group>)
    requires forall n :: n in order ==> n in groups
    ensures |ItemsOf(order, groups)| == |order|
    ensures forall k :: 0 <= k < |order| ==> ItemsOf(order, groups)[k] == Item(order[k], groups[order[k]])
  {
  }

  /** The position of a group's first note; used to state that ties keep first-seen order. */
  function FirstSeen(notes: seq<Note>): Item -> int {
    (it: Item) => if it.name in NameSet(notes) then FirstIndex(notes, it.name) else -1
  }

  /** The picture goes in when `img_path` is a non-empty path (a strategy that reports success has written it). */
  function HasStaffNotation(imgPath: Option<string>): bool {
    imgPath.Some? && imgPath.value != ""
  }

  lemma NoNamesNoNotes(notes: seq<Note>)
    ensures NameSet(notes) == {} <==> notes == []
  {
    if notes != [] {
      assert notes[0].name in NameSet(notes);
    }
  }

  /** Ties in the sorted items keep the first-seen order of the dictionary's keys. */
  lemma SortedItemsRanked(notes: seq<Note>, order: seq<string>, groups: map<string, Group>)
    requires KeysAreNames(notes, order, groups)
    requires InFirstSeenOrder(notes, order)
    ensures TiesRanked(SortByFreq(ItemsOf(order, groups)), FirstSeen(notes))
  {
    var items := ItemsOf(order, groups);
    ItemsInKeyOrder(order, groups);
    var rank := FirstSeen(notes);
    forall a, b | 0 <= a < b < |items| ensures rank(items[a]) < rank(items[b]) {
      assert items[a].name == order[a] && items[b].name == order[b];
    }
    SortKeepsTieRank(items, rank);
  }

  /** Each sorted item is the group of one of the notes' names. */
  lemma SortedItemsGroups(notes: seq<Note>, order: seq<string>, groups: map<string, Group>, sorted: seq<Item>)
    requires KeysAreNames(notes, order, groups)
    requires sorted == SortByFreq(ItemsOf(order, groups))
    ensures forall k :: 0 <= k < |sorted| ==>
              sorted[k].name in NameSet(notes) && sorted[k].group == groups[sorted[k].name]
  {
    var items := ItemsOf(order, groups);
    ItemsInKeyOrder(order, groups);
    forall k | 0 <= k < |sorted| ensures sorted[k].name in NameSet(notes) && sorted[k].group == groups[sorted[k].name] {
      assert sorted[k] in multiset(items);
      var j :| 0 <= j < |items| && items[j] == sorted[k];
    }
  }

  /** Every name of the notes has an item among the sorted ones. */
  lemma SortedItemsCover(notes: seq<Note>, order: seq<string>, groups: map<string, Group>, sorted: seq<Item>)
    requires KeysAreNames(notes, order, groups)
    requires sorted == SortByFreq(ItemsOf(order, groups))
    ensures forall n :: n in NameSet(notes) ==> exists k :: 0 <= k < |sorted| && sorted[k].name == n
  {
    var items := ItemsOf(order, groups);
    ItemsInKeyOrder(order, groups);
    forall n | n in NameSet(notes) ensures exists k :: 0 <= k < |sorted| && sorted[k].name == n {
      var j :| 0 <= j < |order| && order[j] == n;
      assert items[j] in multiset(sorted);
      var k :| 0 <= k < |sorted| && sorted[k] == items[j];
      assert sorted[k].name == n;
    }
  }

  /** Facts about the sorted items that the rows inherit. */
  lemma SortedItems(notes: seq<Note>, order: seq<string>, groups: map<string, Group>, sorted: seq<Item>)
    requires KeysAreNames(notes, order, groups)
    requires InFirstSeenOrder(notes, order)
    requires GroupsHoldFirstAndCount(notes, groups)
    requires sorted == SortByFreq(ItemsOf(order, groups))
    ensures forall k :: 0 <= k < |sorted| ==>
              sorted[k].name in NameSet(notes) && sorted[k].group == groups[sorted[k].name]
    ensures forall n :: n in NameSet(notes) ==> exists k :: 0 <= k < |sorted| && sorted[k].name == n
    ensures SortedByFreq(sorted)
    ensures TiesRanked(sorted, FirstSeen(notes))
  {
    SortedItemsRanked(notes, order, groups);
    SortedItemsGroups(notes, order, groups, sorted);
    SortedItemsCover(notes, order, groups, sorted);
  }

  /**
   * The table of the solfa analysis: one row per pitch name with the syllable
   * and frequency of its first note, by non-decreasing frequency, equal
   * frequencies in first-seen order.
   */
  ghost predicate IsSolfaTable(rows: seq<Row>, notes: seq<Note>) {
    && (forall k :: 0 <= k < |rows| ==>
          && rows[k].note in NameSet(notes)
          && rows[k].solfa == notes[FirstIndex(notes, rows[k].note)].lyric
          && rows[k].freq == notes[FirstIndex(notes, rows[k].note)].frequency)
    && (forall n :: n in NameSet(notes) ==> exists k :: 0 <= k < |rows| && rows[k].note == n)
    && (forall i, j :: 0 <= i < j < |rows| ==> rows[i].note != rows[j].note)
    && (forall i, j :: 0 <= i < j < |rows| ==> rows[i].freq <= rows[j].freq)
    && (forall i, j :: 0 <= i < j < |rows| && rows[i].freq == rows[j].freq ==>
          FirstIndex(notes, rows[i].note) < FirstIndex(notes, rows[j].note))
  }

  /** The pitch range line: the least and the greatest pitch name in Python's string order. */
  ghost predicate IsPitchRange(lowest: string, highest: string, notes: seq<Note>) {
    && lowest in NameSet(notes) && highest in NameSet(notes)
    && forall n :: n in NameSet(notes) ==> PyStrings.LexLe(lowest, n) && PyStrings.LexLe(n, highest)
  }

  lemma RowsFormSolfaTable(notes: seq<Note>, groups: map<string, Group>, sorted: seq<Item>, rows: seq<Row>)
    requires forall n :: n in groups ==>
               n in NameSet(notes) &&
               groups[n] == Group(notes[FirstIndex(notes, n)].lyric, notes[FirstIndex(notes, n)].frequency, Count(notes, n))
    requires forall k :: 0 <= k < |sorted| ==>
               sorted[k].name in NameSet(notes) && sorted[k].name in groups && sorted[k].group == groups[sorted[k].name]
    requires forall n :: n in NameSet(notes) ==> exists k :: 0 <= k < |sorted| && sorted[k].name == n
    requires SortedByFreq(sorted) && TiesRanked(sorted, FirstSeen(notes))
    requires |rows| == |sorted|
    requires forall k :: 0 <= k < |rows| ==> rows[k] == Row(sorted[k].name, sorted[k].group.solfa, sorted[k].group.freq)
    ensures IsSolfaTable(rows, notes)
  {
    var rank := FirstSeen(notes);
    forall i, j | 0 <= i < j < |rows| && rows[i].freq == rows[j].freq
      ensures FirstIndex(notes, rows[i].note) < FirstIndex(notes, rows[j].note)
    {
      assert Freq(sorted[i]) == Freq(sorted[j]);
      assert rank(sorted[i]) < rank(sorted[j]);
    }
    forall n | n in NameSet(notes) ensures exists k :: 0 <= k < |rows| && rows[k].note == n {
      var k :| 0 <= k < |sorted| && sorted[k].name == n;
      assert rows[k].note == n;
    }
  }

  /** The loop that adds one table row per sorted `(pitch_name, data)` pair. */
  method AddTableRows(sorted: seq<Item>) returns (rows: seq<Row>)
    ensures |rows| == |sorted|
    ensures forall k :: 0 <= k < |rows| ==> rows[k] == Row(sorted[k].name, sorted[k].group.solfa, sorted[k].group.freq)
  {
    rows := [];
    for i := 0 to |sorted|
      invariant |rows| == i
      invariant forall k :: 0 <= k < i ==> rows[k] == Row(sorted[k].name, sorted[k].group.solfa, sorted[k].group.freq)
    {
      rows := rows + [Row(sorted[i].name, sorted[i].group.solfa, sorted[i].group.freq)];
    }
  }

  /** `create_professional_doc` from the point of view of the notes. */
  method CreateProfessionalDoc(notes: seq<Note>, tempo: real, imgPath: Option<string>) returns (r: Result<Report, DocError>)
    ensures r.Err? <==> notes == []
    ensures r.Ok? ==>
              && r.value.tempo == tempo
              && r.value.staffNotation == HasStaffNotation(imgPath)
              && r.value.totalNotes == |notes|
    ensures r.Ok? ==> IsSolfaTable(r.value.rows, notes)
    ensures r.Ok? ==> IsPitchRange(r.value.lowest, r.value.highest, notes)
  {
    var staff := HasStaffNotation(imgPath);
    var order, groups := GroupByPitch(notes);
    var sorted := SortByFreq(ItemsOf(order, groups));
    var rows := AddTableRows(sorted);
    SortedItems(notes, order, groups, sorted);
    RowsFormSolfaTable(notes, groups, sorted, rows);
    NoNamesNoNotes(notes);
    if |order| == 0 {
      assert NameSet(notes) == {} by { assert forall n :: n !in groups; }
      return Err(EmptyPitchRange);
    }
    assert order[0] in NameSet(notes);
    r := Ok(Report(tempo, staff, rows, |notes|, PyStrings.Min(order), PyStrings.Max(order)));
  }
}
