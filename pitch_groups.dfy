/**
 * The `pitch_groups` dictionary of `create_professional_doc`
 * (Sanne/main.py): one pass over the notes, keyed by the octave-less
 * `pitch.name`, where the first note of a name fixes the group's syllable and
 * frequency and every note of that name adds one to its count.
 */
module PitchGroups {
  import opened Transcription

  /** The value stored per key: `{'solfa': ..., 'freq': ..., 'count': ...}`. */
  datatype Group = Group(solfa: string, freq: real, count: nat)

  /** The octave-less pitch names occurring among the notes. */
  function NameSet(notes: seq<Note>): set<string> {
    set k | 0 <= k < |notes| :: notes[k].name
  }

  /** How many notes carry the given name. */
  function Count(notes: seq<Note>, name: string): nat
    decreases |notes|
  {
    if notes == [] then 0
    else Count(notes[..|notes| - 1], name) + (if notes[|notes| - 1].name == name then 1 else 0)
  }

  /** The position of the first note with the given name. */
  function FirstIndex(notes: seq<Note>, name: string): (i: nat)
    requires name in NameSet(notes)
    ensures i < |notes| && notes[i].name == name
    ensures forall j :: 0 <= j < i ==> notes[j].name != name
  {
    if notes[0].name == name then 0
    else
      var k :| 0 <= k < |notes| && notes[k].name == name;
      assert notes[1..][k - 1].name == name;
      1 + FirstIndex(notes[1..], name)
  }

  /** No key occurs twice. */
  predicate Distinct(keys: seq<string>) {
    forall i, j :: 0 <= i < j < |keys| ==> keys[i] != keys[j]
  }

  lemma NameSetOfPrefix(notes: seq<Note>, m: nat)
    requires m <= |notes|
    ensures NameSet(notes[..m]) <= NameSet(notes)
  {
    forall n | n in NameSet(notes[..m]) ensures n in NameSet(notes) {
      var k :| 0 <= k < m && notes[..m][k].name == n;
      assert notes[k].name == n;
    }
  }

  lemma {:induction false} CountAbsent(notes: seq<Note>, name: string)
    requires name !in NameSet(notes)
    ensures Count(notes, name) == 0
  {
    if notes != [] {
      var front := notes[..|notes| - 1];
      NameSetOfPrefix(notes, |notes| - 1);
      CountAbsent(front, name);
      assert notes[|notes| - 1].name in NameSet(notes);
    }
  }

  /** The sum of the counts of `Count(notes, k)` over the keys `ks`. */
  function TotalCount(notes: seq<Note>, ks: seq<string>): nat {
    if ks == [] then 0 else Count(notes, ks[0]) + TotalCount(notes, ks[1..])
  }

  /** How often `x` occurs in `ks`. */
  function Occurrences(ks: seq<string>, x: string): nat {
    if ks == [] then 0 else (if ks[0] == x then 1 else 0) + Occurrences(ks[1..], x)
  }

  lemma {:induction false} OccurrencesOfDistinct(ks: seq<string>, x: string)
    requires Distinct(ks)
    ensures Occurrences(ks, x) == if x in ks then 1 else 0
  {
    if ks != [] {
      OccurrencesOfDistinct(ks[1..], x);
      if ks[0] == x {
        assert x !in ks[1..] by {
          forall j | 0 <= j < |ks[1..]| ensures ks[1..][j] != x {
            assert ks[1..][j] == ks[j + 1];
          }
        }
      }
    }
  }

  /** Appending one note adds one to the total exactly as often as its name is listed. */
  lemma {:induction false} TotalCountSnoc(notes: seq<Note>, n: Note, ks: seq<string>)
    ensures TotalCount(notes + [n], ks) == TotalCount(notes, ks) + Occurrences(ks, n.name)
  {
    if ks != [] {
      var s := notes + [n];
      assert s[..|s| - 1] == notes;
      TotalCountSnoc(notes, n, ks[1..]);
    }
  }

  /** Counting every name once accounts for every note exactly once. */
  lemma {:induction false} CountsSumToLength(notes: seq<Note>, ks: seq<string>)
    requires Distinct(ks)
    requires NameSet(notes) <= set k | k in ks
    ensures TotalCount(notes, ks) == |notes|
  {
    if notes == [] {
      TotalCountOfEmpty(ks);
    } else {
      var front := notes[..|notes| - 1];
      var last := notes[|notes| - 1];
      assert notes == front + [last];
      NameSetOfPrefix(notes, |notes| - 1);
      CountsSumToLength(front, ks);
      TotalCountSnoc(front, last, ks);
      assert last.name in NameSet(notes) by { assert notes[|notes| - 1].name == last.name; }
      OccurrencesOfDistinct(ks, last.name);
    }
  }

  lemma {:induction false} TotalCountOfEmpty(ks: seq<string>)
    ensures TotalCount([], ks) == 0
  {
    if ks != [] {
      TotalCountOfEmpty(ks[1..]);
    }
  }

  /** The sum of the counts stored under the keys `ks`. */
  function SumCounts(ks: seq<string>, groups: map<string, Group>): nat
    requires forall k :: k in ks ==> k in groups
  {
    if ks == [] then 0 else groups[ks[0]].count + SumCounts(ks[1..], groups)
  }

  lemma {:induction false} SumCountsIsTotal(notes: seq<Note>, ks: seq<string>, groups: map<string, Group>)
    requires forall k :: k in ks ==> k in groups && groups[k].count == Count(notes, k)
    ensures SumCounts(ks, groups) == TotalCount(notes, ks)
  {
    if ks != [] {
      SumCountsIsTotal(notes, ks[1..], groups);
    }
  }

  /** Facts about extending the processed prefix by one note. */
  lemma PrefixStep(notes: seq<Note>, i: nat)
    requires i < |notes|
    ensures NameSet(notes[..i + 1]) == NameSet(notes[..i]) + {notes[i].name}
    ensures forall n :: Count(notes[..i + 1], n) == Count(notes[..i], n) + (if n == notes[i].name then 1 else 0)
    ensures forall n :: n in NameSet(notes[..i]) ==> FirstIndex(notes[..i + 1], n) == FirstIndex(notes[..i], n)
    ensures notes[i].name !in NameSet(notes[..i]) ==> FirstIndex(notes[..i + 1], notes[i].name) == i
  {
    var p, q := notes[..i], notes[..i + 1];
    assert q[..|q| - 1] == p;
    forall n | n in NameSet(q) ensures n in NameSet(p) + {notes[i].name} {
      var k :| 0 <= k < |q| && q[k].name == n;
      if k < i { assert p[k].name == n; }
    }
    forall n | n in NameSet(p) ensures n in NameSet(q) {
      var k :| 0 <= k < |p| && p[k].name == n;
      assert q[k].name == n;
    }
    assert q[i].name == notes[i].name;
    assert forall j :: 0 <= j < i ==> q[j] == p[j];
  }

  /** The keys are the names seen so far, and `order` lists exactly the keys. */
  ghost predicate KeysAreNames(p: seq<Note>, order: seq<string>, groups: map<string, Group>) {
    groups.Keys == NameSet(p) && forall n :: n in order <==> n in groups
  }

  /** `order` lists the keys by their first occurrence. */
  ghost predicate InFirstSeenOrder(p: seq<Note>, order: seq<string>)
    requires forall n :: n in order ==> n in NameSet(p)
  {
    forall a, b :: 0 <= a < b < |order| ==> FirstIndex(p, order[a]) < FirstIndex(p, order[b])
  }

  /** Each group holds the syllable and frequency of its first note and the number of its notes. */
  ghost predicate GroupsHoldFirstAndCount(p: seq<Note>, groups: map<string, Group>)
    requires groups.Keys <= NameSet(p)
  {
    forall n :: n in groups ==>
      groups[n] == Group(p[FirstIndex(p, n)].lyric, p[FirstIndex(p, n)].frequency, Count(p, n))
  }

  /** The dictionary built so far describes the processed prefix `p` of the notes. */
  ghost predicate Summarises(p: seq<Note>, order: seq<string>, groups: map<string, Group>) {
    && KeysAreNames(p, order, groups)
    && InFirstSeenOrder(p, order)
    && GroupsHoldFirstAndCount(p, groups)
  }

  lemma ExistingKeyValues(notes: seq<Note>, i: nat, groups: map<string, Group>)
    requires i < |notes| && groups.Keys == NameSet(notes[..i]) && notes[i].name in groups
    requires GroupsHoldFirstAndCount(notes[..i], groups)
    ensures NameSet(notes[..i + 1]) == groups.Keys
    ensures GroupsHoldFirstAndCount(notes[..i + 1],
              groups[notes[i].name := groups[notes[i].name].(count := groups[notes[i].name].count + 1)])
  {
    PrefixStep(notes, i);
    var p, q, x := notes[..i], notes[..i + 1], notes[i].name;
    var groups' := groups[x := groups[x].(count := groups[x].count + 1)];
    forall n | n in groups'
      ensures groups'[n] == Group(q[FirstIndex(q, n)].lyric, q[FirstIndex(q, n)].frequency, Count(q, n))
    {
      assert Count(q, n) == Count(p, n) + (if n == x then 1 else 0);
      var f := FirstIndex(p, n);
      assert FirstIndex(q, n) == f && q[f] == p[f];
    }
  }

  lemma ExistingKeyOrder(notes: seq<Note>, i: nat, order: seq<string>)
    requires i < |notes| && notes[i].name in NameSet(notes[..i])
    requires forall n :: n in order ==> n in NameSet(notes[..i])
    requires InFirstSeenOrder(notes[..i], order)
    ensures forall n :: n in order ==> n in NameSet(notes[..i + 1])
    ensures InFirstSeenOrder(notes[..i + 1], order)
  {
    PrefixStep(notes, i);
  }

  /** An iteration on a note whose name is already a key: only that key's count grows. */
  lemma ExistingKeyStep(notes: seq<Note>, i: nat, order: seq<string>, groups: map<string, Group>)
    requires i < |notes| && Summarises(notes[..i], order, groups) && notes[i].name in groups
    ensures Summarises(notes[..i + 1], order,
                       groups[notes[i].name := groups[notes[i].name].(count := groups[notes[i].name].count + 1)])
  {
    ExistingKeyValues(notes, i, groups);
    ExistingKeyOrder(notes, i, order);
  }

  lemma NewKeyValues(notes: seq<Note>, i: nat, groups: map<string, Group>)
    requires i < |notes| && groups.Keys == NameSet(notes[..i]) && notes[i].name !in groups
    requires GroupsHoldFirstAndCount(notes[..i], groups)
    ensures NameSet(notes[..i + 1]) == groups.Keys + {notes[i].name}
    ensures GroupsHoldFirstAndCount(notes[..i + 1],
              groups[notes[i].name := Group(notes[i].lyric, notes[i].frequency, 1)])
  {
    PrefixStep(notes, i);
    var p, q, x := notes[..i], notes[..i + 1], notes[i].name;
    var groups' := groups[x := Group(notes[i].lyric, notes[i].frequency, 1)];
    CountAbsent(p, x);
    forall n | n in groups'
      ensures groups'[n] == Group(q[FirstIndex(q, n)].lyric, q[FirstIndex(q, n)].frequency, Count(q, n))
    {
      assert Count(q, n) == Count(p, n) + (if n == x then 1 else 0);
      if n != x {
        var f := FirstIndex(p, n);
        assert FirstIndex(q, n) == f && q[f] == p[f];
      }
    }
  }

  lemma NewKeyOrder(notes: seq<Note>, i: nat, order: seq<string>)
    requires i < |notes| && notes[i].name !in NameSet(notes[..i])
    requires forall n :: n in order ==> n in NameSet(notes[..i])
    requires InFirstSeenOrder(notes[..i], order)
    ensures forall n :: n in order + [notes[i].name] ==> n in NameSet(notes[..i + 1])
    ensures InFirstSeenOrder(notes[..i + 1], order + [notes[i].name])
  {
    PrefixStep(notes, i);
    var p, q, order' := notes[..i], notes[..i + 1], order + [notes[i].name];
    forall a, b | 0 <= a < b < |order'| ensures FirstIndex(q, order'[a]) < FirstIndex(q, order'[b]) {
      assert order'[a] == order[a] && order[a] in NameSet(p);
    }
  }

  /** An iteration on a note with a new name: the name is appended as a key with count 1. */
  lemma NewKeyStep(notes: seq<Note>, i: nat, order: seq<string>, groups: map<string, Group>, added: map<string, Group>)
    requires i < |notes| && Summarises(notes[..i], order, groups) && notes[i].name !in groups
    requires added == groups[notes[i].name := Group(notes[i].lyric, notes[i].frequency, 0)]
    ensures Summarises(notes[..i + 1], order + [notes[i].name],
                       added[notes[i].name := added[notes[i].name].(count := added[notes[i].name].count + 1)])
  {
    var x := notes[i].name;
    assert added[x := added[x].(count := added[x].count + 1)] == groups[x := Group(notes[i].lyric, notes[i].frequency, 1)];
    NewKeyValues(notes, i, groups);
    NewKeyOrder(notes, i, order);
  }

  /** Once every note is processed, the dictionary has the properties `GroupByPitch` promises. */
  lemma GroupingComplete(notes: seq<Note>, order: seq<string>, groups: map<string, Group>)
    requires Summarises(notes, order, groups)
    ensures forall n :: n in order ==> n in groups
    ensures SumCounts(order, groups) == |notes|
  {
    assert Distinct(order);
    CountsSumToLength(notes, order);
    SumCountsIsTotal(notes, order, groups);
  }

  /** One pass of the grouping loop: the note at index `i` joins its pitch's group. */
  method AddNote(notes: seq<Note>, i: nat, order: seq<string>, groups: map<string, Group>)
      returns (order': seq<string>, groups': map<string, Group>)
    requires i < |notes|
    requires Summarises(notes[..i], order, groups)
    ensures Summarises(notes[..i + 1], order', groups')
    ensures notes[i].name in groups' && groups'[notes[i].name].count >= 1
    ensures order' == if notes[i].name in groups then order else order + [notes[i].name]
  {
    var note := notes[i];
    var pitchName := note.name;
    groups' := groups;
    order' := order;
    if pitchName !in groups' {
      var added := groups'[pitchName := Group(note.lyric, note.frequency, 0)];
      NewKeyStep(notes, i, order, groups, added);
      groups' := added;
      order' := order' + [pitchName];
    } else {
      ExistingKeyStep(notes, i, order, groups);
    }
    groups' := groups'[pitchName := groups'[pitchName].(count := groups'[pitchName].count + 1)];
  }

  /**
   * The grouping loop. `order` is the key order of the dictionary (Python
   * dictionaries iterate in insertion order), `groups` its contents.
   */
  method GroupByPitch(notes: seq<Note>) returns (order: seq<string>, groups: map<string, Group>)
    ensures KeysAreNames(notes, order, groups)
    ensures InFirstSeenOrder(notes, order)
    ensures GroupsHoldFirstAndCount(notes, groups)
    ensures SumCounts(order, groups) == |notes|
  {
    order, groups := [], map[];
    var i := 0;
    while i < |notes|
      invariant 0 <= i <= |notes|
      invariant Summarises(notes[..i], order, groups)
    {
      order, groups := AddNote(notes, i, order, groups);
      i := i + 1;
    }
    assert notes[..i] == notes;
    GroupingComplete(notes, order, groups);
  }
}
