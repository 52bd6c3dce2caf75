# Lashir solfa core in Dafny

Lashir turns a recorded melody into solfa. This project models its core in two parts.

The Flask service (`Sanne/main.py`):
- detects pitched onsets;
- gives each one a chromatic solfege syllable from its MIDI number (`SOLFEGE_MAP`);
- groups the notes by pitch name and lists the groups in a table sorted by frequency;
- states the pitch range as the least and the greatest pitch name;
- tries two staff renderers before giving up on the picture.

The Go API (`go-api`) reduces a detector's output to the solfa of its first letter (`convertToSolfa`). It places that solfa next to the raw output in its websocket reply.

The modules follow the program:

| file | module | models |
|---|---|---|
| `solfege.dfy` | `Solfege` | `SOLFEGE_MAP`, the semitone class and the lyric lookup |
| `transcription.dfy` | `Transcription` | the filter/map loop of `audio_to_notes` |
| `pitch_groups.dfy` | `PitchGroups` | the `pitch_groups` dictionary built in `create_professional_doc` |
| `freq_sort.dfy` | `FreqSort` | Python's stable `sorted(..., key=freq)` over the groups |
| `py_strings.dfy` | `PyStrings` | Python's string order, `min` and `max` of the keys |
| `report.dfy` | `Report` | what `create_professional_doc` writes about the notes, and its `ValueError` |
| `rendering.dfy` | `Rendering` | the renderer fallback of `process_audio` |
| `pipeline.dfy` | `Pipeline` | `process_audio` end to end |
| `go_solfa.dfy` | `GoSolfa` | `convertToSolfa` and the websocket reply |
| `scenarios.dfy` | `Scenarios` | two worked runs, derived from the contracts alone |
| `wrappers.dfy` | `Wrappers` | `Option` and `Result` |

A Python dictionary keeps insertion order. `pitch_groups` is therefore modelled as a key order (`seq<string>`) together with a `map` from name to group.

The onset analysis (librosa, `hz_to_midi`, `round`, music21's `Pitch`) is an external library. The model receives its result as a sequence of `Candidate`s. Each carries the picked `pitch_hz`, the rounded MIDI number, the pitch name and the frequency music21 would report.

## Model

| member | source | states |
|---|---|---|
| `Solfege.SemitoneClass` | Sanne/main.py:92 | the class is in 0..11 and congruent to the MIDI number modulo 12, for negative numbers too |
| `Solfege.Lyric` | Sanne/main.py:92-93 | the `dict.get` lookup always finds its key: the semitone class is a key of `SOLFEGE_MAP` and the lyric is its syllable, so the `'?'` default never appears |
| `Solfege.LyricInTable` | Sanne/main.py:37-41 | every lyric is one of the table's twelve syllables |
| `Solfege.TableDomain` | Sanne/main.py:37-41 | the table's keys are exactly 0..11 |
| `Solfege.TableInjective` | Sanne/main.py:37-41 | no two semitone classes share a syllable |
| `Solfege.OutsideTableIsUnknown` | Sanne/main.py:93 | a key outside 0..11 yields `'?'` |
| `Solfege.LyricOctaveInvariant` | Sanne/main.py:92-93 | shifting a note by whole octaves keeps its lyric |
| `Solfege.LyricExamples` | Sanne/main.py:37-41 | C4 is Do, C#4 Di, D4 Re, G4 Sol, A4 La, B4 Ti, C5 Do, MIDI -1 Ti, MIDI -12 Do |
| `Transcription.Voiced` | Sanne/main.py:84-89 | the kept candidates are drawn from the input, are all voiced, and are no more than the input |
| `Transcription.VoicedAppend` | Sanne/main.py:84-89 | the kept candidates of two runs of onsets are those of the first followed by those of the second |
| `Transcription.VoicedComplete` | Sanne/main.py:89 | every voiced candidate is kept |
| `Transcription.NoVoicedNoNotes` | Sanne/main.py:89 | there are no notes if and only if no candidate is voiced |
| `Transcription.MakeNote` | Sanne/main.py:90-97 | a note keeps its candidate's name, MIDI number and frequency, lasts 0.5 and never carries the `'?'` lyric |
| `Transcription.NoteLyricFromTable` | Sanne/main.py:92-97 | a note's lyric is the `SOLFEGE_MAP` syllable at its MIDI number's semitone class |
| `Transcription.AudioToNotes` | Sanne/main.py:83-100 | one note per voiced candidate, in input order, with that candidate's name, MIDI number and frequency, duration 0.5 and the candidate's lyric |
| `PitchGroups.FirstIndex` | Sanne/main.py:281-286 | the index of the first note with a name: it has that name and no earlier note does |
| `PitchGroups.AddNote` | Sanne/main.py:280-287 | after one more note the dictionary still summarises the notes seen so far (keys, first-seen order, first note's lyric and frequency, counts); the note's name is now a key with a positive count, and it is appended to the key order exactly when it was new |
| `PitchGroups.GroupByPitch` | Sanne/main.py:278-287 | keys are exactly the note names, in first-seen order without repeats; each group holds the first note's lyric and frequency and the number of notes with its name; the counts add up to the number of notes |
| `PitchGroups.CountsSumToLength` | Sanne/main.py:287 | over any repeat-free list of names covering the notes, the counts add up to the number of notes |
| `PitchGroups.GroupingComplete` | Sanne/main.py:278-287 | a finished grouping lists every key and its counts add up to the number of notes |
| `FreqSort.WithFreq` | Sanne/main.py:290-291 | the items picked for a frequency are drawn from the input and have that frequency |
| `FreqSort.Insert` | Sanne/main.py:290-291 | inserting adds exactly one item to the multiset |
| `FreqSort.InsertSorted` | Sanne/main.py:290-291 | inserting into a sorted list keeps it sorted |
| `FreqSort.SortByFreq` | Sanne/main.py:290-291 | the sort is a permutation of its input in non-decreasing frequency |
| `FreqSort.InsertWithFreq` | Sanne/main.py:290-291 | an insertion places the item first among items of its frequency |
| `FreqSort.SortIsStable` | Sanne/main.py:290-291 | for every frequency, the sorted items of that frequency keep their input order (Python's sort is stable) |
| `FreqSort.SortedDeterminedByFreqClasses` | Sanne/main.py:290-291 | two sorted lists with the same items at every frequency are equal |
| `FreqSort.StableSortIsUnique` | Sanne/main.py:290-291 | any sorted arrangement that keeps each frequency's items in input order is exactly this sort |
| `FreqSort.SortKeepsTieRank` | Sanne/main.py:290-291 | items strictly ranked in the input stay ranked among equal frequencies after sorting |
| `PyStrings.LexLeReflexive` | Sanne/main.py:300 | Python's string order is reflexive |
| `PyStrings.LexLeTotal` | Sanne/main.py:300 | any two strings are comparable |
| `PyStrings.LexLeTransitive` | Sanne/main.py:300 | the order is transitive |
| `PyStrings.LexLeAntisymmetric` | Sanne/main.py:300 | the order is antisymmetric |
| `PyStrings.Min` | Sanne/main.py:300 | `min` of a non-empty key list is one of the keys and precedes every key |
| `PyStrings.Max` | Sanne/main.py:300 | `max` of a non-empty key list is one of the keys and follows every key |
| `PyStrings.LexExamples` | Sanne/main.py:300 | "A" < "C" < "C#"; min and max of C, A, G are A and G |
| `Report.NoNamesNoNotes` | Sanne/main.py:300 | the dictionary is empty exactly when there are no notes |
| `Report.SortedItemsRanked` | Sanne/main.py:290-291 | the items of `pitch_groups.items()`, taken in insertion order and sorted, keep ties in first-seen order |
| `Report.SortedItemsGroups` | Sanne/main.py:290-294 | each sorted item is one of the notes' names with its own group |
| `Report.SortedItemsCover` | Sanne/main.py:290-294 | every name of the notes has a sorted item |
| `Report.SortedItems` | Sanne/main.py:278-295 | the sorted items cover every name, each with its first note's group, in non-decreasing frequency, with ties in first-seen order |
| `Report.RowsFormSolfaTable` | Sanne/main.py:290-295 | a row per sorted item forms the solfa table |
| `Report.AddTableRows` | Sanne/main.py:290-295 | one row per item, in order: the pitch name, the solfa, the frequency |
| `Report.CreateProfessionalDoc` | Sanne/main.py:227-300 | fails (the `ValueError` of `min`) exactly when there are no notes. Otherwise it keeps the tempo and the note count, and includes the picture exactly when a path is given. Its table has one row per distinct name with the first note's lyric and frequency. The rows come from the dictionary's items in insertion order, sorted by frequency, so ties stay in first-seen order. The range is the least and greatest name |
| `Rendering.ImgPath` | Sanne/main.py:328 | `os.path.join` of the temporary directory and `staff_notation.png`: the path starts with the directory, ends with the file name, and adds a `/` exactly when the directory is non-empty and does not already end in one |
| `Rendering.RenderFallback` | Sanne/main.py:331-333 | the web renderer runs only if the traditional one failed; the web renderer gets past its key check only then and only with a non-empty API key, so Flat.io is never asked without one; the path is dropped exactly when both fail |
| `Rendering.PictureIffSomeStrategySucceeds` | Sanne/main.py:331-333 | there is a picture exactly when some renderer succeeds; without a key, exactly when the traditional one does |
| `Pipeline.NotesOf` | Sanne/main.py:83-100 | the closed form of the notes `AudioToNotes` returns: every voiced candidate yields its note, and every note comes from a voiced candidate |
| `Pipeline.StaffNotationIffRendered` | Sanne/main.py:256 | the document's `img_path` test shows the picture exactly when one of the renderers succeeded |
| `Pipeline.ProcessAudio` | Sanne/main.py:320-340 | within the modelled failures, returns no document exactly when the analysis fails or no onset is voiced. Otherwise the document keeps the tempo. It counts the voiced onsets and has a picture exactly when a renderer succeeded. Its table and range are those of the notes |
| `GoSolfa.ConvertToSolfa` | go-api/solfa.go:4-13 | the result is `""` or one of the seven syllables; a first byte that is not a key of the map gives Go's zero value `""` |
| `GoSolfa.ConvertIsFirstLetter` | go-api/solfa.go:9-12 | the result is `""` on empty input and otherwise the syllable of the first byte's letter |
| `GoSolfa.FirstByteDecides` | go-api/main.go:101-110 | two non-empty inputs that share a first byte get the same result |
| `GoSolfa.UnmappedFirstByte` | go-api/solfa.go:5-10 | a first byte outside `A`..`G` gives `""` |
| `GoSolfa.AgreesWithChromaticTable` | go-api/solfa.go:5-8 | for the letters `A`..`G`, the syllable coincides with the Flask table's at that natural note's semitone |
| `GoSolfa.NaturalSemitone` | go-api/solfa.go:6-7 | a natural note's semitone is in 0..11 |
| `GoSolfa.ConvertExamples` | go-api/main.go:106-109 | "C4", "C#5" and "C" give Do, "G3" Sol, "B" Ti; "c", "" and a UTF-8 sharp sign give "" |
| `GoSolfa.WebsocketReply` | go-api/main.go:48-57 | a failing detector gives the error reply. Otherwise the reply carries the raw output as its pitches, and its solfa is the letter table applied to the output's first byte (`""` for empty output) |
| `GoSolfa.PrintedList` | python-audio/detect.py:12 | the detector prints a Python list, whose output starts with `[` |
| `GoSolfa.ReplyOfPrintedListHasNoSolfa` | go-api/main.go:54-57 | when the detector prints a Python list, the reply's solfa is always empty |
| `Scenarios.OctavesShareOneRow` | Sanne/main.py:278-300 | C4, silence, C5 and D4, at music21's equal-tempered frequencies rounded to four decimals, give 3 notes. The table is C (Do, 261.6256) then D (Re, 293.6648): C5 falls into C4's group and keeps its frequency. The range is C to D |
| `Scenarios.SilenceGivesNoDocument` | Sanne/main.py:300 | a recording with no voiced onset yields no document |

## Left out

- Audio analysis: loading, onset detection, `piptrack`, `hz_to_midi`, `round` and music21's `Pitch` are external libraries. Their output is the `Candidate` sequence, so the model does not relate a frequency to its pitch name.
- NaN pitches are not modelled: `pitch_hz` is a `real`, and a NaN could never pass `pitch_hz > 0` anyway.
- `create_staff_notation` is not modelled. Neither is the traditional matplotlib renderer beyond its success flag.
- Pipeline.ProcessAudio: `process_audio` returns `None` on any exception. The model names only two causes: a failing analysis and an empty pitch range. It assumes that `create_staff_notation`, the traditional renderer's file and python-docx never raise. It takes `flatOk` to mean that Flat.io's answer was a picture python-docx can insert. An HTTP error body saved as the PNG would make `doc.add_picture` raise, so the source returns `None` where the model returns a document.
- Flat.io HTTP traffic is reduced to one success flag, and so are the file write and `os.path.exists`. A successful renderer is taken to have left the file in place.
- Word formatting is not modelled: headings, fonts, the footer, and the `:.1f` rendering of frequencies. Neither is `save_document`.
- The group's `count` is computed and proved, but the document never prints it, so `Report` does not carry it.
- The websocket reply is modelled as the `gin.H` value before `ws.WriteJSON` encodes it. Go's `encoding/json` replaces invalid UTF-8 in the output with U+FFFD, and that rewriting is not modelled.
- Flask and gin transport, uploads, temporary files and the `python-music21` script are not part of this model. The detector's output is an input of `WebsocketReply`. Of `python-audio`, only the shape of the list `detect.py` prints is modelled.
- `convertToSolfa` is declared in both `go-api/solfa.go` and `go-api/main.go` of package `main`. The two bodies are identical. It is modelled once, as if the package compiled.
- Ties in frequency keep their first-seen order, because the code uses a stable sort on frequency alone. They are not ordered by name.
- A semitone class outside the table falls back to `'?'` rather than raising an error. The model proves that this fallback is never reached.
