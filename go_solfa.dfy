/**
 * The Go service's `convertToSolfa` (go-api/solfa.go, and a token-identical
 * copy in go-api/main.go) and the websocket reply that uses it. A Go string
 * is a sequence of bytes; `note[:1]` is its first byte as a one-byte string.
 */
module GoSolfa {
  import opened Wrappers
  import Solfege

  newtype byte = b: int | 0 <= b < 256

  /** The seven natural note letters in ASCII. */
  const A: byte := 65
  const B: byte := 66
  const C: byte := 67
  const D: byte := 68
  const E: byte := 69
  const F: byte := 70
  const G: byte := 71

  /** The punctuation of a printed Python list. */
  const LEFT_BRACKET: byte := 91
  const RIGHT_BRACKET: byte := 93
  const QUOTE: byte := 39
  const COMMA: byte := 44
  const SPACE: byte := 32
  const NEWLINE: byte := 10

  /** The `solfa` map literal, keyed by one-byte strings. */
  const SOLFA: map<seq<byte>, string> := map[
    [C] := "Do", [D] := "Re", [E] := "Mi",
    [F] := "Fa", [G] := "Sol", [A] := "La", [B] := "Ti"
  ]

  /** Indexing a Go map: a missing key yields the zero value `""`. */
  function Index(m: map<seq<byte>, string>, key: seq<byte>): string {
    if key in m then m[key] else ""
  }

  function ConvertToSolfa(note: seq<byte>): (solfa: string)
    ensures solfa == "" || solfa in SOLFA.Values
  {
    if |note| > 0 then Index(SOLFA, note[..1]) else ""
  }

  /** An independent statement of the table, letter by letter. */
  function LetterSolfa(b: byte): string {
    if b == C then "Do" else if b == D then "Re" else if b == E then "Mi"
    else if b == F then "Fa" else if b == G then "Sol" else if b == A then "La"
    else if b == B then "Ti" else ""
  }

  /** `convertToSolfa` is the letter table applied to the first byte, and `""` for the empty string. */
  lemma ConvertIsFirstLetter(note: seq<byte>)
    ensures ConvertToSolfa(note) == if note == [] then "" else LetterSolfa(note[0])
  {
    if note != [] {
      assert note[..1] == [note[0]];
    }
  }

  /** Only the first byte matters: octaves, accidentals and anything after are ignored. */
  lemma FirstByteDecides(a: seq<byte>, b: seq<byte>)
    requires a != [] && b != [] && a[0] == b[0]
    ensures ConvertToSolfa(a) == ConvertToSolfa(b)
  {
    ConvertIsFirstLetter(a);
    ConvertIsFirstLetter(b);
  }

  /** A first byte other than the seven capital letters gives `""`. */
  lemma UnmappedFirstByte(note: seq<byte>)
    requires note != [] && !(A <= note[0] <= G)
    ensures ConvertToSolfa(note) == ""
  {
    ConvertIsFirstLetter(note);
  }

  /** The syllables agree with the chromatic table of the Flask service on the natural notes. */
  lemma AgreesWithChromaticTable(note: seq<byte>)
    requires note != [] && A <= note[0] <= G
    ensures ConvertToSolfa(note) == Solfege.SOLFEGE_MAP[NaturalSemitone(note[0])]
  {
    ConvertIsFirstLetter(note);
  }

  /** The semitone class of a natural note letter, C = 0. */
  function NaturalSemitone(letter: byte): (s: int)
    requires A <= letter <= G
    ensures 0 <= s < 12
  {
    [9, 11, 0, 2, 4, 5, 7][letter - A]
  }

  /** Worked cases: "C4", "C#5" and "C" give Do, "c" and "" give nothing. */
  lemma ConvertExamples()
    ensures ConvertToSolfa([C, 52]) == "Do" && ConvertToSolfa([C, 35, 53]) == "Do" && ConvertToSolfa([C]) == "Do"
    ensures ConvertToSolfa([G, 51]) == "Sol" && ConvertToSolfa([B]) == "Ti"
    ensures ConvertToSolfa([99]) == "" && ConvertToSolfa([]) == "" && ConvertToSolfa([0xE2, 0x99, 0xAF]) == ""
  {
    ConvertIsFirstLetter([C, 52]);
    ConvertIsFirstLetter([C, 35, 53]);
    ConvertIsFirstLetter([C]);
    ConvertIsFirstLetter([G, 51]);
    ConvertIsFirstLetter([B]);
    ConvertIsFirstLetter([99]);
    ConvertIsFirstLetter([0xE2, 0x99, 0xAF]);
  }

  /** The `gin.H` value handed to `ws.WriteJSON` for one audio message (before JSON encoding). */
  datatype Reply = PitchReply(pitches: seq<byte>, solfa: string) | ErrorReply(error: string)

  /** `detectorOutput` is the standard output of detect.py, or `None` when the command fails. */
  function WebsocketReply(detectorOutput: Option<seq<byte>>): (reply: Reply)
    ensures detectorOutput.None? ==> reply == ErrorReply("Pitch detection failed")
    ensures detectorOutput.Some? ==> reply.PitchReply? && reply.pitches == detectorOutput.value
    ensures detectorOutput.Some? ==>
              reply.solfa == if detectorOutput.value == [] then "" else LetterSolfa(detectorOutput.value[0])
  {
    match detectorOutput
    case None => ErrorReply("Pitch detection failed")
    case Some(out) =>
      ConvertIsFirstLetter(out);
      PitchReply(out, ConvertToSolfa(out))
  }

  /** detect.py prints a Python list: `['C4', 'D4']` followed by a newline. */
  function PrintedList(names: seq<seq<byte>>): (out: seq<byte>)
    ensures out != [] && out[0] == LEFT_BRACKET
  {
    [LEFT_BRACKET] + Quoted(names) + [RIGHT_BRACKET, NEWLINE]
  }

  function Quoted(names: seq<seq<byte>>): seq<byte> {
    if names == [] then []
    else [QUOTE] + names[0] + [QUOTE] + (if |names| == 1 then [] else [COMMA, SPACE] + Quoted(names[1..]))
  }

  /**
   * The reply's syllable is computed from the whole output, and that output
   * starts with `[`: whatever notes were detected, the `solfa` field is `""`.
   */
  lemma ReplyOfPrintedListHasNoSolfa(names: seq<seq<byte>>)
    ensures WebsocketReply(Some(PrintedList(names))) == PitchReply(PrintedList(names), "")
  {
    UnmappedFirstByte(PrintedList(names));
  }
}
