/** The normalised word record both transcription providers are mapped into,
    the JSON field as the code reads it, and the concatenation of a sequence of
    sequences used by the transcript view and the recorder alike. */
module Words {

  /** A value that may be missing: a label not shown, an error not set. */
  datatype Option<+T> = None | Some(value: T)

  /** A JSON field as JavaScript reads it: absent (`undefined`), `null`, or present.
      Both missing forms are falsy, but reading a property of one throws a
      `TypeError` whose message names which of the two it was. */
  datatype Field<+T> = Absent | Null | Present(value: T)

  /** One diarised word: `{word, start, end, speaker, confidence}`.
      Times are seconds and confidence a fraction, kept as reals; they are only
      ever copied, never computed with. */
  datatype Word = Word(word: string, start: real, end: real, speaker: int, confidence: real)

  /** The elements of the parts, one part after the other. */
  function Flatten<T>(parts: seq<seq<T>>): seq<T>
  {
    if parts == [] then [] else parts[0] + Flatten(parts[1..])
  }

  /** One unfolding of `Flatten` on a part put in front. */
  lemma FlattenCons<T>(part: seq<T>, parts: seq<seq<T>>)
    ensures Flatten([part] + parts) == part + Flatten(parts)
  {
    assert ([part] + parts)[1..] == parts;
  }

  lemma {:induction false} FlattenAppend<T>(a: seq<seq<T>>, b: seq<seq<T>>)
    ensures Flatten(a + b) == Flatten(a) + Flatten(b)
  {
    if a == [] {
      assert a + b == b;
    } else {
      assert (a + b)[1..] == a[1..] + b;
      FlattenAppend(a[1..], b);
    }
  }
}
