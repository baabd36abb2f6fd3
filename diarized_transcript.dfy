/** The diarised-transcript view: one span per word, each preceded by a
    "Speaker n:" label exactly where the speaker changes. */
module DiarizedTranscript {
  import opened Words

  /** One rendered word: the speaker label shown before it, if any, and its text. */
  datatype Span = Span(speakerLabel: Option<int>, text: string)

  /** The label rule: word `i` is labelled when it is the first word or its
      speaker differs from that of the word before it. */
  predicate StartsRun(t: seq<Word>, i: int)
    requires 0 <= i < |t|
  {
    i == 0 || t[i].speaker != t[i - 1].speaker
  }

  /** The view of a transcript: nothing for an empty transcript, otherwise one
      span per word in input order. */
  function Render(t: seq<Word>): (r: Option<seq<Span>>)
    ensures r.None? <==> t == []
    ensures r.Some? ==> |r.value| == |t|
    ensures r.Some? ==> forall i :: 0 <= i < |t| ==> r.value[i].text == t[i].word
    ensures r.Some? ==> forall i :: 0 <= i < |t| ==> (r.value[i].speakerLabel.Some? <==> StartsRun(t, i))
    ensures r.Some? ==> forall i :: 0 <= i < |t| && r.value[i].speakerLabel.Some? ==> r.value[i].speakerLabel.value == t[i].speaker
  {
    if t == [] then None
    else Some(seq(|t|, i requires 0 <= i < |t| =>
                Span(if StartsRun(t, i) then Some(t[i].speaker) else None, t[i].word)))
  }

  /** Number of spans that carry a label. */
  function LabelCount(s: seq<Span>): nat
  {
    if s == [] then 0 else (if s[0].speakerLabel.Some? then 1 else 0) + LabelCount(s[1..])
  }

  /** Reference grouping: the maximal runs of consecutive words with the same speaker. */
  function Runs(t: seq<Word>): seq<seq<Word>>
  {
    if t == [] then []
    else if |t| > 1 && t[1].speaker == t[0].speaker then
      var rest := Runs(t[1..]);
      if rest == [] then [[t[0]]] else [[t[0]] + rest[0]] + rest[1..]
    else [[t[0]]] + Runs(t[1..])
  }

  /** Every word of a run has the same speaker. */
  predicate SameSpeaker(run: seq<Word>)
  {
    forall i :: 0 <= i < |run| ==> run[i].speaker == run[0].speaker
  }

  /** The runs are non-empty, single-speaker, and adjacent runs differ in speaker
      (so no run could be extended: they are maximal). */
  predicate MaximalRuns(runs: seq<seq<Word>>)
  {
    && (forall k :: 0 <= k < |runs| ==> runs[k] != [] && SameSpeaker(runs[k]))
    && (forall k :: 0 < k < |runs| ==> runs[k][0].speaker != runs[k - 1][0].speaker)
  }

  /** Concatenating the runs gives the transcript back, and the first run
      starts with the first word. */
  lemma {:induction false} RunsFlatten(t: seq<Word>)
    ensures Flatten(Runs(t)) == t
    ensures t != [] ==> Runs(t) != [] && Runs(t)[0] != [] && Runs(t)[0][0] == t[0]
  {
    if t != [] {
      RunsFlatten(t[1..]);
      var rest := Runs(t[1..]);
      if |t| > 1 && t[1].speaker == t[0].speaker {
        assert Runs(t) == [[t[0]] + rest[0]] + rest[1..];
        FlattenCons([t[0]] + rest[0], rest[1..]);
        FlattenCons(rest[0], rest[1..]);
        assert [rest[0]] + rest[1..] == rest;
      } else {
        assert Runs(t) == [[t[0]]] + rest;
        FlattenCons([t[0]], rest);
      }
      assert [t[0]] + t[1..] == t;
    }
  }

  /** The runs are maximal: non-empty, of one speaker each, and adjacent runs
      have different speakers. */
  lemma {:induction false} RunsMaximal(t: seq<Word>)
    ensures MaximalRuns(Runs(t))
  {
    if t != [] {
      RunsMaximal(t[1..]);
      RunsFlatten(t[1..]);
      var rest := Runs(t[1..]);
      if |t| > 1 && t[1].speaker == t[0].speaker {
        var head := [t[0]] + rest[0];
        assert Runs(t) == [head] + rest[1..];
        assert SameSpeaker(head) by {
          forall i | 0 <= i < |head| ensures head[i].speaker == head[0].speaker {
            if i > 0 {
              assert head[i] == rest[0][i - 1];
            }
          }
        }
        assert Runs(t)[0][0].speaker == rest[0][0].speaker;
      } else {
        assert Runs(t) == [[t[0]]] + rest;
      }
    }
  }

  /** Labels count runs, not speakers: the view has one label per maximal run. */
  lemma {:induction false} LabelsCountRuns(t: seq<Word>)
    requires t != []
    ensures LabelCount(Render(t).value) == |Runs(t)|
  {
    var s := Render(t).value;
    if |t| == 1 {
      assert s[1..] == [];
    } else {
      LabelsCountRuns(t[1..]);
      var s' := Render(t[1..]).value;
      assert s[1..][1..] == s'[1..];
      assert LabelCount(s) == 1 + LabelCount(s[1..]);
      assert LabelCount(s') == 1 + LabelCount(s'[1..]);
      assert LabelCount(s[1..]) == (if s[1].speakerLabel.Some? then 1 else 0) + LabelCount(s'[1..]);
      if t[1].speaker == t[0].speaker {
        assert Runs(t[1..]) != [];
      }
    }
  }

  /** Non-adjacent runs of one speaker are not merged: speakers 0, 0, 1, 1, 0
      give three labels, the first and third both for speaker 0. */
  lemma ThreeRunsExample(a: string, b: string, c: string, d: string, e: string)
    ensures var t := [Word(a, 0.0, 0.5, 0, 1.0), Word(b, 0.5, 1.0, 0, 1.0),
                      Word(c, 1.0, 1.5, 1, 1.0), Word(d, 1.5, 2.0, 1, 1.0),
                      Word(e, 2.0, 2.5, 0, 1.0)];
            && LabelCount(Render(t).value) == 3
            && Render(t).value[0].speakerLabel == Some(0)
            && Render(t).value[2].speakerLabel == Some(1)
            && Render(t).value[4].speakerLabel == Some(0)
  {
    var t := [Word(a, 0.0, 0.5, 0, 1.0), Word(b, 0.5, 1.0, 0, 1.0),
              Word(c, 1.0, 1.5, 1, 1.0), Word(d, 1.5, 2.0, 1, 1.0),
              Word(e, 2.0, 2.5, 0, 1.0)];
    var s := Render(t).value;
    assert s == [Span(Some(0), a), Span(None, b), Span(Some(1), c), Span(None, d), Span(Some(0), e)];
    assert s[1..][1..][1..][1..][1..] == [];
    assert LabelCount(s[1..][1..][1..][1..]) == 1;
    assert LabelCount(s[1..][1..][1..]) == 1;
    assert LabelCount(s[1..][1..]) == 2;
  }
}
