/**
 * The first loop of `stream_diarization`: the speaker-labelled frames of a
 * diarization, in the order the annotation yields them, are run-length
 * coalesced into speaker turns.
 *
 * `Coalesce` is the merge as a fold; `MergeSegments` is the loop itself. The
 * independent description is a split of the frames into maximal runs
 * (`IsRunSplit`): every turn summarises one run.
 */
module SegmentMerger {
  import opened Wrappers
  import opened Seqs

  /** A speaker label of the annotation. */
  type Label = string

  /** One track of the annotation: a segment with its speaker label; times in seconds. */
  datatype Frame = Frame(start: real, end: real, speaker: Label)

  /** A merged `(start, end, speaker)` entry of `merged_segments`. */
  datatype Turn = Turn(start: real, end: real, speaker: Label)

  /**
   * One loop iteration, with the open turn kept as the last element: a frame
   * of the open turn's speaker moves its end; any other frame opens a turn.
   */
  function Absorb(turns: seq<Turn>, f: Frame): seq<Turn> {
    if |turns| > 0 && turns[|turns| - 1].speaker == f.speaker then
      turns[..|turns| - 1] + [turns[|turns| - 1].(end := f.end)]
    else
      turns + [Turn(f.start, f.end, f.speaker)]
  }

  /** The turns of `frames`, the open one included. */
  function Coalesce(frames: seq<Frame>): seq<Turn> {
    if |frames| == 0 then [] else Absorb(Coalesce(frames[..|frames| - 1]), frames[|frames| - 1])
  }

  /** The open turn, when there is one. */
  function OpenTurn(speaker: Option<Label>, start: real, end: real): seq<Turn> {
    if speaker.Some? then [Turn(start, end, speaker.value)] else []
  }

  /**
   * The merge loop. `current_start` and `current_end` start as 0.0 where the
   * source has None; they are read only once a speaker is open.
   */
  method MergeSegments(frames: seq<Frame>) returns (merged: seq<Turn>)
    ensures merged == Coalesce(frames)
  {
    merged := [];
    var currentSpeaker: Option<Label> := None;
    var currentStart: real := 0.0;
    var currentEnd: real := 0.0;
    for i := 0 to |frames|
      invariant currentSpeaker.None? <==> i == 0
      invariant Coalesce(frames[..i]) == merged + OpenTurn(currentSpeaker, currentStart, currentEnd)
    {
      var f := frames[i];
      assert frames[..i + 1][..i] == frames[..i];
      if Some(f.speaker) != currentSpeaker {
        if currentSpeaker.Some? {
          merged := merged + [Turn(currentStart, currentEnd, currentSpeaker.value)];
        }
        currentSpeaker := Some(f.speaker);
        currentStart := f.start;
        currentEnd := f.end;
      } else {
        currentEnd := f.end;
      }
    }
    assert frames[..|frames|] == frames;
    merged := merged + OpenTurn(currentSpeaker, currentStart, currentEnd);
  }

  /** There are no more turns than frames, and none exactly when there are no frames. */
  lemma {:induction false} CoalesceSize(frames: seq<Frame>)
    ensures |Coalesce(frames)| <= |frames|
    ensures Coalesce(frames) == [] <==> frames == []
  {
    if |frames| > 0 {
      CoalesceSize(frames[..|frames| - 1]);
    }
  }

  /** A non-empty list of frames of one speaker. */
  predicate IsRun(g: seq<Frame>) {
    |g| > 0 && forall j :: 0 <= j < |g| ==> g[j].speaker == g[0].speaker
  }

  /**
   * `groups` cuts `frames`, in order, into runs of one speaker each, and
   * neighbouring runs have different speakers: the runs are maximal.
   */
  predicate IsRunSplit(groups: seq<seq<Frame>>, frames: seq<Frame>) {
    && Flatten(groups) == frames
    && (forall k :: 0 <= k < |groups| ==> IsRun(groups[k]))
    && (forall k :: 0 <= k < |groups| - 1 ==> groups[k][0].speaker != groups[k + 1][0].speaker)
  }

  /** The turn a run makes: from the start of its first frame to the end of its last. */
  function Summary(g: seq<Frame>): Turn
    requires |g| > 0
  {
    Turn(g[0].start, g[|g| - 1].end, g[0].speaker)
  }

  /** The turn of every run, in order. */
  function Summaries(groups: seq<seq<Frame>>): (r: seq<Turn>)
    requires forall k :: 0 <= k < |groups| ==> |groups[k]| > 0
  {
    if groups == [] then []
    else
      var n := |groups| - 1;
      Summaries(groups[..n]) + [Summary(groups[n])]
  }

  /** Appending a run appends its turn. */
  lemma SummariesSnoc(groups: seq<seq<Frame>>, g: seq<Frame>)
    requires forall k :: 0 <= k < |groups| ==> |groups[k]| > 0
    requires |g| > 0
    ensures Summaries(groups + [g]) == Summaries(groups) + [Summary(g)]
  {
    assert (groups + [g])[..|groups|] == groups;
  }

  /** The turn at index `k` is the one run `k` makes. */
  lemma {:induction false} SummariesAt(groups: seq<seq<Frame>>)
    requires forall k :: 0 <= k < |groups| ==> |groups[k]| > 0
    ensures |Summaries(groups)| == |groups|
    ensures forall k :: 0 <= k < |groups| ==> Summaries(groups)[k] == Summary(groups[k])
  {
    if groups != [] {
      var n := |groups| - 1;
      SummariesAt(groups[..n]);
    }
  }

  /** Without a last run, the other runs split the frames before it. */
  lemma DropLastRun(frames: seq<Frame>, init: seq<seq<Frame>>, last: seq<Frame>)
    requires IsRunSplit(init + [last], frames)
    ensures frames == Flatten(init) + last
    ensures IsRunSplit(init, Flatten(init))
  {
    FlattenSnoc(init, last);
    var all := init + [last];
    assert forall k :: 0 <= k < |init| ==> all[k] == init[k];
  }

  /** Without its last frame, the last run still closes a split of what precedes. */
  lemma ShortenLastRun(init: seq<seq<Frame>>, shorter: seq<Frame>, x: Frame)
    requires IsRunSplit(init + [shorter + [x]], Flatten(init) + (shorter + [x])) && shorter != []
    ensures IsRunSplit(init + [shorter], Flatten(init) + shorter)
  {
    var all := init + [shorter + [x]];
    var all' := init + [shorter];
    FlattenSnoc(init, shorter);
    assert forall k :: 0 <= k < |init| ==> all[k] == init[k] == all'[k];
    assert all[|init|] == shorter + [x];
    assert IsRun(shorter + [x]);
    forall j | 0 <= j < |shorter|
      ensures shorter[j].speaker == shorter[0].speaker
    {
      assert (shorter + [x])[j] == shorter[j];
    }
    assert all'[|init|] == shorter;
  }

  /** The merge of one more frame is one more iteration. */
  lemma CoalesceSnoc(frames: seq<Frame>, x: Frame)
    ensures Coalesce(frames + [x]) == Absorb(Coalesce(frames), x)
  {
    assert (frames + [x])[..|frames|] == frames;
  }

  /** A last run of one frame adds its own turn after the turns of the other runs. */
  lemma SingletonRunStep(init: seq<seq<Frame>>, x: Frame)
    requires forall k :: 0 <= k < |init| ==> |init[k]| > 0
    requires init != [] ==> init[|init| - 1][0].speaker != x.speaker
    requires Coalesce(Flatten(init)) == Summaries(init)
    ensures Coalesce(Flatten(init) + [x]) == Summaries(init + [[x]])
  {
    CoalesceSnoc(Flatten(init), x);
    SummariesSnoc(init, [x]);
  }

  /** A last run of several frames: its last frame moves the end of the turn its other frames make. */
  lemma LongerRunStep(init: seq<seq<Frame>>, shorter: seq<Frame>, x: Frame)
    requires forall k :: 0 <= k < |init| ==> |init[k]| > 0
    requires shorter != [] && x.speaker == shorter[0].speaker
    requires Coalesce(Flatten(init) + shorter) == Summaries(init + [shorter])
    ensures Coalesce(Flatten(init) + shorter + [x]) == Summaries(init + [shorter + [x]])
  {
    CoalesceSnoc(Flatten(init) + shorter, x);
    SummariesSnoc(init, shorter);
    SummariesSnoc(init, shorter + [x]);
    AbsorbSameSpeaker(Summaries(init), Summary(shorter), x);
    assert Summary(shorter).(end := x.end) == Summary(shorter + [x]);
  }

  /** A frame of the open turn's speaker only moves that turn's end. */
  lemma AbsorbSameSpeaker(head: seq<Turn>, t: Turn, x: Frame)
    requires t.speaker == x.speaker
    ensures Absorb(head + [t], x) == head + [t.(end := x.end)]
  {
    assert (head + [t])[..|head|] == head;
  }

  /**
   * Whatever maximal-run split the frames have, the merge yields exactly one
   * turn per run, spanning it: so the split is unique and the merge is it.
   */
  lemma {:induction false} CoalesceSummarisesRuns(frames: seq<Frame>, groups: seq<seq<Frame>>)
    requires IsRunSplit(groups, frames)
    ensures Coalesce(frames) == Summaries(groups)
    decreases |frames|
  {
    if groups == [] {
      return;
    }
    var n := |groups| - 1;
    var init, last := groups[..n], groups[n];
    assert groups == init + [last];
    DropLastRun(frames, init, last);
    assert forall k :: 0 <= k < |init| ==> init[k] == groups[k];
    var x := last[|last| - 1];
    if |last| == 1 {
      assert last == [x];
      CoalesceSummarisesRuns(Flatten(init), init);
      assert n > 0 ==> init[n - 1][0].speaker != x.speaker;
      SingletonRunStep(init, x);
    } else {
      var shorter := last[..|last| - 1];
      assert last == shorter + [x];
      assert frames == Flatten(init) + shorter + [x];
      ShortenLastRun(init, shorter, x);
      CoalesceSummarisesRuns(Flatten(init) + shorter, init + [shorter]);
      assert x.speaker == last[0].speaker == shorter[0].speaker;
      LongerRunStep(init, shorter, x);
    }
  }

  /** One more frame extends a maximal-run split: it joins the last run or opens one. */
  lemma ExtendRuns(prefix: seq<Frame>, groups: seq<seq<Frame>>, x: Frame) returns (groups': seq<seq<Frame>>)
    requires IsRunSplit(groups, prefix)
    ensures IsRunSplit(groups', prefix + [x])
  {
    if |groups| > 0 && groups[|groups| - 1][0].speaker == x.speaker {
      var n := |groups| - 1;
      groups' := groups[..n] + [groups[n] + [x]];
      assert groups[..n] + [groups[n]] == groups;
      FlattenSnoc(groups[..n], groups[n]);
      FlattenSnoc(groups[..n], groups[n] + [x]);
      assert forall k :: 0 <= k < |groups'| ==> groups'[k][0] == groups[k][0];
    } else {
      groups' := groups + [[x]];
      FlattenSnoc(groups, [x]);
    }
  }

  /** Every frame list has a maximal-run split, and its turns are the merge. */
  lemma {:induction false} CoalesceHasRuns(frames: seq<Frame>)
    ensures exists groups :: IsRunSplit(groups, frames) && Coalesce(frames) == Summaries(groups)
    decreases |frames|
  {
    if frames == [] {
      assert IsRunSplit([], frames);
      assert Coalesce(frames) == Summaries([]);
      return;
    }
    var prefix := frames[..|frames| - 1];
    assert frames == prefix + [frames[|frames| - 1]];
    CoalesceHasRuns(prefix);
    var groups: seq<seq<Frame>> :| IsRunSplit(groups, prefix);
    var groups' := ExtendRuns(prefix, groups, frames[|frames| - 1]);
    CoalesceSummarisesRuns(frames, groups');
  }

  /** Consecutive turns always have different speakers. */
  lemma CoalesceAlternates(frames: seq<Frame>)
    ensures var turns := Coalesce(frames);
      forall k :: 0 <= k < |turns| - 1 ==> turns[k].speaker != turns[k + 1].speaker
  {
    CoalesceHasRuns(frames);
    var groups :| IsRunSplit(groups, frames) && Coalesce(frames) == Summaries(groups);
    SummariesAt(groups);
  }

  /** Every frame starts no later than it ends, and frames come in order of start time. */
  predicate FramesOrdered(frames: seq<Frame>) {
    && (forall j :: 0 <= j < |frames| ==> frames[j].start <= frames[j].end)
    && (forall j :: 0 <= j < |frames| - 1 ==> frames[j].start <= frames[j + 1].start)
  }

  /** Every turn starts no later than it ends, and turns come in order of start time. */
  predicate TurnsOrdered(turns: seq<Turn>) {
    && (forall k :: 0 <= k < |turns| ==> turns[k].start <= turns[k].end)
    && (forall k :: 0 <= k < |turns| - 1 ==> turns[k].start <= turns[k + 1].start)
  }

  /** One iteration keeps the turns ordered when the frame starts no earlier than the open turn. */
  lemma AbsorbOrdered(turns: seq<Turn>, x: Frame)
    requires TurnsOrdered(turns) && x.start <= x.end
    requires turns != [] ==> turns[|turns| - 1].start <= x.start
    ensures var turns' := Absorb(turns, x);
      TurnsOrdered(turns') && turns'[|turns'| - 1].start <= x.start
  {
  }

  /**
   * Frames in order of start time give turns in order of start time, each
   * starting no later than it ends.
   */
  lemma {:induction false} CoalesceOrdered(frames: seq<Frame>)
    requires FramesOrdered(frames)
    ensures var turns := Coalesce(frames);
      && TurnsOrdered(turns)
      && (turns != [] ==> turns[|turns| - 1].start <= frames[|frames| - 1].start)
    decreases |frames|
  {
    if |frames| > 0 {
      var prefix := frames[..|frames| - 1];
      var x := frames[|frames| - 1];
      assert FramesOrdered(prefix);
      CoalesceOrdered(prefix);
      CoalesceSize(prefix);
      if |prefix| > 0 {
        assert prefix[|prefix| - 1].start <= x.start;
      }
      AbsorbOrdered(Coalesce(prefix), x);
    }
  }

  /** A speaker who comes back after another one gets a new turn: A, A, B, A makes three turns. */
  lemma ReturningSpeakerNotMerged(a: Label, b: Label)
    requires a != b
    ensures Coalesce([Frame(0.0, 1.0, a), Frame(1.0, 2.0, a), Frame(2.0, 3.0, b), Frame(3.0, 4.0, a)])
      == [Turn(0.0, 2.0, a), Turn(2.0, 3.0, b), Turn(3.0, 4.0, a)]
  {
    var frames := [Frame(0.0, 1.0, a), Frame(1.0, 2.0, a), Frame(2.0, 3.0, b), Frame(3.0, 4.0, a)];
    assert frames[..1][..0] == [];
    assert Coalesce(frames[..1]) == [Turn(0.0, 1.0, a)];
    assert frames[..2][..1] == frames[..1];
    assert Coalesce(frames[..2]) == [Turn(0.0, 2.0, a)];
    assert frames[..3][..2] == frames[..2];
    assert Coalesce(frames[..3]) == [Turn(0.0, 2.0, a), Turn(2.0, 3.0, b)];
    assert frames == frames[..3] + [frames[3]];
    CoalesceSnoc(frames[..3], frames[3]);
  }
}
