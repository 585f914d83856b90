/** The journal page (src/pages/Journal.tsx): the average mood, the emotion
    bars, the emoji of a score, and the form handler with its tag parsing. */
module JournalPage {
  import opened Common
  import opened Text
  import Journal

  /** `e.mood_score || 3`: a missing or zero score counts as 3. */
  function ScoreOrThree(m: Option<int>): int {
    if NonZero(m) then m.value else 3
  }

  function ScoreSum(es: seq<Journal.JournalEntry>): int {
    if es == [] then 0 else ScoreSum(es[..|es| - 1]) + ScoreOrThree(es[|es| - 1].moodScore)
  }

  /** `avgMood`: round(mean score * 20), 0 without entries. */
  function AvgMood(es: seq<Journal.JournalEntry>): int {
    if |es| > 0 then RoundDiv(20 * ScoreSum(es), |es|) else 0
  }

  /** A stored score of 0 to 5, or none. */
  predicate FormScore(m: Option<int>) {
    m.None? || 0 <= m.value <= 5
  }

  lemma {:induction false} ScoreSumBounds(es: seq<Journal.JournalEntry>)
    requires forall k :: 0 <= k < |es| ==> FormScore(es[k].moodScore)
    ensures |es| <= ScoreSum(es) <= 5 * |es|
  {
    if es != [] {
      ScoreSumBounds(es[..|es| - 1]);
      assert FormScore(es[|es| - 1].moodScore);
    }
  }

  lemma {:induction false} ScoreSumUnscored(es: seq<Journal.JournalEntry>)
    requires forall k :: 0 <= k < |es| ==> !NonZero(es[k].moodScore)
    ensures ScoreSum(es) == 3 * |es|
  {
    if es != [] {
      ScoreSumUnscored(es[..|es| - 1]);
    }
  }

  /** With scores of at most 5, the average mood of a non-empty journal lies
      between 20 and 100, and a journal without scores shows 60. */
  lemma AvgMoodBounds(es: seq<Journal.JournalEntry>)
    requires forall k :: 0 <= k < |es| ==> FormScore(es[k].moodScore)
    ensures es == [] ==> AvgMood(es) == 0
    ensures es != [] ==> 20 <= AvgMood(es) <= 100
    ensures es != [] && (forall k :: 0 <= k < |es| ==> !NonZero(es[k].moodScore)) ==> AvgMood(es) == 60
  {
    if es != [] {
      ScoreSumBounds(es);
      RoundDivBounds(20 * ScoreSum(es), |es|, 20, 100);
      if forall k :: 0 <= k < |es| ==> !NonZero(es[k].moodScore) {
        ScoreSumUnscored(es);
        RoundDivBounds(20 * ScoreSum(es), |es|, 60, 60);
      }
    }
  }

  /** The three emotion bars: Bahagia, Tenang and Cemas. */
  datatype Emotions = Emotions(happy: int, calm: int, anxious: int)

  function EmotionsOf(avg: int): (r: Emotions)
    ensures r.happy == avg
    ensures r.calm >= 0 && r.anxious >= 0
    ensures avg >= 10 ==> r.calm == avg - 10
    ensures avg <= 100 ==> r.anxious == 100 - avg
  {
    Emotions(avg, if avg - 10 > 0 then avg - 10 else 0, if 100 - avg > 0 then 100 - avg else 0)
  }

  /** The bars never go below 0 and, for an average between 10 and 100,
      Tenang and Cemas add up to 90. */
  lemma EmotionsAddUp(avg: int)
    requires 10 <= avg <= 100
    ensures EmotionsOf(avg).calm + EmotionsOf(avg).anxious == 90
  {
  }

  datatype MoodOption = MoodOption(emoji: string, name: string, score: int)

  const Happy: string := "\U{1F60A}"

  const MoodOptions: seq<MoodOption> := [
    MoodOption(Happy, "Bahagia", 5),
    MoodOption("\U{1F970}", "Cinta", 5),
    MoodOption("\U{1F60C}", "Tenang", 4),
    MoodOption("\U{1F610}", "Biasa", 3),
    MoodOption("\U{1F614}", "Sedih", 2),
    MoodOption("\U{1F630}", "Cemas", 1)]

  /** `moodOptions.find(m => m.score === score)`: the first option with that score. */
  function FindOption(opts: seq<MoodOption>, score: int): (r: Option<nat>)
    ensures r.Some? ==> r.value < |opts| && opts[r.value].score == score
    ensures r.Some? ==> forall k :: 0 <= k < r.value ==> opts[k].score != score
    ensures r.None? ==> forall k :: 0 <= k < |opts| ==> opts[k].score != score
  {
    if opts == [] then None
    else if opts[0].score == score then Some(0)
    else
      var rest := FindOption(opts[1..], score);
      if rest.None? then None else Some(rest.value + 1)
  }

  /** `getMoodEmoji`: the happy face for no score, and for a score no option
      has; otherwise the emoji of the first option with that score. */
  function MoodEmoji(score: Option<int>): string {
    if !NonZero(score) then Happy
    else
      var i := FindOption(MoodOptions, score.value);
      if i.Some? && MoodOptions[i.value].emoji != "" then MoodOptions[i.value].emoji else Happy
  }

  /** Scores 1 to 4 get their own emoji; 5 gets the happy face, never the
      loving one listed after it; anything else gets the happy face. */
  lemma MoodEmojiCases(score: Option<int>)
    ensures score == Some(5) ==> MoodEmoji(score) == Happy
    ensures score == Some(4) ==> MoodEmoji(score) == MoodOptions[2].emoji
    ensures score == Some(3) ==> MoodEmoji(score) == MoodOptions[3].emoji
    ensures score == Some(2) ==> MoodEmoji(score) == MoodOptions[4].emoji
    ensures score == Some(1) ==> MoodEmoji(score) == MoodOptions[5].emoji
    ensures MoodEmoji(score) != MoodOptions[1].emoji
    ensures !(score.Some? && 1 <= score.value <= 5) ==> MoodEmoji(score) == Happy
  {
    if NonZero(score) {
      var i := FindOption(MoodOptions, score.value);
      if i.Some? {
        assert MoodOptions[0].score == 5;
        assert i.value != 1;
        assert MoodOptions[i.value].emoji != MoodOptions[1].emoji;
      }
      if score.value == 4 {
        assert MoodOptions[2].score == 4;
      } else if score.value == 3 {
        assert MoodOptions[3].score == 3;
      } else if score.value == 2 {
        assert MoodOptions[4].score == 2;
      } else if score.value == 1 {
        assert MoodOptions[5].score == 1;
      }
    }
  }

  /** The tags field: a non-empty field split at commas, each piece trimmed;
      an empty field gives no tags. */
  function ParseTags(field: string): (r: Option<seq<string>>)
    ensures r.None? <==> field == ""
    ensures r.Some? ==> |r.value| == |Split(field, ',')|
    ensures r.Some? ==> forall k :: 0 <= k < |r.value| ==> r.value[k] == Trim(Split(field, ',')[k])
  {
    if field == "" then None
    else
      var pieces := Split(field, ',');
      Some(seq(|pieces|, (k: int) requires 0 <= k < |pieces| => Trim(pieces[k])))
  }

  /** Each tag is a piece of the field between commas with the white space
      around it removed: it holds no comma and neither starts nor ends with
      white space. */
  lemma TagsClean(field: string)
    requires field != ""
    ensures forall k :: 0 <= k < |ParseTags(field).value| ==>
      var t := ParseTags(field).value[k];
      && ',' !in t
      && (t == [] || (!IsSpace(t[0]) && !IsSpace(t[|t| - 1])))
  {
    var pieces := Split(field, ',');
    var tags := ParseTags(field).value;
    SplitPiecesFree(field, ',');
    forall k | 0 <= k < |tags|
      ensures ',' !in tags[k]
      ensures tags[k] == [] || (!IsSpace(tags[k][0]) && !IsSpace(tags[k][|tags[k]| - 1]))
    {
      TrimIsSlice(pieces[k]);
      TrimLeavesNoOuterSpace(pieces[k]);
      var p := pieces[k];
      var a := Lead(p);
      assert tags[k] == p[a..a + |tags[k]|];
      assert ',' !in p;
      SliceFree(p, a, a + |tags[k]|, ',');
    }
  }

  lemma SliceFree(p: string, a: nat, b: nat, x: char)
    requires a <= b <= |p| && x !in p
    ensures x !in p[a..b]
  {
    forall j | 0 <= j < b - a ensures p[a..b][j] != x {
      assert p[a..b][j] == p[a + j];
    }
  }

  datatype EntryForm = EntryForm(content: string, gratitude: string, moodScore: int, tags: string)

  const EmptyForm: EntryForm := EntryForm("", "", 5, "")

  /** The argument `handleSubmit` passes to `addEntry`: an empty gratitude is
      left out, the score is passed as chosen, the tags are parsed. */
  function FormInput(f: EntryForm): Journal.EntryInput {
    Journal.EntryInput(f.content, Some(f.moodScore),
      if f.gratitude != "" then Some(f.gratitude) else None, ParseTags(f.tags))
  }

  /** The row the form inserts: no gratitude and no tags when their fields
      are empty, and no score when the chosen one is 0. */
  lemma FormRow(userId: string, coupleId: string, f: EntryForm)
    ensures var r := Journal.NewEntryRow(userId, coupleId, FormInput(f));
      && r.content == f.content
      && (r.gratitude.None? <==> f.gratitude == "")
      && (r.tags.None? <==> f.tags == "")
      && (r.moodScore.None? <==> f.moodScore == 0)
  {
  }

  /** The page's form and dialog state. */
  class JournalPageState {
    var showAddDialog: bool
    var deleteId: Option<string>
    var saving: bool
    var form: EntryForm

    constructor ()
      ensures !showAddDialog && deleteId.None? && !saving && form == EmptyForm
    {
      showAddDialog := false;
      deleteId := None;
      saving := false;
      form := EmptyForm;
    }

    /** `handleSubmit`: empty content submits nothing. Otherwise the form's
        entry is submitted and saving ends; when `addEntry` answers true the
        dialog closes and the form is reset, otherwise both stay. */
    method HandleSubmit(added: bool) returns (submitted: Option<Journal.EntryInput>)
      modifies this
      ensures deleteId == old(deleteId)
      ensures old(form).content == "" ==> submitted.None? && showAddDialog == old(showAddDialog) && saving == old(saving) && form == old(form)
      ensures old(form).content != "" ==> submitted == Some(FormInput(old(form))) && !saving
      ensures old(form).content != "" && added ==> !showAddDialog && form == EmptyForm
      ensures old(form).content != "" && !added ==> showAddDialog == old(showAddDialog) && form == old(form)
    {
      if form.content == "" {
        return None;
      }
      saving := true;
      submitted := Some(FormInput(form));
      saving := false;
      if added {
        showAddDialog := false;
        form := EmptyForm;
      }
    }

    /** `handleDelete`: without a pending id nothing happens; otherwise that
        entry is deleted and the id cleared. */
    method HandleDelete() returns (deleted: Option<string>)
      modifies this
      ensures showAddDialog == old(showAddDialog) && saving == old(saving) && form == old(form)
      ensures !Given(old(deleteId)) ==> deleted.None? && deleteId == old(deleteId)
      ensures Given(old(deleteId)) ==> deleted == old(deleteId) && deleteId.None?
    {
      if !Given(deleteId) {
        return None;
      }
      deleted := deleteId;
      deleteId := None;
    }
  }
}
