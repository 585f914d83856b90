/** The goals page (src/pages/Goals.tsx): each goal's progress, the badges,
    and the form handlers. */
module GoalsPage {
  import opened Common
  import Goals

  /** `Math.round(n / d)` for any non-zero divisor: the ratio rounded half up. */
  function RoundQuot(n: int, d: int): (r: int)
    requires d != 0
    ensures d > 0 ==> 2 * d * r - d <= 2 * n < 2 * d * r + d
    ensures d < 0 ==> 2 * (-d) * r + d <= -2 * n < 2 * (-d) * r - d
  {
    if d > 0 then RoundDiv(n, d) else RoundDiv(-n, -d)
  }

  /** A goal's progress: `round(current / target * 100)` when the target is
      truthy (any non-zero amount, negative ones included), 0 otherwise.
      Nothing caps it at 100. */
  function Progress(g: Goals.Goal): int {
    if NonZero(g.targetAmount) then RoundQuot(100 * g.currentAmount, g.targetAmount.value) else 0
  }

  /** Without a target, progress is 0; for a truthy target, no saving gives
      0, a reached target 100, and a target saved twice over 200. */
  lemma ProgressCases(g: Goals.Goal)
    ensures !NonZero(g.targetAmount) ==> Progress(g) == 0
    ensures NonZero(g.targetAmount) && g.currentAmount == 0 ==> Progress(g) == 0
    ensures NonZero(g.targetAmount) && g.currentAmount == g.targetAmount.value ==> Progress(g) == 100
    ensures NonZero(g.targetAmount) && g.currentAmount == 2 * g.targetAmount.value ==> Progress(g) == 200
  {
    if NonZero(g.targetAmount) {
      var t := g.targetAmount.value;
      var c := g.currentAmount;
      var n, d := if t > 0 then 100 * c else -100 * c, if t > 0 then t else -t;
      assert Progress(g) == RoundDiv(n, d);
      if c == 0 {
        RoundDivUnique(n, d, 0);
      }
      if c == t {
        assert n == 100 * d;
        RoundDivUnique(n, d, 100);
      }
      if c == 2 * t {
        assert n == 200 * d;
        RoundDivUnique(n, d, 200);
      }
    }
  }

  /** Progress between nothing and a positive target lies between 0 and 100. */
  lemma ProgressBounds(g: Goals.Goal)
    requires NonZero(g.targetAmount) && g.targetAmount.value > 0
    requires 0 <= g.currentAmount <= g.targetAmount.value
    ensures 0 <= Progress(g) <= 100
  {
    RoundDivBounds(100 * g.currentAmount, g.targetAmount.value, 0, 100);
  }

  /** The progress bar is drawn exactly for the goals with a truthy target. */
  predicate ShowsProgressBar(g: Goals.Goal) {
    NonZero(g.targetAmount)
  }

  /** The four badges: a first goal, a completed goal, some money saved, and
      one that is never earned. */
  datatype Badges = Badges(firstGoal: bool, masterStreak: bool, greatSaver: bool, habitHero: bool)

  function EarnedBadges(goals: seq<Goals.Goal>): (r: Badges)
    ensures r.firstGoal <==> goals != []
    ensures r.masterStreak <==> exists k :: 0 <= k < |goals| && goals[k].status == "completed"
    ensures r.greatSaver <==> exists k :: 0 <= k < |goals| && goals[k].currentAmount > 0
    ensures !r.habitHero
  {
    var completed := Filter(goals, (g: Goals.Goal) => g.status == "completed");
    assert |completed| > 0 ==> completed[0] in goals;
    Badges(|goals| > 0, |completed| > 0,
      exists k :: 0 <= k < |goals| && goals[k].currentAmount > 0, false)
  }

  /** Either of the two later badges needs the first one. */
  lemma LaterBadgesNeedFirst(goals: seq<Goals.Goal>)
    ensures EarnedBadges(goals).masterStreak || EarnedBadges(goals).greatSaver ==> EarnedBadges(goals).firstGoal
  {
  }

  datatype GoalForm = GoalForm(title: string, description: string, icon: string, targetAmount: string)

  const EmptyForm: GoalForm := GoalForm("", "", Goals.DefaultIcon, "")

  /** The argument `handleSubmit` passes to `addGoal`; `parsed` is what
      `parseFloat` makes of the amount field, which counts only when the
      field is non-empty. */
  function FormInput(f: GoalForm, parsed: int): Goals.GoalInput {
    Goals.GoalInput(f.title, Some(f.description), Some(f.icon),
      if f.targetAmount != "" then Some(parsed) else None, None)
  }

  /** The row the form inserts: no description when the field is empty, no
      target when the amount field is empty or parses to 0, never a target
      date, and the default icon in place of an empty one. */
  lemma FormRow(coupleId: string, f: GoalForm, parsed: int)
    ensures var r := Goals.NewGoalRow(coupleId, FormInput(f, parsed));
      && r.title == f.title
      && (r.description.None? <==> f.description == "")
      && (r.targetAmount.None? <==> f.targetAmount == "" || parsed == 0)
      && (r.targetAmount.Some? ==> r.targetAmount.value == parsed)
      && r.targetDate.None?
      && r.icon == (if f.icon != "" then f.icon else Goals.DefaultIcon)
  {
  }

  /** The page's form and dialog state. */
  class GoalsPageState {
    var showAddDialog: bool
    var deleteId: Option<string>
    var saving: bool
    var form: GoalForm

    constructor ()
      ensures !showAddDialog && deleteId.None? && !saving && form == EmptyForm
    {
      showAddDialog := false;
      deleteId := None;
      saving := false;
      form := EmptyForm;
    }

    /** `handleSubmit`: an empty title submits nothing. Otherwise the form's
        goal is submitted and saving ends; when `addGoal` answers true the
        dialog closes and the form is reset, otherwise both stay. */
    method HandleSubmit(parsed: int, added: bool) returns (submitted: Option<Goals.GoalInput>)
      modifies this
      ensures deleteId == old(deleteId)
      ensures old(form).title == "" ==> submitted.None? && showAddDialog == old(showAddDialog) && saving == old(saving) && form == old(form)
      ensures old(form).title != "" ==> submitted == Some(FormInput(old(form), parsed)) && !saving
      ensures old(form).title != "" && added ==> !showAddDialog && form == EmptyForm
      ensures old(form).title != "" && !added ==> showAddDialog == old(showAddDialog) && form == old(form)
    {
      if form.title == "" {
        return None;
      }
      saving := true;
      submitted := Some(FormInput(form, parsed));
      saving := false;
      if added {
        showAddDialog := false;
        form := EmptyForm;
      }
    }

    /** `handleDelete`: without a pending id nothing happens; otherwise that
        goal is deleted and the id cleared. */
    method HandleDelete() returns (deleted: Option<string>)
      modifies this
      ensures showAddDialog == old(showAddDialog) && saving == old(saving) && form == old(form)
      ensures !Given(old(deleteId)) ==> deleted.None? && deleteId == old(deleteId)
      ensures Given(old(deleteId)) ==> deleted == old(deleteId) && deleteId.None?
    {
      if !Given(deleteId) {
        return None;
      }
      deleted := deleteId;
      deleteId := None;
    }
  }
}
