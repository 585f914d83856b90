/** The goal replica of one couple (src/hooks/useGoals.tsx): a fetch that
    replaces the list, and insert, update and delete calls that reload it once
    the service acknowledges them. */
module Goals {
  import opened Common
  import opened Realtime

  /** Amounts are whole rupiah; `targetDate` is the date as the form gave it. */
  datatype Goal = Goal(
    id: string, coupleId: string, title: string, description: Option<string>,
    icon: string, targetAmount: Option<int>, currentAmount: int,
    targetDate: Option<string>, status: string, createdAt: string)

  /** The argument of `addGoal`; absent fields are None. */
  datatype GoalInput = GoalInput(
    title: string, description: Option<string>, icon: Option<string>,
    targetAmount: Option<int>, targetDate: Option<string>)

  /** The row `addGoal` inserts. */
  datatype GoalRow = GoalRow(
    coupleId: string, title: string, description: Option<string>, icon: string,
    targetAmount: Option<int>, targetDate: Option<string>)

  /** The icon used when none is given (U+1F3AF, a direct hit). */
  const DefaultIcon: string := "\U{1F3AF}"

  /** The row of `addGoal`: falsy description, target amount (0 included)
      and target date become null, a falsy icon becomes the default; anything
      truthy is kept. */
  function NewGoalRow(coupleId: string, g: GoalInput): (r: GoalRow)
    ensures r.coupleId == coupleId && r.title == g.title
    ensures r.description.None? <==> !Given(g.description)
    ensures r.targetAmount.None? <==> !NonZero(g.targetAmount)
    ensures r.targetDate.None? <==> !Given(g.targetDate)
    ensures r.description.Some? ==> r.description == g.description
    ensures r.targetAmount.Some? ==> r.targetAmount == g.targetAmount && r.targetAmount.value != 0
    ensures r.targetDate.Some? ==> r.targetDate == g.targetDate
    ensures r.icon == (if Given(g.icon) then g.icon.value else DefaultIcon)
  {
    GoalRow(coupleId, g.title, StringOrNull(g.description),
      if Given(g.icon) then g.icon.value else DefaultIcon,
      NumberOrNull(g.targetAmount), StringOrNull(g.targetDate))
  }

  /** The replica of `useGoals`. */
  class GoalStore {
    var coupleId: Option<string>
    var goals: seq<Goal>
    var loading: bool

    constructor (coupleId: Option<string>)
      ensures this.coupleId == coupleId && goals == [] && loading
    {
      this.coupleId := coupleId;
      goals := [];
      loading := true;
    }

    /** The bound couple changed; the list is kept and fetched again when
        the id changed. */
    method SetScope(coupleId: Option<string>) returns (reload: bool)
      modifies this
      ensures this.coupleId == coupleId && goals == old(goals) && loading == old(loading)
      ensures reload == (coupleId != old(this.coupleId))
    {
      reload := coupleId != this.coupleId;
      this.coupleId := coupleId;
    }

    /** `fetchGoals`: nothing happens without a couple or on an error; a
        successful query replaces the list and ends loading. */
    method FetchGoals(result: Fetch<Goal>)
      modifies this
      ensures coupleId == old(coupleId)
      ensures Given(coupleId) && result.Rows? ==> goals == result.rows && !loading
      ensures !(Given(coupleId) && result.Rows?) ==> goals == old(goals) && loading == old(loading)
    {
      if !Given(coupleId) {
        return;
      }
      if result.FetchError? {
        return;
      }
      goals := result.rows;
      loading := false;
    }

    /** `addGoal`: without a couple nothing is inserted or answered;
        otherwise the answer says whether the insert was accepted, and the
        list is reloaded only then. */
    method AddGoal(g: GoalInput, reply: Mutation)
      returns (request: Option<GoalRow>, outcome: Option<bool>, reload: bool)
      ensures !Given(coupleId) ==> request.None? && outcome.None? && !reload
      ensures Given(coupleId) ==>
        && request == Some(NewGoalRow(coupleId.value, g))
        && outcome == Some(reply.Ack?) && reload == reply.Ack?
    {
      if !Given(coupleId) {
        return None, None, false;
      }
      request := Some(NewGoalRow(coupleId.value, g));
      outcome := Some(reply.Ack?);
      reload := reply.Ack?;
    }

    /** `updateGoal`: the update of that goal goes to the service and the
        patch is never applied locally; true and a reload on success, false
        and no reload on an error. */
    method UpdateGoal(id: string, reply: Mutation) returns (request: RowRequest, ok: bool, reload: bool)
      ensures request == UpdateRow("goals", id)
      ensures ok == reply.Ack? && reload == ok
    {
      request := UpdateRow("goals", id);
      ok := reply.Ack?;
      reload := ok;
    }

    /** `deleteGoal`: the delete of that goal is issued; the answer and
        the reload are as for UpdateGoal. */
    method DeleteGoal(id: string, reply: Mutation) returns (request: RowRequest, ok: bool, reload: bool)
      ensures request == DeleteRow("goals", id)
      ensures ok == reply.Ack? && reload == ok
    {
      request := DeleteRow("goals", id);
      ok := reply.Ack?;
      reload := ok;
    }

    /** The realtime callback: while a couple is bound, any change on
        `goals` reloads the list. */
    method OnChange(c: Change) returns (reload: bool)
      ensures reload == (Given(coupleId) && c.table == "goals")
    {
      TableChannelReceives("goals", coupleId, false, c);
      reload := Receives(TableChannel("goals", coupleId, false), c);
    }
  }
}
