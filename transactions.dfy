/** The money replica of one couple (src/hooks/useTransactions.tsx): the
    couple's transactions, the mutations that reload them, and the income,
    expense and balance figures derived from them. Amounts are whole rupiah. */
module Transactions {
  import opened Common
  import opened Realtime

  datatype TxKind = Income | Expense

  /** `transactionDate` is a day number (days since 1970-01-01). */
  datatype Transaction = Transaction(
    id: string, coupleId: string, userId: string, amount: int, kind: TxKind,
    category: string, description: Option<string>, transactionDate: int, createdAt: string)

  /** The argument of `addTransaction`. */
  datatype TransactionInput = TransactionInput(
    amount: int, kind: TxKind, category: string, description: Option<string>)

  /** The row `addTransaction` inserts. */
  datatype TransactionRow = TransactionRow(
    coupleId: string, userId: string, amount: int, kind: TxKind,
    category: string, description: Option<string>)

  /** The sum of the amounts, as the `reduce` of the source. */
  function SumAmounts(ts: seq<Transaction>): int {
    if ts == [] then 0 else SumAmounts(ts[..|ts| - 1]) + ts[|ts| - 1].amount
  }

  lemma {:induction false} SumAmountsAppend(a: seq<Transaction>, b: seq<Transaction>)
    ensures SumAmounts(a + b) == SumAmounts(a) + SumAmounts(b)
    decreases |b|
  {
    if b != [] {
      assert (a + b)[..|a + b| - 1] == a + b[..|b| - 1];
      SumAmountsAppend(a, b[..|b| - 1]);
    } else {
      assert a + b == a;
    }
  }

  predicate IsIncome(t: Transaction) { t.kind == Income }

  predicate IsExpense(t: Transaction) { t.kind == Expense }

  /** `totalIncome`: the amounts of the income transactions, added up. */
  function TotalIncome(ts: seq<Transaction>): int {
    SumAmounts(Filter(ts, IsIncome))
  }

  /** `totalExpense`: the amounts of the expense transactions, added up. */
  function TotalExpense(ts: seq<Transaction>): int {
    SumAmounts(Filter(ts, IsExpense))
  }

  /** `balance`. */
  function Balance(ts: seq<Transaction>): int {
    TotalIncome(ts) - TotalExpense(ts)
  }

  /** Both totals are additive over concatenation; with the one-element case
      below this determines them: an income adds its amount to the income
      total only, an expense to the expense total only. */
  lemma TotalsAppend(a: seq<Transaction>, b: seq<Transaction>)
    ensures TotalIncome(a + b) == TotalIncome(a) + TotalIncome(b)
    ensures TotalExpense(a + b) == TotalExpense(a) + TotalExpense(b)
    ensures Balance(a + b) == Balance(a) + Balance(b)
  {
    FilterAppend(a, b, IsIncome);
    FilterAppend(a, b, IsExpense);
    SumAmountsAppend(Filter(a, IsIncome), Filter(b, IsIncome));
    SumAmountsAppend(Filter(a, IsExpense), Filter(b, IsExpense));
  }

  lemma TotalsOne(t: Transaction)
    ensures TotalIncome([t]) == (if t.kind == Income then t.amount else 0)
    ensures TotalExpense([t]) == (if t.kind == Expense then t.amount else 0)
  {
    assert [t][1..] == [] && SumAmounts([t]) == t.amount;
    if t.kind == Income {
      assert Filter([t], IsIncome) == [t] && Filter([t], IsExpense) == [];
    } else {
      assert Filter([t], IsExpense) == [t] && Filter([t], IsIncome) == [];
    }
  }

  /** Recording an expense of amount a raises the expense total by a, lowers
      the balance by a and leaves the income total as it was. */
  lemma AppendExpense(ts: seq<Transaction>, e: Transaction)
    requires e.kind == Expense
    ensures TotalExpense(ts + [e]) == TotalExpense(ts) + e.amount
    ensures TotalIncome(ts + [e]) == TotalIncome(ts)
    ensures Balance(ts + [e]) == Balance(ts) - e.amount
  {
    TotalsAppend(ts, [e]);
    TotalsOne(e);
  }

  /** The mirror image for an income. */
  lemma AppendIncome(ts: seq<Transaction>, t: Transaction)
    requires t.kind == Income
    ensures TotalIncome(ts + [t]) == TotalIncome(ts) + t.amount
    ensures TotalExpense(ts + [t]) == TotalExpense(ts)
    ensures Balance(ts + [t]) == Balance(ts) + t.amount
  {
    TotalsAppend(ts, [t]);
    TotalsOne(t);
  }

  /** The row `addTransaction` inserts: both ids stamped, an empty
      description stored as null. */
  function NewTransactionRow(userId: string, coupleId: string, t: TransactionInput): (r: TransactionRow)
    ensures r.userId == userId && r.coupleId == coupleId
    ensures r.amount == t.amount && r.kind == t.kind && r.category == t.category
    ensures r.description.None? <==> !Given(t.description)
    ensures r.description.Some? ==> r.description == t.description
  {
    TransactionRow(coupleId, userId, t.amount, t.kind, t.category, StringOrNull(t.description))
  }

  /** The replica of `useTransactions`. */
  class TransactionStore {
    var userId: Option<string>
    var coupleId: Option<string>
    var transactions: seq<Transaction>
    var loading: bool

    constructor (userId: Option<string>, coupleId: Option<string>)
      ensures this.userId == userId && this.coupleId == coupleId
      ensures transactions == [] && loading
    {
      this.userId := userId;
      this.coupleId := coupleId;
      transactions := [];
      loading := true;
    }

    /** The session changed; the list is kept and is fetched again when the
        couple id changed. */
    method SetScope(userId: Option<string>, coupleId: Option<string>) returns (reload: bool)
      modifies this
      ensures this.userId == userId && this.coupleId == coupleId
      ensures transactions == old(transactions) && loading == old(loading)
      ensures reload == (coupleId != old(this.coupleId))
    {
      reload := coupleId != this.coupleId;
      this.userId := userId;
      this.coupleId := coupleId;
    }

    /** `fetchTransactions`: nothing happens without a couple or on an error;
        a successful query replaces the list and ends loading. */
    method FetchTransactions(result: Fetch<Transaction>)
      modifies this
      ensures userId == old(userId) && coupleId == old(coupleId)
      ensures Given(coupleId) && result.Rows? ==> transactions == result.rows && !loading
      ensures !(Given(coupleId) && result.Rows?) ==>
        transactions == old(transactions) && loading == old(loading)
    {
      if !Given(coupleId) {
        return;
      }
      if result.FetchError? {
        return;
      }
      transactions := result.rows;
      loading := false;
    }

    /** `addTransaction`: without a user or a couple nothing is inserted or
        answered; otherwise the row is inserted and the answer says whether
        the service accepted it, the list being reloaded only then. */
    method AddTransaction(t: TransactionInput, reply: Mutation)
      returns (request: Option<TransactionRow>, outcome: Option<bool>, reload: bool)
      ensures !(Given(userId) && Given(coupleId)) ==> request.None? && outcome.None? && !reload
      ensures Given(userId) && Given(coupleId) ==>
        && request == Some(NewTransactionRow(userId.value, coupleId.value, t))
        && outcome == Some(reply.Ack?) && reload == reply.Ack?
    {
      if !(Given(userId) && Given(coupleId)) {
        return None, None, false;
      }
      request := Some(NewTransactionRow(userId.value, coupleId.value, t));
      outcome := Some(reply.Ack?);
      reload := reply.Ack?;
    }

    /** `deleteTransaction`: the delete of that transaction is issued; true
        and a reload on success, false and no reload on an error. */
    method DeleteTransaction(id: string, reply: Mutation) returns (request: RowRequest, ok: bool, reload: bool)
      ensures request == DeleteRow("transactions", id)
      ensures ok == reply.Ack? && reload == ok
    {
      request := DeleteRow("transactions", id);
      ok := reply.Ack?;
      reload := ok;
    }

    /** The realtime callback: while a couple is bound, any change on
        `transactions` reloads the list. */
    method OnChange(c: Change) returns (reload: bool)
      ensures reload == (Given(coupleId) && c.table == "transactions")
    {
      TableChannelReceives("transactions", coupleId, false, c);
      reload := Receives(TableChannel("transactions", coupleId, false), c);
    }
  }
}
