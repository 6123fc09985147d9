// A run's model calls rolled up by role.
module Cost {
  datatype Call = Call(role: string, tokensIn: nat, tokensOut: nat, cost: nat)

  datatype Total = Total(calls: nat, tokensIn: nat, tokensOut: nat, cost: nat)

  const Zero := Total(0, 0, 0, 0)

  function Plus(t: Total, u: Total): Total {
    Total(t.calls + u.calls, t.tokensIn + u.tokensIn, t.tokensOut + u.tokensOut, t.cost + u.cost)
  }

  function One(c: Call): Total {
    Total(1, c.tokensIn, c.tokensOut, c.cost)
  }

  function TotalOf(calls: seq<Call>): Total {
    if calls == [] then Zero else Plus(TotalOf(calls[..|calls| - 1]), One(calls[|calls| - 1]))
  }

  function TotalFor(calls: seq<Call>, role: string): Total {
    if calls == [] then Zero
    else
      var last := calls[|calls| - 1];
      var before := TotalFor(calls[..|calls| - 1], role);
      if last.role == role then Plus(before, One(last)) else before
  }

  predicate HasRole(calls: seq<Call>, role: string) {
    exists i | 0 <= i < |calls| :: calls[i].role == role
  }

  datatype Row = Row(role: string, total: Total)

  function SumRows(rows: seq<Row>): Total {
    if rows == [] then Zero else Plus(SumRows(rows[..|rows| - 1]), rows[|rows| - 1].total)
  }

  predicate DistinctRoles(rows: seq<Row>) {
    forall i, j | 0 <= i < j < |rows| :: rows[i].role != rows[j].role
  }

  predicate Lists(rows: seq<Row>, role: string) {
    exists i | 0 <= i < |rows| :: rows[i].role == role
  }

  // One row for each role that made a call, with that role's totals.
  predicate RollsUp(rows: seq<Row>, calls: seq<Call>) {
    && DistinctRoles(rows)
    && (forall i | 0 <= i < |rows| :: rows[i].total == TotalFor(calls, rows[i].role))
    && (forall i | 0 <= i < |calls| :: Lists(rows, calls[i].role))
    && (forall i | 0 <= i < |rows| :: HasRole(calls, rows[i].role))
  }

  predicate CostliestFirst(rows: seq<Row>) {
    forall i, j | 0 <= i < j < |rows| :: rows[i].total.cost >= rows[j].total.cost
  }

  // What the roles of these rows sum to in `calls`.
  function SumFor(rows: seq<Row>, calls: seq<Call>): Total {
    if rows == [] then Zero
    else
      var before := SumFor(rows[..|rows| - 1], calls);
      Plus(before, TotalFor(calls, rows[|rows| - 1].role))
  }

  lemma {:induction false} SumsAgree(rows: seq<Row>, calls: seq<Call>)
    requires forall i | 0 <= i < |rows| :: rows[i].total == TotalFor(calls, rows[i].role)
    ensures SumRows(rows) == SumFor(rows, calls)
  {
    hide TotalFor;
    if rows != [] {
      var rest, last := rows[..|rows| - 1], rows[|rows| - 1];
      assert last.total == TotalFor(calls, last.role);
      assert forall i | 0 <= i < |rest| :: rest[i] == rows[i];
      SumsAgree(rest, calls);
    }
  }

  lemma ListsSplit(rows: seq<Row>, role: string)
    requires rows != []
    ensures Lists(rows, role) <==> Lists(rows[..|rows| - 1], role) || rows[|rows| - 1].role == role
  {
    ListsAppend(rows[..|rows| - 1], rows[|rows| - 1], role);
    assert rows[..|rows| - 1] + [rows[|rows| - 1]] == rows;
  }

  lemma TotalForMore(calls: seq<Call>, c: Call, role: string)
    ensures TotalFor(calls + [c], role) == if c.role == role then Plus(TotalFor(calls, role), One(c)) else TotalFor(calls, role)
  {
    assert (calls + [c])[..|calls|] == calls;
  }

  // One more call raises the row of its role, and that row only.
  lemma {:induction false} OneRowGrows(rows: seq<Row>, calls: seq<Call>, c: Call)
    requires DistinctRoles(rows)
    ensures SumFor(rows, calls + [c]) == if Lists(rows, c.role) then Plus(SumFor(rows, calls), One(c)) else SumFor(rows, calls)
  {
    hide TotalFor, Lists;
    if rows == [] {
      NoneListed(c.role);
    } else {
      var rest, last := rows[..|rows| - 1], rows[|rows| - 1];
      OneRowGrows(rest, calls, c);
      TotalForMore(calls, c, last.role);
      ListsSplit(rows, c.role);
      LastIsNew(rows);
    }
  }

  lemma NoneListed(role: string)
    ensures !Lists([], role)
  {
  }

  lemma LastIsNew(rows: seq<Row>)
    requires DistinctRoles(rows) && rows != []
    ensures !Lists(rows[..|rows| - 1], rows[|rows| - 1].role) && DistinctRoles(rows[..|rows| - 1])
  {
  }

  lemma {:induction false} NoCallsNoTotal(rows: seq<Row>, calls: seq<Call>)
    requires calls == []
    ensures SumFor(rows, calls) == Zero
  {
    hide TotalFor, Plus;
    if rows != [] {
      NoCallsNoTotal(rows[..|rows| - 1], calls);
      NoTotalFor(calls, rows[|rows| - 1].role);
      PlusNothing(SumFor(rows[..|rows| - 1], calls), TotalFor(calls, rows[|rows| - 1].role));
    }
  }

  lemma PlusNothing(t: Total, nothing: Total)
    requires nothing == Zero
    ensures Plus(t, nothing) == t
  {
  }

  // Distinct rows that cover every role add up to the whole.
  lemma {:induction false} RowsAddUp(rows: seq<Row>, calls: seq<Call>)
    requires DistinctRoles(rows) && forall i | 0 <= i < |calls| :: Lists(rows, calls[i].role)
    ensures SumFor(rows, calls) == TotalOf(calls)
    decreases |calls|
  {
    hide SumFor, TotalFor, Lists, DistinctRoles;
    if calls == [] {
      NoCallsNoTotal(rows, calls);
    } else {
      var rest, c := calls[..|calls| - 1], calls[|calls| - 1];
      assert calls == rest + [c];
      assert forall i | 0 <= i < |rest| :: rest[i] == calls[i];
      RowsAddUp(rows, rest);
      OneRowGrows(rows, rest, c);
    }
  }

  // The summary loses no call, no token and no cost.
  lemma RollUpConserves(rows: seq<Row>, calls: seq<Call>)
    requires RollsUp(rows, calls)
    ensures SumRows(rows) == TotalOf(calls)
  {
    hide SumFor, TotalFor, Lists, SumRows, HasRole;
    SumsAgree(rows, calls);
    RowsAddUp(rows, calls);
  }

  lemma RowTotal(rows: seq<Row>, calls: seq<Call>, i: nat)
    requires RollsUp(rows, calls) && i < |rows|
    ensures rows[i].total == TotalFor(calls, rows[i].role)
    ensures forall k | 0 <= k < |rows| && k != i :: rows[k].role != rows[i].role
  {
  }

  method AddCall(rows: seq<Row>, ghost calls: seq<Call>, c: Call) returns (next: seq<Row>)
    requires RollsUp(rows, calls)
    ensures RollsUp(next, calls + [c])
  {
    hide RollsUp, TotalFor, HasRole;
    var i := 0;
    while i < |rows|
      invariant i <= |rows|
      invariant forall k | 0 <= k < i :: rows[k].role != c.role
    {
      if rows[i].role == c.role {
        next := rows[i := Row(c.role, Plus(rows[i].total, One(c)))];
        RowTotal(rows, calls, i);
        AddedRollsUp(rows, calls, c, next, i);
        return;
      }
      i := i + 1;
    }
    next := rows + [Row(c.role, One(c))];
    NoCallOf(calls, c.role, rows);
    AddedRollsUp(rows, calls, c, next, |rows|);
  }

  lemma {:induction false} NoTotalFor(calls: seq<Call>, role: string)
    requires forall i | 0 <= i < |calls| :: calls[i].role != role
    ensures TotalFor(calls, role) == Zero
  {
    if calls != [] {
      var rest, last := calls[..|calls| - 1], calls[|calls| - 1];
      assert last.role != role;
      assert forall i | 0 <= i < |rest| :: rest[i] == calls[i];
      NoTotalFor(rest, role);
    }
  }

  lemma NoCallOf(calls: seq<Call>, role: string, rows: seq<Row>)
    requires RollsUp(rows, calls) && !Lists(rows, role)
    ensures TotalFor(calls, role) == Zero
  {
    NoTotalFor(calls, role);
  }

  // The row at `i` takes the new call; the others stay.
  predicate RowAdded(rows: seq<Row>, calls: seq<Call>, c: Call, next: seq<Row>, i: nat) {
    && i < |next| && |rows| <= |next| <= |rows| + 1
    && next[i] == Row(c.role, Plus(TotalFor(calls, c.role), One(c)))
    && (forall k | 0 <= k < |next| && k != i :: k < |rows| && next[k] == rows[k] && rows[k].role != c.role)
    && (if i < |rows| then |next| == |rows| && rows[i].role == c.role else |next| == |rows| + 1)
  }

  lemma AddedTotals(rows: seq<Row>, calls: seq<Call>, c: Call, next: seq<Row>, i: nat)
    requires RollsUp(rows, calls) && RowAdded(rows, calls, c, next, i)
    ensures forall k | 0 <= k < |next| :: next[k].total == TotalFor(calls + [c], next[k].role)
    ensures DistinctRoles(next)
  {
    hide TotalFor, Lists, HasRole;
    forall k | 0 <= k < |next| ensures next[k].total == TotalFor(calls + [c], next[k].role) {
      TotalForMore(calls, c, next[k].role);
    }
  }

  lemma AddedCovers(rows: seq<Row>, calls: seq<Call>, c: Call, next: seq<Row>, i: nat, role: string)
    requires RowAdded(rows, calls, c, next, i) && (Lists(rows, role) || role == c.role)
    ensures Lists(next, role)
  {
    hide TotalFor;
    assert next[i].role == c.role;
    if role != c.role {
      var j :| 0 <= j < |rows| && rows[j].role == role;
      assert next[j].role == role;
    }
  }

  lemma HasRoleMore(calls: seq<Call>, c: Call, role: string)
    requires HasRole(calls, role) || role == c.role
    ensures HasRole(calls + [c], role)
  {
    assert (calls + [c])[|calls|] == c;
    if HasRole(calls, role) {
      var j :| 0 <= j < |calls| && calls[j].role == role;
      assert (calls + [c])[j].role == role;
    }
  }

  lemma AddedRollsUp(rows: seq<Row>, calls: seq<Call>, c: Call, next: seq<Row>, i: nat)
    requires RollsUp(rows, calls) && RowAdded(rows, calls, c, next, i)
    ensures RollsUp(next, calls + [c])
  {
    hide TotalFor, Lists, HasRole, DistinctRoles;
    var all := calls + [c];
    AddedTotals(rows, calls, c, next, i);
    forall k | 0 <= k < |all| ensures Lists(next, all[k].role) {
      if k < |calls| { assert Lists(rows, calls[k].role); }
      AddedCovers(rows, calls, c, next, i, all[k].role);
    }
    forall k | 0 <= k < |next| ensures HasRole(all, next[k].role) {
      if k != i { assert HasRole(calls, rows[k].role); }
      HasRoleMore(calls, c, next[k].role);
    }
  }

  // ---- Sorting ----

  // Behind every row that costs at least as much, as a stable sort would have it.
  function Insert(sorted: seq<Row>, row: Row): seq<Row> {
    if sorted == [] || sorted[|sorted| - 1].total.cost >= row.total.cost then sorted + [row]
    else Insert(sorted[..|sorted| - 1], row) + [sorted[|sorted| - 1]]
  }

  function SortRows(rows: seq<Row>): seq<Row> {
    if rows == [] then [] else Insert(SortRows(rows[..|rows| - 1]), rows[|rows| - 1])
  }

  predicate AllRowsOf(rows: seq<Row>, calls: seq<Call>) {
    forall i | 0 <= i < |rows| :: rows[i].total == TotalFor(calls, rows[i].role) && HasRole(calls, rows[i].role)
  }

  lemma {:induction false} InsertLists(sorted: seq<Row>, row: Row, role: string)
    ensures Lists(Insert(sorted, row), role) <==> Lists(sorted, role) || role == row.role
  {
    if sorted != [] && sorted[|sorted| - 1].total.cost < row.total.cost {
      var rest, last := sorted[..|sorted| - 1], sorted[|sorted| - 1];
      InsertLists(rest, row, role);
      assert sorted == rest + [last];
      ListsAppend(rest, last, role);
      ListsAppend(Insert(rest, row), last, role);
    } else {
      ListsAppend(sorted, row, role);
    }
  }

  lemma ListsAppend(rows: seq<Row>, row: Row, role: string)
    ensures Lists(rows + [row], role) <==> Lists(rows, role) || row.role == role
  {
    if Lists(rows, role) {
      var i :| 0 <= i < |rows| && rows[i].role == role;
      assert (rows + [row])[i].role == role;
    }
    if row.role == role { assert (rows + [row])[|rows|].role == role; }
  }

  lemma {:induction false} InsertAbove(sorted: seq<Row>, row: Row, bound: nat)
    requires row.total.cost >= bound && forall i | 0 <= i < |sorted| :: sorted[i].total.cost >= bound
    ensures forall i | 0 <= i < |Insert(sorted, row)| :: Insert(sorted, row)[i].total.cost >= bound
  {
    if sorted != [] && sorted[|sorted| - 1].total.cost < row.total.cost {
      InsertAbove(sorted[..|sorted| - 1], row, bound);
    }
  }

  lemma {:induction false} InsertSorted(sorted: seq<Row>, row: Row)
    requires CostliestFirst(sorted)
    ensures CostliestFirst(Insert(sorted, row))
  {
    if sorted != [] && sorted[|sorted| - 1].total.cost < row.total.cost {
      var rest, last := sorted[..|sorted| - 1], sorted[|sorted| - 1];
      InsertSorted(rest, row);
      InsertAbove(rest, row, last.total.cost);
    }
  }

  lemma DistinctAppend(rows: seq<Row>, row: Row)
    requires DistinctRoles(rows) && !Lists(rows, row.role)
    ensures DistinctRoles(rows + [row])
  {
  }

  lemma {:induction false} InsertDistinct(sorted: seq<Row>, row: Row)
    requires DistinctRoles(sorted) && !Lists(sorted, row.role)
    ensures DistinctRoles(Insert(sorted, row))
  {
    hide Lists, DistinctRoles;
    if sorted != [] && sorted[|sorted| - 1].total.cost < row.total.cost {
      var rest, last := sorted[..|sorted| - 1], sorted[|sorted| - 1];
      LastIsNew(sorted);
      ListsSplit(sorted, row.role);
      InsertDistinct(rest, row);
      InsertLists(rest, row, last.role);
      DistinctAppend(Insert(rest, row), last);
    } else {
      DistinctAppend(sorted, row);
    }
  }

  lemma {:induction false} InsertRowsOf(sorted: seq<Row>, row: Row, calls: seq<Call>)
    requires AllRowsOf(sorted, calls)
    requires row.total == TotalFor(calls, row.role) && HasRole(calls, row.role)
    ensures AllRowsOf(Insert(sorted, row), calls)
  {
    hide TotalFor, HasRole;
    if sorted != [] && sorted[|sorted| - 1].total.cost < row.total.cost {
      InsertRowsOf(sorted[..|sorted| - 1], row, calls);
    }
  }

  // Sorting keeps every role's row and puts the costliest first.
  lemma {:induction false} SortedFacts(rows: seq<Row>, calls: seq<Call>)
    requires DistinctRoles(rows) && AllRowsOf(rows, calls)
    ensures CostliestFirst(SortRows(rows)) && DistinctRoles(SortRows(rows)) && AllRowsOf(SortRows(rows), calls)
    ensures forall role :: Lists(SortRows(rows), role) <==> Lists(rows, role)
  {
    hide TotalFor, HasRole, Lists, DistinctRoles, Insert, CostliestFirst;
    if rows == [] {
      NothingSorted();
    } else {
      var rest, last := rows[..|rows| - 1], rows[|rows| - 1];
      LastIsNew(rows);
      SortedFacts(rest, calls);
      InsertSorted(SortRows(rest), last);
      InsertDistinct(SortRows(rest), last);
      InsertRowsOf(SortRows(rest), last, calls);
      forall role ensures Lists(SortRows(rows), role) <==> Lists(rows, role) {
        InsertLists(SortRows(rest), last, role);
        ListsSplit(rows, role);
      }
    }
  }

  lemma NothingSorted()
    ensures CostliestFirst([]) && DistinctRoles([])
  {
  }

  // Groups a run's calls by role, the costliest role first.
  method RollUpByRole(calls: seq<Call>) returns (rows: seq<Row>)
    ensures RollsUp(rows, calls) && CostliestFirst(rows)
    ensures SumRows(rows) == TotalOf(calls)
  {
    hide RollsUp, CostliestFirst, SumRows, TotalOf;
    var grouped: seq<Row> := [];
    NothingRollsUp();
    for i := 0 to |calls|
      invariant RollsUp(grouped, calls[..i])
    {
      assert calls[..i + 1] == calls[..i] + [calls[i]];
      grouped := AddCall(grouped, calls[..i], calls[i]);
    }
    assert calls[..|calls|] == calls;
    rows := SortRows(grouped);
    SortedRollsUp(grouped, calls);
    RollUpConserves(rows, calls);
  }

  lemma NothingRollsUp()
    ensures RollsUp([], [])
  {
  }

  lemma SortedRollsUp(grouped: seq<Row>, calls: seq<Call>)
    requires RollsUp(grouped, calls)
    ensures RollsUp(SortRows(grouped), calls) && CostliestFirst(SortRows(grouped))
  {
    hide TotalFor, HasRole, Lists, DistinctRoles, SortRows, CostliestFirst;
    SortedFacts(grouped, calls);
  }
}
