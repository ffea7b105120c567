/** The point ledger: one row per award, summed over a window of time. */
module Points {
  import opened Wrappers
  import opened Tables
  import opened WrapperResults
  import opened Transactions

  /** `createdAt` within the optional bounds, both inclusive (`gte` / `lte`). */
  predicate InWindow(createdAt: int, startedAt: Option<int>, endedAt: Option<int>) {
    (startedAt.None? || startedAt.value <= createdAt) && (endedAt.None? || createdAt <= endedAt.value)
  }

  predicate Counted(p: PointRow, userId: string, startedAt: Option<int>, endedAt: Option<int>) {
    p.userId == userId && InWindow(p.createdAt, startedAt, endedAt)
  }

  /**
   * `getTotalPoint`: the sum of `point` over the user's rows in the window;
   * an empty sum is 0 (`point || 0`).
   */
  function TotalPoint(ledger: seq<PointRow>, userId: string, startedAt: Option<int>, endedAt: Option<int>): (total: int)
    ensures (forall i :: 0 <= i < |ledger| ==> !Counted(ledger[i], userId, startedAt, endedAt)) ==> total == 0
    decreases |ledger|
  {
    if ledger == [] then 0
    else
      (if Counted(ledger[0], userId, startedAt, endedAt) then ledger[0].point else 0)
      + TotalPoint(ledger[1..], userId, startedAt, endedAt)
  }

  /** The sum over a ledger split in two is the sum of the parts. */
  lemma {:induction false} TotalPointAppend(a: seq<PointRow>, b: seq<PointRow>, userId: string,
                                            startedAt: Option<int>, endedAt: Option<int>)
    ensures TotalPoint(a + b, userId, startedAt, endedAt)
            == TotalPoint(a, userId, startedAt, endedAt) + TotalPoint(b, userId, startedAt, endedAt)
    decreases |a|
  {
    if a == [] {
      assert a + b == b;
    } else {
      assert (a + b)[0] == a[0];
      assert (a + b)[1..] == a[1..] + b;
      TotalPointAppend(a[1..], b, userId, startedAt, endedAt);
    }
  }

  /** Another user's row, or a row outside the window, never changes the sum. */
  lemma UncountedRowIgnored(ledger: seq<PointRow>, p: PointRow, userId: string, startedAt: Option<int>, endedAt: Option<int>)
    requires !Counted(p, userId, startedAt, endedAt)
    ensures TotalPoint(ledger + [p], userId, startedAt, endedAt) == TotalPoint(ledger, userId, startedAt, endedAt)
  {
    TotalPointAppend(ledger, [p], userId, startedAt, endedAt);
  }

  /** A row of the user inside the window adds exactly its points. */
  lemma CountedRowAdds(ledger: seq<PointRow>, p: PointRow, userId: string, startedAt: Option<int>, endedAt: Option<int>)
    requires Counted(p, userId, startedAt, endedAt)
    ensures TotalPoint(ledger + [p], userId, startedAt, endedAt) == TotalPoint(ledger, userId, startedAt, endedAt) + p.point
  {
    TotalPointAppend(ledger, [p], userId, startedAt, endedAt);
  }

  /**
   * `getPointByMonth`: the total over the calendar month `subtractMonth`
   * months back (default 0, this month). `month(n)` gives that month's first
   * and last instant.
   */
  function GetPointByMonth(ledger: seq<PointRow>, userId: string, subtractMonth: Option<int>, month: int -> (int, int))
    : (total: int)
    ensures subtractMonth.None? ==> total == TotalPoint(ledger, userId, Some(month(0).0), Some(month(0).1))
    ensures subtractMonth.Some? ==>
              total == TotalPoint(ledger, userId, Some(month(subtractMonth.value).0), Some(month(subtractMonth.value).1))
  {
    var (startedAt, endedAt) := month(subtractMonth.GetOr(0));
    TotalPoint(ledger, userId, Some(startedAt), Some(endedAt))
  }

  /**
   * `increasePoint`: appends exactly one row; `point` defaults to 1 and the
   * type must name a `PointType` member (`pointTypes`).
   */
  method IncreasePoint(db: Database, userId: string, point: Option<int>, pointType: string, pointTypes: set<string>,
                       pointId: string, now: int)
    returns (r: Result<PointRow, Failure>)
    modifies db
    ensures pointType !in pointTypes ==> r == Err(JoiRejected) && db.tables == old(db.tables)
    ensures pointType in pointTypes ==>
              r == Ok(PointRow(pointId, userId, point.GetOr(1), pointType, now))
              && db.tables == old(db.tables).(points := old(db.tables.points) + [r.value])
  {
    if pointType !in pointTypes {
      return Err(JoiRejected);
    }
    var row := PointRow(pointId, userId, point.GetOr(1), pointType, now);
    var w := db.Execute(CreatePoint(row));
    r := Ok(row);
  }
}
