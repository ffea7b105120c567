/** Membership levels: each level has a point threshold, and a user sits at the highest one reached. */
module Levels {
  import opened Wrappers
  import opened Tables
  import opened WrapperResults
  import opened Results
  import opened Transactions
  import Points

  predicate Reached(l: LevelRow, point: int) {
    l.requiredPoint <= point
  }

  /**
   * `getLevelByPoint`: a level with the greatest threshold not above the
   * points (the first such in table order on a tie); none is INVALID_ERROR.
   */
  function GetLevelByPoint(levels: seq<LevelRow>, point: int): (r: Result<LevelRow, Failure>)
    ensures r.Err? <==> forall i :: 0 <= i < |levels| ==> !Reached(levels[i], point)
    ensures r.Err? ==> r.error == Throw(InvalidError)
    ensures r.Ok? ==> r.value in levels && Reached(r.value, point)
    ensures r.Ok? ==>
              forall i :: 0 <= i < |levels| && Reached(levels[i], point) ==> levels[i].requiredPoint <= r.value.requiredPoint
    decreases |levels|
  {
    if levels == [] then Err(Throw(InvalidError))
    else
      var rest := GetLevelByPoint(levels[1..], point);
      if !Reached(levels[0], point) then rest
      else if rest.Ok? && rest.value.requiredPoint > levels[0].requiredPoint then rest
      else Ok(levels[0])
  }

  /** More points never select a lower threshold. */
  lemma LevelMonotone(levels: seq<LevelRow>, p: int, q: int)
    requires p <= q && GetLevelByPoint(levels, p).Ok?
    ensures GetLevelByPoint(levels, q).Ok?
    ensures GetLevelByPoint(levels, p).value.requiredPoint <= GetLevelByPoint(levels, q).value.requiredPoint
  {
    var l := GetLevelByPoint(levels, p).value;
    var i :| 0 <= i < |levels| && levels[i] == l;
    assert Reached(levels[i], q);
  }

  /** With the seeded zero-threshold level, every non-negative total finds a level. */
  lemma SeededLevelSuffices(levels: seq<LevelRow>, point: int)
    requires exists i :: 0 <= i < |levels| && levels[i].requiredPoint == 0
    requires point >= 0
    ensures GetLevelByPoint(levels, point).Ok?
  {
    var i :| 0 <= i < |levels| && levels[i].requiredPoint == 0;
    assert Reached(levels[i], point);
  }

  /** The level the last month's points earn. `lastMonth` is that month's first and last instant. */
  function EarnedLevel(t: Tables, userId: string, lastMonth: (int, int)): Result<LevelRow, Failure> {
    GetLevelByPoint(t.levels, Points.TotalPoint(t.points, userId, Some(lastMonth.0), Some(lastMonth.1)))
  }

  /**
   * `updateLevel`: recomputes the level from the previous calendar month's
   * points; an equal level number is returned with no write, otherwise only
   * `levelNo` is written.
   */
  method UpdateLevel(db: Database, user: UserRow, lastMonth: (int, int)) returns (r: Result<UserRow, Failure>)
    modifies db
    ensures EarnedLevel(old(db.tables), user.userId, lastMonth).Err? ==>
              r == Err(Throw(InvalidError)) && db.tables == old(db.tables)
    ensures EarnedLevel(old(db.tables), user.userId, lastMonth).Ok?
            && EarnedLevel(old(db.tables), user.userId, lastMonth).value.levelNo == user.levelNo ==>
              r == Ok(user) && db.tables == old(db.tables)
    ensures EarnedLevel(old(db.tables), user.userId, lastMonth).Ok?
            && EarnedLevel(old(db.tables), user.userId, lastMonth).value.levelNo != user.levelNo ==>
              if user.userId in old(db.tables.users)
              then r.Ok? && r.value.levelNo == EarnedLevel(old(db.tables), user.userId, lastMonth).value.levelNo
                   && db.tables == old(db.tables).(users := old(db.tables.users)[user.userId :=
                                      old(db.tables.users[user.userId]).(levelNo := r.value.levelNo)])
                   && r.value == db.tables.users[user.userId]
              else r == Err(Database(RecordNotFound)) && db.tables == old(db.tables)
    ensures r.Ok? ==> r.value.levelNo != user.levelNo || db.tables == old(db.tables)
  {
    var level := EarnedLevel(db.tables, user.userId, lastMonth);
    if level.Err? {
      return Err(level.error);
    }
    if user.levelNo == level.value.levelNo {
      return Ok(user);
    }
    var w := db.Execute(UpdateUser(user.userId, NoUserChange.(levelNo := Put(level.value.levelNo))));
    if w.Err? {
      return Err(w.error);
    }
    r := Ok(db.tables.users[user.userId]);
  }
}
