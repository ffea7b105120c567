/** The monthly level job: visit every user, one page of one user at a time, and re-level them. */
module LevelUpdate {
  import opened Wrappers
  import opened Tables
  import opened WrapperResults
  import opened Transactions
  import Levels
  import Notifications

  /** What `processUser` did for one user. */
  datatype Outcome =
    | Checked                    // the level number stayed
    | Promoted(notified: bool)   // the level number changed; whether the notice went through
    | Failed                     // an error was caught and reported

  const LevelNotice := Notifications.Draft(Info, Some("🌟 레벨이 변경되었습니다!"),
                                           Some("레벨이 업데이트되었습니다. 지금 바로 확인해보세요."),
                                           None, None, None, None)

  /**
   * `processUser`: re-level the user and notify only when the level number
   * changed. Every failure is caught, so the caller always continues.
   */
  method ProcessUser(db: Database, user: UserRow, lastMonth: (int, int), isUri: string -> bool,
                     notificationId: string, now: int, deliver: Result<(), Failure>)
    returns (o: Outcome)
    modifies db
    ensures db.tables.users.Keys == old(db.tables.users.Keys)
    ensures Levels.EarnedLevel(old(db.tables), user.userId, lastMonth).Err? ==> o == Failed && db.tables == old(db.tables)
    ensures Levels.EarnedLevel(old(db.tables), user.userId, lastMonth).Ok?
            && Levels.EarnedLevel(old(db.tables), user.userId, lastMonth).value.levelNo == user.levelNo ==>
              o == Checked && db.tables == old(db.tables)
    ensures o.Promoted? ==>
              Levels.EarnedLevel(old(db.tables), user.userId, lastMonth).Ok?
              && user.userId in old(db.tables.users)
              && db.tables.users == old(db.tables.users)[user.userId := old(db.tables.users[user.userId]).(levelNo :=
                                      Levels.EarnedLevel(old(db.tables), user.userId, lastMonth).value.levelNo)]
    ensures !o.Promoted? ==> db.tables.notifications == old(db.tables.notifications)
  {
    var updated := Levels.UpdateLevel(db, user, lastMonth);
    if updated.Err? {
      return Failed;
    }
    if user.levelNo == updated.value.levelNo {
      return Checked;
    }
    ghost var users1 := db.tables.users;
    var sent := Notifications.SendNotification(db, user, LevelNotice, isUri, notificationId, now, deliver);
    o := Promoted(sent.Ok?);
  }

  /** The page `getUsers({ take: 1, skip })` returns, in the listing order `order`. */
  function Page(order: seq<string>, skip: nat): (page: seq<string>)
    ensures |page| <= 1
    ensures skip < |order| ==> page == [order[skip]]
    ensures skip >= |order| ==> page == []
  {
    if skip < |order| then [order[skip]] else []
  }

  /** `order` lists every user exactly once: the order the paged query walks. */
  predicate Lists(order: seq<string>, users: map<string, UserRow>) {
    && |order| == |users|
    && (forall i :: 0 <= i < |order| ==> order[i] in users)
    && (forall i, j :: 0 <= i < j < |order| ==> order[i] != order[j])
  }

  /**
   * `onLevelUpdateScheduler` as written: `while (!total || total > skip)`.
   * `fuel` bounds the number of rounds; `finished` says the loop left by its
   * own guard. The per-user inputs are functions of the user id.
   */
  method OnLevelUpdateSchedulerAsWritten(db: Database, order: seq<string>, lastMonth: (int, int), isUri: string -> bool,
                                         notificationIds: string -> string, now: int,
                                         deliver: string -> Result<(), Failure>, fuel: nat)
    returns (visited: seq<string>, finished: bool)
    requires Lists(order, db.tables.users)
    modifies db
    ensures finished ==> visited == order
    ensures |order| > 0 && fuel >= |order| ==> finished
    ensures |order| == 0 ==> !finished
  {
    var total: Option<nat> := None;
    var skip: nat := 0;
    visited := [];
    while (total.None? || total.value == 0 || total.value > skip) && skip < fuel
      invariant db.tables.users.Keys == old(db.tables.users.Keys)
      invariant |db.tables.users| == |order|
      invariant total.None? ==> skip == 0
      invariant total.Some? ==> total.value == |order| && skip >= 1
      invariant |order| > 0 ==> skip <= |order|
      invariant skip <= |order| ==> visited == order[..skip]
      invariant skip > |order| ==> visited == order
    {
      var page := Page(order, skip);
      if page != [] {
        var userId := page[0];
        assert userId in db.tables.users;
        var o := ProcessUser(db, db.tables.users[userId], lastMonth, isUri, notificationIds(userId), now, deliver(userId));
        visited := visited + [userId];
        assert order[..skip + 1] == order[..skip] + [order[skip]];
      }
      total := Some(|db.tables.users|);
      skip := skip + 1;
    }
    finished := !(total.None? || total.value == 0 || total.value > skip);
  }

  /** The guard the loop evidently intends: stop once every user was offered, even when there are none. */
  method OnLevelUpdateScheduler(db: Database, order: seq<string>, lastMonth: (int, int), isUri: string -> bool,
                                notificationIds: string -> string, now: int, deliver: string -> Result<(), Failure>)
    returns (visited: seq<string>)
    requires Lists(order, db.tables.users)
    modifies db
    ensures visited == order
    ensures db.tables.users.Keys == old(db.tables.users.Keys)
  {
    var total: Option<nat> := None;
    var skip: nat := 0;
    visited := [];
    while total.None? || total.value > skip
      invariant db.tables.users.Keys == old(db.tables.users.Keys)
      invariant |db.tables.users| == |order|
      invariant total.None? ==> skip == 0
      invariant total.Some? ==> total.value == |order| && 1 <= skip
      invariant total.Some? && |order| > 0 ==> skip <= |order|
      invariant skip <= |order| ==> visited == order[..skip]
      invariant skip > |order| ==> visited == order
      decreases if total.None? then |order| + 1 else |order| - skip
    {
      var page := Page(order, skip);
      if page != [] {
        var userId := page[0];
        assert userId in db.tables.users;
        var o := ProcessUser(db, db.tables.users[userId], lastMonth, isUri, notificationIds(userId), now, deliver(userId));
        visited := visited + [userId];
        assert order[..skip + 1] == order[..skip] + [order[skip]];
      }
      total := Some(|db.tables.users|);
      skip := skip + 1;
    }
  }
}
