/** The centercoin wallet: a balance column on the user row, set, raised or lowered by an amount. */
module Centercoin {
  import opened Wrappers
  import opened Tables
  import opened WrapperResults
  import opened Transactions
  import Notifications

  /** `Joi.number().integer().min(0).required()`; a JavaScript number is a real here. */
  predicate ValidAmount(amount: Option<real>) {
    amount.Some? && amount.value.Floor as real == amount.value && amount.value >= 0.0
  }

  function AmountOf(amount: Option<real>): (n: nat)
    requires ValidAmount(amount)
    ensures n as real == amount.value
  {
    amount.value.Floor
  }

  /** The user's row with only the balance replaced. */
  function WithBalance(t: Tables, userId: string, balance: int): (t1: Tables)
    requires userId in t.users
    ensures t1.users.Keys == t.users.Keys && t1.users[userId].centercoinBalance == balance
    ensures forall k :: k in t.users && k != userId ==> t1.users[k] == t.users[k]
  {
    t.(users := t.users[userId := t.users[userId].(centercoinBalance := balance)])
  }

  /** `setBalance`: the balance becomes exactly the amount; nothing else changes. */
  method SetBalance(db: Database, userId: string, amount: Option<real>) returns (r: Result<UserRow, Failure>)
    modifies db
    ensures !ValidAmount(amount) ==> r == Err(JoiRejected) && db.tables == old(db.tables)
    ensures ValidAmount(amount) && userId !in old(db.tables.users) ==>
              r == Err(Database(RecordNotFound)) && db.tables == old(db.tables)
    ensures ValidAmount(amount) && userId in old(db.tables.users) ==>
              db.tables == WithBalance(old(db.tables), userId, AmountOf(amount))
              && r == Ok(db.tables.users[userId])
  {
    if !ValidAmount(amount) {
      return Err(JoiRejected);
    }
    var w := db.Execute(UpdateUser(userId, NoUserChange.(balance := SetTo(AmountOf(amount)))));
    if w.Err? {
      return Err(w.error);
    }
    r := Ok(db.tables.users[userId]);
  }

  /**
   * `increaseBalance`: the user is notified first, and only if that went
   * through is the amount added. `locale` is `toLocaleString`; `isUri`,
   * `notificationId`, `now` and `deliver` feed the notification.
   */
  method IncreaseBalance(db: Database, user: UserRow, amount: Option<real>, locale: int -> string,
                         isUri: string -> bool, notificationId: string, now: int, deliver: Result<(), Failure>)
    returns (r: Result<UserRow, Failure>)
    modifies db
    ensures !ValidAmount(amount) ==> r == Err(JoiRejected) && db.tables == old(db.tables)
    ensures r.Ok? ==>
              user.userId in old(db.tables.users)
              && db.tables.users == WithBalance(old(db.tables), user.userId,
                                                old(db.tables.users[user.userId].centercoinBalance) + AmountOf(amount)).users
              && r.value == db.tables.users[user.userId]
    ensures r.Err? ==> db.tables.users == old(db.tables.users)
  {
    if !ValidAmount(amount) {
      return Err(JoiRejected);
    }
    var n := AmountOf(amount);
    var draft := Notifications.Draft(Info, Some("💸 " + locale(n) + "원 캐시백 적립"), Some("센터코인 리워드가 적립되었습니다."),
                                     None, None, None, None);
    var sent := Notifications.SendNotification(db, user, draft, isUri, notificationId, now, deliver);
    if sent.Err? {
      return Err(sent.error);
    }
    var w := db.Execute(UpdateUser(user.userId, NoUserChange.(balance := Increment(n))));
    if w.Err? {
      return Err(w.error);
    }
    r := Ok(db.tables.users[user.userId]);
  }

  /** `decreaseBalance`: subtracts the amount, with no floor at zero. */
  method DecreaseBalance(db: Database, userId: string, amount: Option<real>) returns (r: Result<UserRow, Failure>)
    modifies db
    ensures !ValidAmount(amount) ==> r == Err(JoiRejected) && db.tables == old(db.tables)
    ensures ValidAmount(amount) && userId !in old(db.tables.users) ==>
              r == Err(Database(RecordNotFound)) && db.tables == old(db.tables)
    ensures ValidAmount(amount) && userId in old(db.tables.users) ==>
              db.tables == WithBalance(old(db.tables), userId,
                                       old(db.tables.users[userId].centercoinBalance) - AmountOf(amount))
              && r == Ok(db.tables.users[userId])
  {
    if !ValidAmount(amount) {
      return Err(JoiRejected);
    }
    var w := db.Execute(UpdateUser(userId, NoUserChange.(balance := Decrement(AmountOf(amount)))));
    if w.Err? {
      return Err(w.error);
    }
    r := Ok(db.tables.users[userId]);
  }

  /** For any balance and amount, a decrease lowers the balance by the amount, below zero when the amount exceeds it. */
  lemma DecreaseCanGoNegative(t: Tables, userId: string, amount: Option<real>)
    requires userId in t.users && ValidAmount(amount)
    ensures Apply(t, UpdateUser(userId, NoUserChange.(balance := Decrement(AmountOf(amount))))).Ok?
    ensures var after := Apply(t, UpdateUser(userId, NoUserChange.(balance := Decrement(AmountOf(amount))))).value.0;
            var before := t.users[userId].centercoinBalance;
            && after.users[userId].centercoinBalance == before - AmountOf(amount)
            && (after.users[userId].centercoinBalance < 0 <==> AmountOf(amount) > before)
  {
  }

  /** The amounts all three operations accept are exactly the non-negative whole numbers. */
  lemma AmountsAreWholeAndNonNegative(x: real, n: int)
    ensures !ValidAmount(None)
    ensures ValidAmount(Some(x)) <==> x >= 0.0 && x.Floor as real == x
    ensures ValidAmount(Some(x)) ==> AmountOf(Some(x)) as real == x
    ensures ValidAmount(Some(n as real)) <==> n >= 0
    ensures n >= 0 ==> AmountOf(Some(n as real)) == n
  {
  }
}
