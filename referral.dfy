/** Referrals: each user carries a short code, and may name once the user whose code referred them. */
module Referral {
  import opened Wrappers
  import opened Tables
  import opened WrapperResults
  import opened Transactions
  import Ids
  import Notifications
  import Coupons

  predicate HoldsCode(u: UserRow, code: string) {
    u.referralCode == Some(code)
  }

  /** `getReferredUser` (`findFirst`): some user holding that code. */
  method GetReferredUser(t: Tables, code: string) returns (u: Option<UserRow>)
    ensures u.None? <==> forall k :: k in t.users ==> !HoldsCode(t.users[k], code)
    ensures u.Some? ==> u.value in t.users.Values && HoldsCode(u.value, code)
  {
    if k :| k in t.users && HoldsCode(t.users[k], code) {
      u := Some(t.users[k]);
    } else {
      u := None;
    }
  }

  /** `getReferredUserOrThrow`: an unknown code is INVALID_REFERRAL_CODE. */
  method GetReferredUserOrThrow(t: Tables, code: string) returns (r: Result<UserRow, Failure>)
    ensures r.Err? <==> forall k :: k in t.users ==> !HoldsCode(t.users[k], code)
    ensures r.Err? ==> r.error == Unlisted(InvalidReferralCode)
    ensures r.Ok? ==> r.value in t.users.Values && HoldsCode(r.value, code)
  {
    var u := GetReferredUser(t, code);
    if u.None? {
      return Err(Unlisted(InvalidReferralCode));
    }
    r := Ok(u.value);
  }

  /**
   * `referralUser`. The guards run in order: the code must be exactly six
   * characters, the user must not have a referrer yet, the code must be
   * known, and it must not be the user's own. On success the referrer is
   * notified first, then only `referrerUserId` is written.
   */
  method ReferralUser(db: Database, user: UserRow, code: string, isUri: string -> bool, notificationId: string,
                      now: int, deliver: Result<(), Failure>)
    returns (r: Result<UserRow, Failure>)
    requires UsersKeyed(db.tables.users)
    modifies db
    ensures |code| != 6 ==> r == Err(JoiRejected) && db.tables == old(db.tables)
    ensures |code| == 6 && Present(user.referrerUserId) ==>
              r == Err(Unlisted(AlreadySelectedReferrer)) && db.tables == old(db.tables)
    ensures |code| == 6 && !Present(user.referrerUserId) && (forall k :: k in old(db.tables.users) ==> !HoldsCode(old(db.tables.users[k]), code)) ==>
              r == Err(Unlisted(InvalidReferralCode)) && db.tables == old(db.tables)
    ensures |code| == 6 && !Present(user.referrerUserId) && user.userId in old(db.tables.users)
            && HoldsCode(old(db.tables.users[user.userId]), code)
            && (forall k :: k in old(db.tables.users) && HoldsCode(old(db.tables.users[k]), code) ==> k == user.userId) ==>
              r == Err(Unlisted(CannotReferralMyself)) && db.tables == old(db.tables)
    ensures r.Ok? ==>
              |code| == 6 && !Present(user.referrerUserId) && user.userId in old(db.tables.users)
              && exists k :: k in old(db.tables.users) && k != user.userId && HoldsCode(old(db.tables.users[k]), code)
                             && r.value == old(db.tables.users[user.userId]).(referrerUserId := Some(k))
                             && db.tables.users == old(db.tables.users)[user.userId := r.value]
    ensures r.Err? ==> db.tables.users == old(db.tables.users)
  {
    if |code| != 6 {
      return Err(JoiRejected);
    }
    if Present(user.referrerUserId) {
      return Err(Unlisted(AlreadySelectedReferrer));
    }
    var referrer := GetReferredUserOrThrow(db.tables, code);
    if referrer.Err? {
      return Err(referrer.error);
    }
    var referrerUser := referrer.value;
    if user.userId == referrerUser.userId {
      return Err(Unlisted(CannotReferralMyself));
    }
    ghost var users0 := db.tables.users;
    var draft := Notifications.Draft(Info, Some("🥳 익명의 누군가가 추천인을 등록했습니다."),
                                     Some("추천인 쿠폰이 지급되었습니다."), None, None, None, None);
    var sent := Notifications.SendNotification(db, referrerUser, draft, isUri, notificationId, now, deliver);
    if sent.Err? {
      return Err(sent.error);
    }
    var w := db.Execute(UpdateUser(user.userId, NoUserChange.(referrerUserId := Put(Some(referrerUser.userId)))));
    if w.Err? {
      return Err(w.error);
    }
    r := Ok(db.tables.users[user.userId]);
  }

  /** `getReferredUserCount`: how many users name this user as their referrer. */
  function GetReferredUserCount(t: Tables, userId: string): (n: nat)
    ensures n <= |t.users|
    ensures n == 0 <==> forall k :: k in t.users ==> t.users[k].referrerUserId != Some(userId)
  {
    var referred := set k | k in t.users && t.users[k].referrerUserId == Some(userId);
    assert referred <= t.users.Keys;
    Coupons.SubsetCard(referred, t.users.Keys);
    NoneReferred(t, userId);
    |referred|
  }

  lemma NoneReferred(t: Tables, userId: string)
    ensures |set k | k in t.users && t.users[k].referrerUserId == Some(userId)| == 0
            <==> forall k :: k in t.users ==> t.users[k].referrerUserId != Some(userId)
  {
    var referred := set k | k in t.users && t.users[k].referrerUserId == Some(userId);
    if k :| k in t.users && t.users[k].referrerUserId == Some(userId) {
      assert k in referred;
      assert referred == {k} + (referred - {k});
    }
  }

  /** The codes users already hold. */
  function Codes(t: Tables): (codes: set<string>)
    ensures forall k :: k in t.users && t.users[k].referralCode.Some? ==> t.users[k].referralCode.value in codes
  {
    set k | k in t.users && t.users[k].referralCode.Some? :: t.users[k].referralCode.value
  }

  /** The hex texts of a sequence of random draws. */
  function HexAll(draws: seq<seq<Ids.Byte>>): (texts: seq<string>)
    ensures |texts| == |draws|
    ensures forall i :: 0 <= i < |draws| ==> texts[i] == Ids.Hex(draws[i])
  {
    seq(|draws|, i requires 0 <= i < |draws| => Ids.Hex(draws[i]))
  }

  /**
   * `generateReferralCode`: three random bytes in hex, redrawn until no user
   * holds that code. `draws` are the random bytes, in order.
   */
  method GenerateReferralCode(t: Tables, draws: seq<seq<Ids.Byte>>) returns (code: string)
    requires forall i :: 0 <= i < |draws| ==> |draws[i]| == 3
    requires exists i :: 0 <= i < |draws| && Ids.Hex(draws[i]) !in Codes(t)
    ensures |code| == 6 && forall i :: 0 <= i < 6 ==> Ids.IsHexDigit(code[i])
    ensures forall k :: k in t.users ==> !HoldsCode(t.users[k], code)
    ensures exists i :: 0 <= i < |draws| && code == Ids.Hex(draws[i])
  {
    var texts := HexAll(draws);
    var tries;
    code, tries := Ids.FirstUnused(texts, Codes(t));
  }
}
