/**
 * `Method.loginWithKakao`. It needs the user lookups of `Users`, which
 * itself imports `Methods`, so it lives in a module of its own.
 */
module KakaoLogin {
  import opened Wrappers
  import opened Tables
  import opened WrapperResults
  import opened Transactions
  import opened Methods
  import Users

  /**
   * `loginWithKakao`. `kakao` is the answer of Kakao for the token (asked
   * again, with the same answer, when connecting); `formatPhone` is
   * `Phone.getFormattedPhone`. The user is found with
   * `User.getUserByPhoneOrThrow`, which throws NOT_FOUND rather than
   * answering null, so the NOT_REGISTERED_USER check after it never fires.
   */
  method LoginWithKakao(db: Database, kakao: Result<KakaoUser, Failure>, formatPhone: string -> string,
                        methodId: string)
    returns (r: Result<UserRow, Failure>)
    modifies db
    ensures kakao.Err? ==> r == Err(kakao.error) && db.tables == old(db.tables)
    ensures kakao.Ok? && HoldsIdentity(old(db.tables), Kakao, kakao.value.id) ==>
              db.tables == old(db.tables)
              && exists k :: k in old(db.tables).methods && Identifies(old(db.tables).methods[k], Kakao, kakao.value.id)
                             && r == GetUserByMethodOrThrow(old(db.tables), old(db.tables).methods[k].methodId)
    ensures kakao.Ok? && !HoldsIdentity(old(db.tables), Kakao, kakao.value.id)
            && !Users.PhoneNoTaken(old(db.tables), formatPhone(kakao.value.phoneNumber)) ==>
              r == Err(Internal(OpcodeNotFound)) && db.tables == old(db.tables)
    ensures kakao.Ok? && !HoldsIdentity(old(db.tables), Kakao, kakao.value.id)
            && Users.PhoneNoTaken(old(db.tables), formatPhone(kakao.value.phoneNumber)) ==>
              exists k :: k in old(db.tables).users
                && old(db.tables).users[k].phoneNo == Some(formatPhone(kakao.value.phoneNumber))
                && var user := old(db.tables).users[k];
                   var op := ConnectMethod(old(db.tables), user.userId, Kakao, kakao.value.id,
                                           KakaoDescription(kakao.value.nickname), methodId);
                   && (op.Err? ==> r == Err(op.error) && db.tables == old(db.tables))
                   && (op.Ok? && Apply(old(db.tables), op.value).Err? ==>
                         r == Err(Apply(old(db.tables), op.value).error) && db.tables == old(db.tables))
                   && (op.Ok? && Apply(old(db.tables), op.value).Ok? ==>
                         r == Ok(user) && db.tables == Apply(old(db.tables), op.value).value.0)
  {
    if kakao.Err? {
      return Err(kakao.error);
    }
    var auth := kakao.value;
    var linked := GetMethodWithValue(db.tables, Kakao, auth.id, true);
    if linked.Some? {
      return GetUserByMethodOrThrow(db.tables, linked.value.methodId);
    }
    var found := Users.GetUserByPhoneOrThrow(db.tables, formatPhone(auth.phoneNumber));
    if found.Err? {
      return Err(found.error);
    }
    var user := found.value;
    var op := ConnectMethod(db.tables, user.userId, Kakao, auth.id, KakaoDescription(auth.nickname), methodId);
    if op.Err? {
      return Err(op.error);
    }
    var w := db.Execute(op.value);
    if w.Err? {
      return Err(w.error);
    }
    r := Ok(user);
  }
}
