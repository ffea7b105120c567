/** User accounts: lookup, fresh ids, signup and profile changes. */
module Users {
  import opened Wrappers
  import opened Tables
  import opened WrapperResults
  import opened Transactions
  import Ids
  import Phone
  import Licenses
  import Methods

  /** `getUser`: the row stored under that id, if any. */
  function GetUser(t: Tables, userId: string): (u: Option<UserRow>)
    ensures u.Some? <==> userId in t.users
    ensures u.Some? ==> u.value == t.users[userId]
  {
    if userId in t.users then Some(t.users[userId]) else None
  }

  /** `getUserOrThrow`: an unknown user is an `InternalError` with `OPCODE.NOT_FOUND`. */
  function GetUserOrThrow(t: Tables, userId: string): (r: Result<UserRow, Failure>)
    ensures r.Err? <==> userId !in t.users
    ensures r.Err? ==> r.error == Internal(OpcodeNotFound)
    ensures r.Ok? ==> r.value == t.users[userId]
  {
    match GetUser(t, userId)
    case None => Err(Internal(OpcodeNotFound))
    case Some(u) => Ok(u)
  }

  /** `getUserByPhone` (`findFirst`): some user holding the number, if any. */
  method GetUserByPhone(t: Tables, phoneNo: string) returns (u: Option<UserRow>)
    ensures u.None? <==> !PhoneNoTaken(t, phoneNo)
    ensures u.Some? ==> u.value.phoneNo == Some(phoneNo) && exists k :: k in t.users && t.users[k] == u.value
  {
    if k :| k in t.users && t.users[k].phoneNo == Some(phoneNo) {
      u := Some(t.users[k]);
    } else {
      u := None;
    }
  }

  /** `getUserByPhoneOrThrow`: an unknown number is an `InternalError` with `OPCODE.NOT_FOUND`; it never answers null. */
  method GetUserByPhoneOrThrow(t: Tables, phoneNo: string) returns (r: Result<UserRow, Failure>)
    ensures r.Err? <==> !PhoneNoTaken(t, phoneNo)
    ensures r.Err? ==> r.error == Internal(OpcodeNotFound)
    ensures r.Ok? ==> r.value.phoneNo == Some(phoneNo) && exists k :: k in t.users && t.users[k] == r.value
  {
    var u := GetUserByPhone(t, phoneNo);
    if u.None? {
      return Err(Internal(OpcodeNotFound));
    }
    r := Ok(u.value);
  }

  /** `getUnusedUserId`: the first drawn UUID no user holds. */
  method GetUnusedUserId(t: Tables, draws: seq<string>) returns (userId: string)
    requires exists k :: 0 <= k < |draws| && draws[k] !in t.users
    ensures userId !in t.users
    ensures exists k :: 0 <= k < |draws| && draws[k] == userId && forall j :: 0 <= j < k ==> draws[j] in t.users
  {
    var tries;
    userId, tries := Ids.FirstUnused(draws, t.users.Keys);
  }

  /**
   * Whether some user already holds the number. `Phone.isUnusedPhoneNoOrThrow`
   * is not part of this model; its rule is taken to be exactly this.
   */
  predicate PhoneNoTaken(t: Tables, phoneNo: string) {
    exists k :: k in t.users && t.users[k].phoneNo == Some(phoneNo)
  }

  /** The verified phone a request refers to; `code` is `None` for `null`. */
  datatype PhoneRef = PhoneRef(phoneId: string, phoneNo: string, code: Option<string>)

  /** `UserInfo`; `kakao` is `methods.kakao`, absent when `methods` is. */
  datatype UserInfo = UserInfo(
    realname: Option<string>,
    birthday: Option<int>,
    email: Option<string>,
    phone: Option<PhoneRef>,
    licenseStr: Option<string>,
    kakao: Option<string>)

  /** The format rules Joi applies, `email()` and `uuid()`, as predicates. */
  datatype Formats = Formats(isEmail: string -> bool, isUuid: string -> bool)

  /** A Joi string: never empty. */
  predicate JoiString(s: Option<string>) {
    s.None? || s.value != ""
  }

  predicate PhoneShape(p: PhoneRef, f: Formats) {
    f.isUuid(p.phoneId) && p.phoneNo != "" && JoiString(p.code)
  }

  /** The signup schema: a name of 1 to 16 characters, a birthday and a phone are required. */
  predicate SignupShape(info: UserInfo, f: Formats) {
    && info.realname.Some? && 1 <= |info.realname.value| <= 16
    && info.birthday.Some?
    && (info.email.None? || (info.email.value != "" && f.isEmail(info.email.value)))
    && info.phone.Some? && PhoneShape(info.phone.value, f)
    && JoiString(info.licenseStr)
    && JoiString(info.kakao)
  }

  /** What signup asks of other services, and the keys the database generates. */
  datatype SignupServices = SignupServices(
    platform: Licenses.LicenseRequest -> Result<bool, Failure>,
    kakao: Result<Methods.KakaoUser, Failure>,
    licenseId: string,
    methodId: string,
    blank: UserRow)

  /** The created row: the given columns over the schema defaults in `blank`. */
  function NewUser(blank: UserRow, userId: string, realname: string, birthday: int, email: Option<string>,
                   phoneNo: string): UserRow
  {
    blank.(userId := userId, realname := realname, birthday := birthday, email := email, phoneNo := Some(phoneNo))
  }

  /** A prepared write that is present only when its input was supplied. */
  function Optional(supplied: bool, prepared: Result<Op, Failure>): (r: Result<seq<Op>, Failure>)
    ensures !supplied ==> r == Ok([])
    ensures supplied && prepared.Err? ==> r == Err(prepared.error)
    ensures supplied && prepared.Ok? ==> r == Ok([prepared.value])
  {
    if !supplied then Ok([])
    else match prepared
      case Err(e) => Err(e)
      case Ok(op) => Ok([op])
  }

  /**
   * Everything `signupUser` does before its transaction: the phone it will
   * revoke and the batch (the user, then the license and the Kakao method
   * when supplied). Any failure here happens before any write.
   */
  function PrepareSignup(t: Tables, info: UserInfo, f: Formats, s: SignupServices, userId: string)
    : (r: Result<(PhoneRow, seq<Op>), Failure>)
    ensures !SignupShape(info, f) ==> r == Err(JoiRejected)
    ensures SignupShape(info, f) && info.phone.value.phoneId !in t.phones ==> r == Err(Internal(OpcodeNotFound))
    ensures r.Ok? ==> SignupShape(info, f) && info.phone.value.phoneId in t.phones
                      && r.value.0 == t.phones[info.phone.value.phoneId]
                      && !PhoneNoTaken(t, r.value.0.phone)
    ensures r.Ok? ==>
              |r.value.1| == 1 + (if info.licenseStr.Some? then 1 else 0) + (if info.kakao.Some? then 1 else 0)
              && r.value.1[0] == CreateUser(NewUser(s.blank, userId, info.realname.value, info.birthday.value,
                                                    info.email, r.value.0.phone))
    ensures r.Ok? && info.licenseStr.Some? ==>
              r.value.1[1] == CreateLicense(LicenseRow(s.licenseId, info.realname.value, info.birthday.value,
                                                                info.licenseStr.value), userId)
    ensures r.Ok? && info.kakao.Some? ==>
              var m := r.value.1[|r.value.1| - 1];
              m.CreateMethod? && m.methodRow.userId == userId && m.methodRow.provider == Kakao
    ensures SignupShape(info, f) && info.licenseStr.Some? && r.Ok? ==>
              Licenses.ValidateLicense(info.realname.value, info.birthday.value, info.licenseStr.value, s.platform)
  {
    if !SignupShape(info, f) then Err(JoiRejected)
    else
      match Phone.GetPhoneOrThrow(t, info.phone.value.phoneId)
      case Err(e) => Err(e)
      case Ok(phone) =>
        if PhoneNoTaken(t, phone.phone) then Err(Unlisted(PhoneNoAlreadyUsed))
        else
          var realname := info.realname.value;
          var birthday := info.birthday.value;
          var create := CreateUser(NewUser(s.blank, userId, realname, birthday, info.email, phone.phone));
          var license := Optional(info.licenseStr.Some?,
                                  Licenses.SetLicense(userId, realname, birthday, info.licenseStr.GetOr(""), false,
                                                      s.platform, s.licenseId));
          var kakao := Optional(info.kakao.Some?, Methods.ConnectKakaoMethod(t, userId, s.kakao, s.methodId));
          if license.Err? then Err(license.error)
          else if kakao.Err? then Err(kakao.error)
          else Ok((phone, [create] + license.value + kakao.value))
  }

  /** The database after `signupUser`: the batch, then the phone stamped used; or nothing on a failure before. */
  function AfterSignup(t: Tables, info: UserInfo, f: Formats, s: SignupServices, userId: string, now: int): Tables {
    match PrepareSignup(t, info, f, s, userId)
    case Err(_) => t
    case Ok((phone, ops)) =>
      match ApplyAll(t, ops)
      case Err(_) => t
      case Ok((t1, _)) =>
        match Apply(t1, Transactions.RevokePhone(phone.phoneId, now))
        case Ok((t2, _)) => t2
        case Err(_) => t1
  }

  /**
   * `signupUser`: validate, take a fresh id, check the phone, prepare the
   * batch, commit it, and only then stamp the phone as used.
   */
  method SignupUser(db: Database, info: UserInfo, f: Formats, s: SignupServices, draws: seq<string>, now: int)
    returns (userId: string, r: Result<UserRow, Failure>)
    requires exists k :: 0 <= k < |draws| && draws[k] !in db.tables.users
    modifies db
    ensures userId !in old(db.tables.users)
    ensures db.tables == AfterSignup(old(db.tables), info, f, s, userId, now)
    ensures PrepareSignup(old(db.tables), info, f, s, userId).Err? ==>
              r == Err(PrepareSignup(old(db.tables), info, f, s, userId).error) && db.tables == old(db.tables)
    ensures r.Ok? ==>
              var prep := PrepareSignup(old(db.tables), info, f, s, userId);
              prep.Ok? && ApplyAll(old(db.tables), prep.value.1).Ok?
              && r.value == NewUser(s.blank, userId, info.realname.value, info.birthday.value, info.email, prep.value.0.phone)
    ensures db.tables.phones != old(db.tables.phones) ==>
              var prep := PrepareSignup(old(db.tables), info, f, s, userId);
              prep.Ok? && ApplyAll(old(db.tables), prep.value.1).Ok?
  {
    userId := GetUnusedUserId(db.tables, draws);
    var prep := PrepareSignup(db.tables, info, f, s, userId);
    if prep.Err? {
      return userId, Err(prep.error);
    }
    var (phone, ops) := prep.value;
    var created := db.Transaction(ops);
    if created.Err? {
      return userId, Err(created.error);
    }
    var revoked := Phone.RevokePhone(db, phone.phoneId, now);
    if revoked.Err? {
      return userId, Err(revoked.error);
    }
    r := Ok(NewUser(s.blank, userId, info.realname.value, info.birthday.value, info.email, phone.phone));
  }

  /** The modify schema: every field optional, and no license or methods accepted. */
  predicate ModifyShape(info: UserInfo, f: Formats) {
    && (info.realname.None? || 1 <= |info.realname.value| <= 16)
    && (info.email.None? || (info.email.value != "" && f.isEmail(info.email.value)))
    && (info.phone.None? || PhoneShape(info.phone.value, f))
    && info.licenseStr.None? && info.kakao.None?
  }

  /**
   * The sparse update of `modifyUser` as written: `birthday !== user.birthday`
   * compares two `Date` objects, so a supplied birthday always counts as changed.
   */
  function UserChangesAsWritten(user: UserRow, info: UserInfo, phone: Option<PhoneRow>): (p: UserPatch)
    ensures p.birthday.Put? <==> info.birthday.Some?
  {
    NoUserChange.(
      realname := if info.realname.Some? && info.realname.value != "" && info.realname.value != user.realname
                  then Put(info.realname.value) else Keep,
      birthday := if info.birthday.Some? then Put(info.birthday.value) else Keep,
      email := if info.email.Some? && info.email.value != "" && info.email != user.email
               then Put(info.email) else Keep,
      phoneNo := if phone.Some? && Some(phone.value.phone) != user.phoneNo then Put(Some(phone.value.phone)) else Keep)
  }

  /** Whether an update drops the user's license: a new name or a new birthday. */
  predicate DropsLicense(p: UserPatch) {
    p.realname.Put? || p.birthday.Put?
  }

  /** Re-sending the stored birthday still deletes the license. */
  lemma SameBirthdayDropsLicenseAsWritten(user: UserRow)
    ensures DropsLicense(UserChangesAsWritten(user, UserInfo(None, Some(user.birthday), None, None, None, None), None))
  {
  }

  /**
   * The sparse update `modifyUser` evidently intends: a field is written
   * exactly when it is supplied and differs from the stored value.
   */
  function UserChanges(user: UserRow, info: UserInfo, phone: Option<PhoneRow>): (p: UserPatch)
    ensures p.realname.Put? <==> info.realname.Some? && info.realname.value != "" && info.realname.value != user.realname
    ensures p.realname.Put? ==> p.realname.v == info.realname.value
    ensures p.birthday.Put? <==> info.birthday.Some? && info.birthday.value != user.birthday
    ensures p.birthday.Put? ==> p.birthday.v == info.birthday.value
    ensures p.email.Put? <==> info.email.Some? && info.email.value != "" && info.email != user.email
    ensures p.email.Put? ==> p.email.v == info.email
    ensures p.phoneNo.Put? <==> phone.Some? && Some(phone.value.phone) != user.phoneNo
    ensures p.phoneNo.Put? ==> p.phoneNo.v == Some(phone.value.phone)
    ensures p.levelNo == Keep && p.referrerUserId == Keep && p.licenseId == Keep && p.balance == Unchanged
            && p.usedAt == Keep && p.legacyUserId == Keep
  {
    UserChangesAsWritten(user, info, phone).(
      birthday := if info.birthday.Some? && info.birthday.value != user.birthday then Put(info.birthday.value) else Keep)
  }

  /** With the intended comparison, re-sending what is stored changes nothing and keeps the license. */
  lemma SameValuesKeepLicense(user: UserRow)
    ensures UserChanges(user, UserInfo(None, Some(user.birthday), None, None, None, None), None) == NoUserChange
    ensures !DropsLicense(UserChanges(user, UserInfo(None, Some(user.birthday), None, None, None, None), None))
  {
  }

  /** What `modifyUser` decided before writing: the update and the phone it verified. */
  datatype Plan = Plan(patch: UserPatch, phone: Option<PhoneRow>)

  /**
   * The checks of `modifyUser`: the schema, then the phone (which must
   * exist, and must be unused when it differs from the current number).
   */
  function PlanModify(t: Tables, user: UserRow, info: UserInfo, f: Formats): (r: Result<Plan, Failure>)
    ensures !ModifyShape(info, f) ==> r == Err(JoiRejected)
    ensures ModifyShape(info, f) && info.phone.Some? && info.phone.value.phoneId !in t.phones ==>
              r == Err(Internal(OpcodeNotFound))
    ensures r.Ok? ==> ModifyShape(info, f) && r.value.patch == UserChanges(user, info, r.value.phone)
    ensures r.Ok? ==> (r.value.phone.Some? <==> info.phone.Some?)
    ensures r.Ok? && r.value.phone.Some? ==>
              info.phone.value.phoneId in t.phones && r.value.phone.value == t.phones[info.phone.value.phoneId]
    ensures r.Ok? && r.value.patch.phoneNo.Put? ==> !PhoneNoTaken(t, r.value.phone.value.phone)
  {
    if !ModifyShape(info, f) then Err(JoiRejected)
    else if info.phone.None? then Ok(Plan(UserChanges(user, info, None), None))
    else
      match Phone.GetPhoneOrThrow(t, info.phone.value.phoneId)
      case Err(e) => Err(e)
      case Ok(phone) =>
        if Some(phone.phone) != user.phoneNo && PhoneNoTaken(t, phone.phone) then Err(Unlisted(PhoneNoAlreadyUsed))
        else Ok(Plan(UserChanges(user, info, Some(phone)), Some(phone)))
  }

  /** The batch of `modifyUser`: the update, the phone stamp when a phone was given, the license unlink. */
  function ModifyOps(userId: string, plan: Plan, now: int): (ops: seq<Op>)
    ensures |ops| >= 1 && ops[0] == UpdateUser(userId, plan.patch)
  {
    [UpdateUser(userId, plan.patch)]
    + (if plan.phone.Some? then [Transactions.RevokePhone(plan.phone.value.phoneId, now)] else [])
    + (if DropsLicense(plan.patch) then [Licenses.ClearLicense(userId)] else [])
  }

  /** The license rows `deleteLicense` removes at call time, before the batch runs. */
  function Eager(t: Tables, userId: string, plan: Plan): Tables {
    if DropsLicense(plan.patch) then Apply(t, DeleteLicensesOf(userId)).value.0 else t
  }

  /**
   * `modifyUser`: validate, decide the sparse update, delete the license at
   * once when the name or birthday changes, then commit the batch.
   */
  method ModifyUser(db: Database, user: UserRow, info: UserInfo, f: Formats, now: int) returns (r: Result<UserRow, Failure>)
    modifies db
    ensures PlanModify(old(db.tables), user, info, f).Err? ==>
              r == Err(PlanModify(old(db.tables), user, info, f).error) && db.tables == old(db.tables)
    ensures PlanModify(old(db.tables), user, info, f).Ok? ==>
              var plan := PlanModify(old(db.tables), user, info, f).value;
              db.tables == Committed(Eager(old(db.tables), user.userId, plan), ModifyOps(user.userId, plan, now))
    ensures r.Ok? ==>
              PlanModify(old(db.tables), user, info, f).Ok? && user.userId in old(db.tables.users)
              && r.value == PatchUser(old(db.tables.users[user.userId]), PlanModify(old(db.tables), user, info, f).value.patch)
  {
    var plan := PlanModify(db.tables, user, info, f);
    if plan.Err? {
      return Err(plan.error);
    }
    var ops := ModifyOps(user.userId, plan.value, now);
    if DropsLicense(plan.value.patch) {
      var clear := Licenses.DeleteLicense(db, user.userId);
    }
    var before := db.tables;
    assert before.users == old(db.tables.users);
    var updated := db.Transaction(ops);
    if updated.Err? {
      return Err(updated.error);
    }
    assert ApplyAll(before, ops).Ok?;
    assert Apply(before, ops[0]).Ok?;
    r := Ok(PatchUser(before.users[user.userId], plan.value.patch));
  }

  /** The eager delete alone already leaves the user without a license. */
  lemma EagerDropsLicense(t: Tables, userId: string)
    ensures Licenses.GetLicense(Apply(t, DeleteLicensesOf(userId)).value.0, userId).None?
  {
  }

  /** Whatever the batch does, a changed name or birthday leaves the user without a license. */
  lemma ModifyDropsLicense(t: Tables, userId: string, plan: Plan, now: int)
    requires DropsLicense(plan.patch)
    ensures Licenses.GetLicense(Committed(Eager(t, userId, plan), ModifyOps(userId, plan, now)), userId).None?
  {
    var t0 := Apply(t, DeleteLicensesOf(userId)).value.0;
    EagerDropsLicense(t, userId);
    var base := [UpdateUser(userId, plan.patch)]
                + (if plan.phone.Some? then [Transactions.RevokePhone(plan.phone.value.phoneId, now)] else []);
    var clear := Licenses.ClearLicense(userId);
    assert ModifyOps(userId, plan, now) == base + [clear];
    ApplyAllAppend(t0, base, [clear]);
    if ApplyAll(t0, base).Ok? {
      CommittedOne(ApplyAll(t0, base).value.0, clear);
    }
  }

  /** Without a new name or birthday, no license row is touched. */
  lemma ModifyKeepsLicense(t: Tables, userId: string, plan: Plan, now: int)
    requires !DropsLicense(plan.patch)
    ensures Committed(Eager(t, userId, plan), ModifyOps(userId, plan, now)).licenses == t.licenses
  {
    var ops := ModifyOps(userId, plan, now);
    var update := UpdateUser(userId, plan.patch);
    if plan.phone.Some? {
      var revoke := Transactions.RevokePhone(plan.phone.value.phoneId, now);
      assert ops == [update] + [revoke];
      ApplyAllAppend(t, [update], [revoke]);
      CommittedOne(t, update);
      if Apply(t, update).Ok? {
        CommittedOne(Apply(t, update).value.0, revoke);
      }
    } else {
      assert ops == [update];
      CommittedOne(t, update);
    }
  }

  /** A committed update stamps the supplied phone as used. */
  lemma ModifyRevokesPhone(t: Tables, userId: string, plan: Plan, now: int)
    requires plan.phone.Some?
    requires ApplyAll(Eager(t, userId, plan), ModifyOps(userId, plan, now)).Ok?
    ensures var t1 := Committed(Eager(t, userId, plan), ModifyOps(userId, plan, now));
            plan.phone.value.phoneId in t1.phones && t1.phones[plan.phone.value.phoneId].usedAt == Some(now)
  {
    var t0 := Eager(t, userId, plan);
    var ops := ModifyOps(userId, plan, now);
    var update := UpdateUser(userId, plan.patch);
    var revoke := Transactions.RevokePhone(plan.phone.value.phoneId, now);
    var rest := if DropsLicense(plan.patch) then [Licenses.ClearLicense(userId)] else [];
    assert ops == [update, revoke] + rest;
    ApplyAllAppend(t0, [update, revoke], rest);
    assert [update, revoke] == [update] + [revoke];
    ApplyAllAppend(t0, [update], [revoke]);
    CommittedOne(t0, update);
    var t1 := Apply(t0, update).value.0;
    CommittedOne(t1, revoke);
    var t2 := Apply(t1, revoke).value.0;
    if rest != [] {
      CommittedOne(t2, Licenses.ClearLicense(userId));
    }
  }
}
