/**
 * Migration of users from the legacy Firestore store (`Legacy`,
 * `LegacyUser`): how a stored document becomes a `LegacyUser`, how one is
 * found by phone, and the order in which `migrateUser` recreates it here.
 */
module Legacy {
  import opened Wrappers
  import opened Tables
  import opened WrapperResults
  import opened Transactions
  import Licenses
  import Phone
  import Users

  /** A field of a Firestore document, as `plainToInstance` meets it. */
  datatype Field =
    | Absent
    | Text(s: string)
    | Boolean(b: bool)
    | Texts(ss: seq<string>)
    | Stamp(seconds: int)   // a Firestore timestamp, `{ _seconds, ... }`
    | Unexpected            // a number, a map, or anything else

  /** The fields of a legacy `users` document that `LegacyUser` exposes. */
  datatype Document = Document(
    name: Field, phone: Field, birth: Field, tpaybillkey: Field, licenseNumber: Field, push: Field, sms: Field)

  /**
   * A validated `LegacyUser`. `birth` is the `Date` made of the stored
   * timestamp, in milliseconds (`None`: an invalid date);
   * `tpaybillkey` is `None` where the key is missing.
   */
  datatype LegacyUser = LegacyUser(
    legacyUserId: string,
    name: string,
    phone: string,
    birth: Option<int>,
    tpaybillkey: Option<seq<string>>,
    licenseNumber: Option<string>,
    push: bool,
    sms: bool)

  // The legacy license form `[AA, BB, CCCCCC, DD]` and its rewrite.

  /** The class `[0-9|가-핳]`: digits, a literal bar, and the syllables 가 (U+AC00) to 핳 (U+D573). */
  predicate IsBracketRegionChar(c: char) {
    Licenses.IsDigit(c) || c == '|' || '\U{AC00}' <= c <= '\U{D573}'
  }

  /** `/\[([0-9|가-핳]{2}), ([0-9]{2}), ([0-9]{6}), ([0-9]{2})\]/` matches the 20 characters at `i`. */
  predicate BracketAt(s: string, i: nat) {
    && i + 20 <= |s|
    && s[i] == '['
    && IsBracketRegionChar(s[i + 1]) && IsBracketRegionChar(s[i + 2])
    && s[i + 3] == ',' && s[i + 4] == ' '
    && Licenses.AllDigits(s[i + 5..i + 7])
    && s[i + 7] == ',' && s[i + 8] == ' '
    && Licenses.AllDigits(s[i + 9..i + 15])
    && s[i + 15] == ',' && s[i + 16] == ' '
    && Licenses.AllDigits(s[i + 17..i + 19])
    && s[i + 19] == ']'
  }

  /** The replacement `$1-$2-$3-$4` of the match at `i`. */
  function Dashed(s: string, i: nat): (d: string)
    requires BracketAt(s, i)
    ensures |d| == 15
  {
    s[i + 1..i + 3] + "-" + s[i + 5..i + 7] + "-" + s[i + 9..i + 15] + "-" + s[i + 17..i + 19]
  }

  /** The leftmost match at or after `from`. */
  function FirstBracket(s: string, from: nat): (m: Option<nat>)
    ensures m.Some? ==> from <= m.value && BracketAt(s, m.value)
    ensures m.Some? ==> forall j :: from <= j < m.value ==> !BracketAt(s, j)
    ensures m.None? ==> forall j :: from <= j ==> !BracketAt(s, j)
    decreases |s| - from
  {
    if from + 20 > |s| then None
    else if BracketAt(s, from) then Some(from)
    else FirstBracket(s, from + 1)
  }

  /**
   * The `licenseNumber` transform: `String.replace` with a non-global
   * pattern rewrites the leftmost match only, and leaves text without a
   * match as it is.
   */
  function RewriteLicense(s: string): (r: string)
    ensures FirstBracket(s, 0).None? ==> r == s
    ensures FirstBracket(s, 0).Some? ==>
              var i := FirstBracket(s, 0).value;
              |r| == |s| - 5 && r[..i] == s[..i] && r[i + 15..] == s[i + 20..] && r[i..i + 15] == Dashed(s, i)
  {
    match FirstBracket(s, 0)
    case None => s
    case Some(i) =>
      var r := s[..i] + Dashed(s, i) + s[i + 20..];
      assert r[..i] == s[..i];
      assert r[i..i + 15] == Dashed(s, i);
      assert r[i + 15..] == s[i + 20..];
      r
  }

  /** The legacy form of a license number whose region part is within 가-핳. */
  function Bracketed(n: string): (b: string)
    requires |n| == 15
    ensures |b| == 20
  {
    "[" + n[0..2] + ", " + n[3..5] + ", " + n[6..12] + ", " + n[13..15] + "]"
  }

  /** Rewriting the legacy form gives the license number back, in the format license checks accept. */
  lemma RewriteBracketed(n: string)
    requires Licenses.IsLicenseNumber(n)
    requires IsBracketRegionChar(n[0]) && IsBracketRegionChar(n[1])
    ensures BracketAt(Bracketed(n), 0)
    ensures RewriteLicense(Bracketed(n)) == n
    ensures Licenses.IsLicenseNumber(RewriteLicense(Bracketed(n)))
  {
    var b := Bracketed(n);
    assert b[5..7] == n[3..5];
    assert b[9..15] == n[6..12];
    assert b[17..19] == n[13..15];
    assert BracketAt(b, 0);
    assert FirstBracket(b, 0) == Some(0);
    assert Dashed(b, 0) == n;
  }

  /** Whatever a match is rewritten to satisfies the license format: 가-핳 lies within 가-힣. */
  lemma DashedIsLicenseNumber(s: string, i: nat)
    requires BracketAt(s, i)
    ensures Licenses.IsLicenseNumber(Dashed(s, i))
  {
    var d := Dashed(s, i);
    assert d[3..5] == s[i + 5..i + 7];
    assert d[6..12] == s[i + 9..i + 15];
    assert d[13..15] == s[i + 17..i + 19];
  }

  /** A license number already in the dashed form is too short to match, so it is kept. */
  lemma DashedFormKept(n: string)
    requires Licenses.IsLicenseNumber(n)
    ensures RewriteLicense(n) == n
  {
  }

  /** `birth`: `new Date(_seconds * 1000)`, a whole number of seconds in milliseconds. */
  function BirthMillis(seconds: int): (ms: int)
    ensures ms % 1000 == 0 && ms / 1000 == seconds
  {
    seconds * 1000
  }

  // From document to `LegacyUser`.

  /**
   * `plainToInstance(LegacyUser, { ...data, legacyUserId: id })`, then
   * `validate`. `Err` where a transform throws (`_seconds` of a missing
   * birth, `replace` on a license number that is not text); `Ok(None)`
   * where validation reports errors.
   */
  function FromDocument(id: string, d: Document): (r: Result<Option<LegacyUser>, Failure>)
    ensures r.Err? <==> d.birth.Absent? || !(d.licenseNumber.Absent? || d.licenseNumber.Text?)
    ensures r.Err? ==> r.error == Failure.Other
    ensures r.Ok? && r.value.Some? <==>
              && r.Ok?
              && d.name.Text? && |d.name.s| <= 16
              && d.phone.Text?
              && d.tpaybillkey.Texts?
              && (d.push.Absent? || d.push.Boolean?)
              && (d.sms.Absent? || d.sms.Boolean?)
    ensures r.Ok? && r.value.Some? ==>
              var u := r.value.value;
              && u.legacyUserId == id && u.name == d.name.s && u.phone == d.phone.s
              && u.birth == (if d.birth.Stamp? then Some(BirthMillis(d.birth.seconds)) else None)
              && u.tpaybillkey == Some(d.tpaybillkey.ss)
              && u.licenseNumber == (if d.licenseNumber.Text? then Some(RewriteLicense(d.licenseNumber.s)) else None)
              && u.push == (d.push == Boolean(true)) && u.sms == (d.sms == Boolean(true))
  {
    if d.birth.Absent? || !(d.licenseNumber.Absent? || d.licenseNumber.Text?) then Err(Failure.Other)
    else
      var birth := if d.birth.Stamp? then Some(BirthMillis(d.birth.seconds)) else None;
      var license := if d.licenseNumber.Text? then Some(RewriteLicense(d.licenseNumber.s)) else None;
      var push := match d.push case Absent => Some(false) case Boolean(b) => Some(b) case _ => None;
      var sms := match d.sms case Absent => Some(false) case Boolean(b) => Some(b) case _ => None;
      if !d.name.Text? || |d.name.s| > 16 || !d.phone.Text? || !d.tpaybillkey.Texts? || push.None? || sms.None? then Ok(None)
      else Ok(Some(LegacyUser(id, d.name.s, d.phone.s, birth, Some(d.tpaybillkey.ss), license, push.value, sms.value)))
  }

  /** Missing `push` and `sms` flags default to false. */
  lemma FlagsDefaultFalse(id: string, d: Document)
    requires d.push.Absent? && d.sms.Absent?
    requires FromDocument(id, d).Ok? && FromDocument(id, d).value.Some?
    ensures !FromDocument(id, d).value.value.push && !FromDocument(id, d).value.value.sms
  {
  }

  /** The first document (in the store's order) whose `phone` is that number. */
  function FirstWithPhone(store: seq<(string, Document)>, phoneNo: string): (m: Option<nat>)
    ensures m.Some? ==> m.value < |store| && store[m.value].1.phone == Text(phoneNo)
    ensures m.Some? ==> forall j :: 0 <= j < m.value ==> store[j].1.phone != Text(phoneNo)
    ensures m.None? ==> forall j :: 0 <= j < |store| ==> store[j].1.phone != Text(phoneNo)
  {
    if store == [] then None
    else if store[0].1.phone == Text(phoneNo) then Some(0)
    else match FirstWithPhone(store[1..], phoneNo)
      case None => None
      case Some(k) => Some(k + 1)
  }

  /**
   * `getUserByPhone`: `null` when no document has that phone or when the
   * first one fails validation; otherwise that document as a `LegacyUser`.
   */
  function GetUserByPhone(store: seq<(string, Document)>, phoneNo: string): (r: Result<Option<LegacyUser>, Failure>)
    ensures FirstWithPhone(store, phoneNo).None? ==> r == Ok(None)
    ensures FirstWithPhone(store, phoneNo).Some? ==>
              var doc := store[FirstWithPhone(store, phoneNo).value];
              r == FromDocument(doc.0, doc.1)
    ensures r.Ok? && r.value.Some? ==> r.value.value.phone == phoneNo
  {
    match FirstWithPhone(store, phoneNo)
    case None => Ok(None)
    case Some(k) => FromDocument(store[k].0, store[k].1)
  }

  // `migrateUser`.

  /** A call to another system: the Firestore back-link, and the payments service's card migration. */
  datatype LegacyCall =
    | LinkLegacy(legacyUserId: string, userId: string)
    | MigrateCards(userId: string, billingKeys: seq<string>)

  /** The signup request `migrateUser` makes; the phone is the record just created. */
  function SignupRequest(u: LegacyUser, phone: PhoneRow): Users.UserInfo {
    Users.UserInfo(Some(u.name), u.birth, None, Some(Users.PhoneRef(phone.phoneId, phone.phone, None)), None, None)
  }

  /** The write that links the new user to its legacy id. */
  function LinkOp(userId: string, legacyUserId: string): (op: Op)
    ensures op.UpdateUser? && op.userId == userId
    ensures forall u: UserRow :: PatchUser(u, op.userPatch) == u.(legacyUserId := Some(legacyUserId))
  {
    UpdateUser(userId, NoUserChange.(legacyUserId := Put(Some(legacyUserId))))
  }

  /**
   * What `migrateUser` does once the user exists: try the license (a
   * failure is swallowed), link back in Firestore, migrate the cards when
   * there are billing keys, and record the legacy id.
   */
  method CompleteMigration(db: Database, user: UserRow, u: LegacyUser, s: Users.SignupServices,
                           linkFailure: Option<Failure>, cardsFailure: Option<Failure>)
    returns (licenseOp: Option<Op>, calls: seq<LegacyCall>, r: Result<UserRow, Failure>)
    modifies db
    ensures licenseOp.Some? <==>
              Present(u.licenseNumber)
              && Licenses.SetLicense(user.userId, user.realname, user.birthday, u.licenseNumber.value, false,
                                     s.platform, s.licenseId).Ok?
    ensures licenseOp.Some? ==>
              licenseOp.value == CreateLicense(LicenseRow(s.licenseId, user.realname, user.birthday, u.licenseNumber.value),
                                               user.userId)
    ensures linkFailure.Some? ==> r == Err(linkFailure.value) && calls == [LinkLegacy(u.legacyUserId, user.userId)]
    ensures linkFailure.None? ==>
              calls == [LinkLegacy(u.legacyUserId, user.userId)]
                       + (if u.tpaybillkey.Some? then [MigrateCards(user.userId, u.tpaybillkey.value)] else [])
    ensures linkFailure.None? && u.tpaybillkey.Some? && cardsFailure.Some? ==> r == Err(cardsFailure.value)
    ensures r.Ok? ==>
              && linkFailure.None? && (u.tpaybillkey.Some? ==> cardsFailure.None?)
              && r.value.legacyUserId == Some(u.legacyUserId)
              && user.userId in db.tables.users && db.tables.users[user.userId] == r.value
  {
    licenseOp := None;
    if Present(u.licenseNumber) {
      var license := Licenses.SetLicense(user.userId, user.realname, user.birthday, u.licenseNumber.value, false,
                                         s.platform, s.licenseId);
      if license.Ok? {
        licenseOp := Some(license.value);
        var ignored := db.Execute(license.value);
      }
    }
    calls := [LinkLegacy(u.legacyUserId, user.userId)];
    if linkFailure.Some? {
      return licenseOp, calls, Err(linkFailure.value);
    }
    if u.tpaybillkey.Some? {
      calls := calls + [MigrateCards(user.userId, u.tpaybillkey.value)];
      if cardsFailure.Some? {
        return licenseOp, calls, Err(cardsFailure.value);
      }
    }
    var before := db.tables;
    var linked := db.Execute(LinkOp(user.userId, u.legacyUserId));
    if linked.Err? {
      return licenseOp, calls, Err(linked.error);
    }
    assert db.tables.users[user.userId] == PatchUser(before.users[user.userId], LinkOp(user.userId, u.legacyUserId).userPatch);
    r := Ok(db.tables.users[user.userId]);
  }

  /**
   * `migrateUser`: create the phone record, sign the user up, then
   * `CompleteMigration`. `e164`/`phoneId` are those of `createPhone`;
   * `linkFailure` and `cardsFailure` are how Firestore and the payments
   * service answer.
   */
  method MigrateUser(db: Database, u: LegacyUser, e164: string -> Option<string>, phoneId: string,
                     f: Users.Formats, s: Users.SignupServices, draws: seq<string>, now: int,
                     linkFailure: Option<Failure>, cardsFailure: Option<Failure>)
    returns (signup: Result<UserRow, Failure>, licenseOp: Option<Op>, calls: seq<LegacyCall>, r: Result<UserRow, Failure>)
    requires exists k :: 0 <= k < |draws| && draws[k] !in db.tables.users
    modifies db
    ensures e164(u.phone).None? ==> r == Err(Failure.Other) && calls == [] && db.tables == old(db.tables)
    ensures signup.Err? ==> r == signup && calls == [] && licenseOp.None?
    ensures signup.Ok? <==> |calls| > 0
    ensures signup.Ok? ==> calls[0] == LinkLegacy(u.legacyUserId, signup.value.userId)
    ensures signup.Ok? ==>
              (licenseOp.Some? <==>
                 Present(u.licenseNumber)
                 && Licenses.SetLicense(signup.value.userId, signup.value.realname, signup.value.birthday,
                                        u.licenseNumber.value, false, s.platform, s.licenseId).Ok?)
    ensures signup.Ok? && linkFailure.None? ==>
              calls == [LinkLegacy(u.legacyUserId, signup.value.userId)]
                       + (if u.tpaybillkey.Some? then [MigrateCards(signup.value.userId, u.tpaybillkey.value)] else [])
    ensures signup.Ok? && linkFailure.Some? ==> r == Err(linkFailure.value)
    ensures r.Ok? ==>
              && signup.Ok? && linkFailure.None? && (u.tpaybillkey.Some? ==> cardsFailure.None?)
              && r.value.legacyUserId == Some(u.legacyUserId)
              && signup.value.userId in db.tables.users && db.tables.users[signup.value.userId] == r.value
  {
    licenseOp := None;
    calls := [];
    var phone := Phone.CreatePhone(db, u.phone, e164, phoneId);
    if phone.Err? {
      signup := Err(phone.error);
      return signup, licenseOp, calls, signup;
    }
    var userId;
    userId, signup := Users.SignupUser(db, SignupRequest(u, phone.value), f, s, draws, now);
    if signup.Err? {
      return signup, licenseOp, calls, signup;
    }
    licenseOp, calls, r := CompleteMigration(db, signup.value, u, s, linkFailure, cardsFailure);
  }
}
