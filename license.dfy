/** Driver's licenses: the number format, the fail-closed check, and linking a license to a user. */
module Licenses {
  import opened Wrappers
  import opened Tables
  import opened WrapperResults
  import opened Results
  import opened Transactions

  /** A precomposed Hangul syllable, 가 (U+AC00) to 힣 (U+D7A3). */
  predicate IsSyllable(c: char) {
    '\U{AC00}' <= c <= '\U{D7A3}'
  }

  predicate IsDigit(c: char) {
    '0' <= c <= '9'
  }

  /** The class `[가-힣|0-9]`: inside brackets `|` is a literal bar, not an alternative. */
  predicate IsRegionChar(c: char) {
    IsSyllable(c) || c == '|' || IsDigit(c)
  }

  predicate AllDigits(s: string) {
    forall i :: 0 <= i < |s| ==> IsDigit(s[i])
  }

  /** `/^[가-힣|0-9]{2}-[0-9]{2}-[0-9]{6}-[0-9]{2}$/`. */
  predicate IsLicenseNumber(s: string) {
    && |s| == 15
    && IsRegionChar(s[0]) && IsRegionChar(s[1]) && s[2] == '-'
    && AllDigits(s[3..5]) && s[5] == '-'
    && AllDigits(s[6..12]) && s[12] == '-'
    && AllDigits(s[13..15])
  }

  /** `String.prototype.split` with a one-character separator. */
  function Split(s: string, sep: char): (parts: seq<string>)
    ensures |parts| >= 1
    ensures forall i :: 0 <= i < |parts| ==> sep !in parts[i]
    decreases |s|
  {
    if s == [] then [""]
    else
      var rest := Split(s[1..], sep);
      if s[0] == sep then [""] + rest
      else [[s[0]] + rest[0]] + rest[1..]
  }

  /** `Array.prototype.join` with a one-character separator. */
  function Join(parts: seq<string>, sep: char): string
    requires |parts| >= 1
    decreases |parts|
  {
    if |parts| == 1 then parts[0] else parts[0] + [sep] + Join(parts[1..], sep)
  }

  /** Splitting loses nothing: joining the parts back gives the text. */
  lemma {:induction false} JoinSplit(s: string, sep: char)
    ensures Join(Split(s, sep), sep) == s
    decreases |s|
  {
    if s != [] {
      var rest := Split(s[1..], sep);
      JoinSplit(s[1..], sep);
      if s[0] == sep {
        assert Split(s, sep)[1..] == rest;
      } else {
        var parts := Split(s, sep);
        if |rest| == 1 {
          assert parts == [[s[0]] + rest[0]];
        } else {
          assert parts[1..] == rest[1..];
          assert Join(rest, sep) == rest[0] + [sep] + Join(rest[1..], sep);
        }
      }
    }
  }

  /** A piece without the separator, then the separator, then the rest, splits at that separator. */
  lemma {:induction false} SplitAt(a: string, sep: char, b: string)
    requires sep !in a
    ensures Split(a + [sep] + b, sep) == [a] + Split(b, sep)
    decreases |a|
  {
    if a == [] {
      assert a + [sep] + b == [sep] + b;
      assert ([sep] + b)[1..] == b;
    } else {
      var s := a + [sep] + b;
      assert s[0] == a[0];
      assert s[1..] == a[1..] + [sep] + b;
      SplitAt(a[1..], sep, b);
      assert [a[0]] + a[1..] == a;
    }
  }

  lemma {:induction false} SplitWhole(a: string, sep: char)
    requires sep !in a
    ensures Split(a, sep) == [a]
    decreases |a|
  {
    if a != [] {
      SplitWhole(a[1..], sep);
      assert [a[0]] + a[1..] == a;
    }
  }

  /** A well-formed number reaches the license service as its four dash-free groups. */
  lemma LicenseParts(s: string)
    requires IsLicenseNumber(s)
    ensures Split(s, '-') == [s[0..2], s[3..5], s[6..12], s[13..15]]
  {
    assert s == s[0..2] + ['-'] + (s[3..5] + ['-'] + (s[6..12] + ['-'] + s[13..15]));
    SplitAt(s[0..2], '-', s[3..5] + ['-'] + (s[6..12] + ['-'] + s[13..15]));
    SplitAt(s[3..5], '-', s[6..12] + ['-'] + s[13..15]);
    SplitAt(s[6..12], '-', s[13..15]);
    SplitWhole(s[13..15], '-');
  }

  /** The JSON posted to the platform's `license` endpoint; the birthday shift is not modelled. */
  datatype LicenseRequest = LicenseRequest(realname: string, birthday: int, license: seq<string>)

  /** The request fields `validateLicense` lets through to the service. */
  predicate AcceptableForm(realname: string, licenseStr: string) {
    1 <= |realname| <= 16 && IsLicenseNumber(licenseStr)
  }

  /**
   * `validateLicense`: true only when the form passes and the platform
   * answers with a truthy `isValid`; any failure on the way is `false`.
   * `platform` is the license service, `Err` when the call throws.
   */
  function ValidateLicense(realname: string, birthday: int, licenseStr: string,
                           platform: LicenseRequest -> Result<bool, Failure>): (valid: bool)
    ensures valid <==> AcceptableForm(realname, licenseStr)
                       && platform(LicenseRequest(realname, birthday, Split(licenseStr, '-'))) == Ok(true)
  {
    if !AcceptableForm(realname, licenseStr) then false
    else
      match platform(LicenseRequest(realname, birthday, Split(licenseStr, '-')))
      case Ok(isValid) => isValid
      case Err(_) => false
  }

  /** Whatever the service says, a malformed number is never valid. */
  lemma MalformedNeverValid(realname: string, birthday: int, licenseStr: string,
                            platform: LicenseRequest -> Result<bool, Failure>)
    requires !IsLicenseNumber(licenseStr)
    ensures !ValidateLicense(realname, birthday, licenseStr, platform)
  {
  }

  /**
   * `setLicense`: without `bypass` an invalid number is INVALID_LICENSE;
   * otherwise the license, with the user's name and birthday, is prepared
   * for creation and linked to the user. `licenseId` is the generated key.
   */
  function SetLicense(userId: string, realname: string, birthday: int, licenseStr: string, bypass: bool,
                      platform: LicenseRequest -> Result<bool, Failure>, licenseId: string): (r: Result<Op, Failure>)
    ensures r.Err? <==> !bypass && !ValidateLicense(realname, birthday, licenseStr, platform)
    ensures r.Err? ==> r.error == Throw(InvalidLicense)
    ensures r.Ok? ==> r.value == CreateLicense(LicenseRow(licenseId, realname, birthday, licenseStr), userId)
  {
    if !bypass && !ValidateLicense(realname, birthday, licenseStr, platform) then Err(Throw(InvalidLicense))
    else Ok(CreateLicense(LicenseRow(licenseId, realname, birthday, licenseStr), userId))
  }

  /** `getLicense`: the license linked to the user, if any. */
  function GetLicense(t: Tables, userId: string): (l: Option<LicenseRow>)
    ensures l.Some? <==> userId in t.users && t.users[userId].licenseId.Some?
                         && t.users[userId].licenseId.value in t.licenses
    ensures l.Some? ==> l.value == t.licenses[t.users[userId].licenseId.value]
  {
    if userId in t.users && t.users[userId].licenseId.Some? && t.users[userId].licenseId.value in t.licenses
    then Some(t.licenses[t.users[userId].licenseId.value])
    else None
  }

  /** `getLicenseOrThrow`: a user without a license is REQUIRED_LICENSE. */
  function GetLicenseOrThrow(t: Tables, userId: string): (r: Result<LicenseRow, Failure>)
    ensures r.Err? <==> GetLicense(t, userId).None?
    ensures r.Err? ==> r.error == Throw(RequiredLicense)
    ensures r.Ok? ==> Some(r.value) == GetLicense(t, userId)
  {
    match GetLicense(t, userId)
    case None => Err(Throw(RequiredLicense))
    case Some(l) => Ok(l)
  }

  /** Once `setLicense`'s write is committed, the user's license is the one just created. */
  lemma SetLicenseLinks(t: Tables, userId: string, realname: string, birthday: int, licenseStr: string,
                        bypass: bool, platform: LicenseRequest -> Result<bool, Failure>, licenseId: string)
    requires SetLicense(userId, realname, birthday, licenseStr, bypass, platform, licenseId).Ok?
    requires Apply(t, SetLicense(userId, realname, birthday, licenseStr, bypass, platform, licenseId).value).Ok?
    ensures var t1 := Apply(t, SetLicense(userId, realname, birthday, licenseStr, bypass, platform, licenseId).value).value.0;
            GetLicenseOrThrow(t1, userId) == Ok(LicenseRow(licenseId, realname, birthday, licenseStr))
  {
  }

  /** The deferred half of `deleteLicense`: clear the user's `licenseId`. */
  function ClearLicense(userId: string): (op: Op)
    ensures op.UpdateUser? && op.userId == userId && op.userPatch == NoUserChange.(licenseId := Put(None))
  {
    UpdateUser(userId, NoUserChange.(licenseId := Put(None)))
  }

  /**
   * `deleteLicense`: the user's license rows are deleted at once, before
   * any transaction; only the `licenseId = null` update is handed back.
   */
  method DeleteLicense(db: Database, userId: string) returns (thunk: Op)
    modifies db
    ensures db.tables == Apply(old(db.tables), DeleteLicensesOf(userId)).value.0
    ensures GetLicense(db.tables, userId).None?
    ensures db.tables.users == old(db.tables.users)
    ensures thunk == ClearLicense(userId)
  {
    var deleted := db.Execute(DeleteLicensesOf(userId));
    thunk := ClearLicense(userId);
  }

  /** After both halves, the user has no license and no dangling link. */
  lemma DeleteLicenseClears(t: Tables, userId: string)
    requires userId in t.users
    ensures var t1 := Apply(t, DeleteLicensesOf(userId)).value.0;
            Apply(t1, ClearLicense(userId)).Ok?
            && Apply(t1, ClearLicense(userId)).value.0.users[userId].licenseId.None?
  {
  }

  /**
   * `validateLicenseOrThrow` as written: the promise `validateLicense`
   * returns is not awaited, and a promise is always truthy.
   */
  function ValidateLicenseOrThrowAsWritten(realname: string, birthday: int, licenseStr: string,
                                           platform: LicenseRequest -> Result<bool, Failure>): (r: Result<(), Failure>)
    ensures r.Ok?
  {
    Ok(())
  }

  /** An invalid number passes the unawaited check. */
  lemma AsWrittenAcceptsInvalid(platform: LicenseRequest -> Result<bool, Failure>)
    ensures !ValidateLicense("홍길동", 0, "not-a-license", platform)
    ensures ValidateLicenseOrThrowAsWritten("홍길동", 0, "not-a-license", platform).Ok?
  {
  }

  /** `validateLicenseOrThrow` with the result awaited: INVALID_LICENSE exactly when invalid. */
  function ValidateLicenseOrThrow(realname: string, birthday: int, licenseStr: string,
                                  platform: LicenseRequest -> Result<bool, Failure>): (r: Result<(), Failure>)
    ensures r.Ok? <==> ValidateLicense(realname, birthday, licenseStr, platform)
    ensures r.Err? ==> r.error == Throw(InvalidLicense)
  {
    if ValidateLicense(realname, birthday, licenseStr, platform) then Ok(()) else Err(Throw(InvalidLicense))
  }
}
