/** Verified phone numbers (`PhoneModel`): created on verification, stamped when used. */
module Phone {
  import opened Wrappers
  import opened Tables
  import opened WrapperResults
  import opened Transactions

  /**
   * `createPhone`: stores the E.164 form of the number read with region KR.
   * `e164` is libphonenumber's parse-and-format, `None` where it throws;
   * `phoneId` is the key the database generates.
   */
  method CreatePhone(db: Database, phone: string, e164: string -> Option<string>, phoneId: string)
    returns (r: Result<PhoneRow, Failure>)
    modifies db
    ensures e164(phone).None? ==> r == Err(Other) && db.tables == old(db.tables)
    ensures e164(phone).Some? && phoneId in old(db.tables.phones) ==>
      r == Err(Database(UniqueViolation)) && db.tables == old(db.tables)
    ensures e164(phone).Some? && phoneId !in old(db.tables.phones) ==>
      r == Ok(PhoneRow(phoneId, e164(phone).value, None))
      && db.tables == old(db.tables).(phones := old(db.tables.phones)[phoneId := r.value])
  {
    match e164(phone) {
      case None =>
        return Err(Other);
      case Some(formatted) =>
        var row := PhoneRow(phoneId, formatted, None);
        var w := db.Execute(Transactions.CreatePhone(row));
        if w.Err? {
          return Err(w.error);
        }
        r := Ok(row);
    }
  }

  /** `getPhone`: the row with that id, whether or not it was already used. */
  function GetPhone(t: Tables, phoneId: string): (p: Option<PhoneRow>)
    ensures p.Some? <==> phoneId in t.phones
    ensures p.Some? ==> p.value == t.phones[phoneId]
  {
    if phoneId in t.phones then Some(t.phones[phoneId]) else None
  }

  /** `getPhoneOrThrow`: a missing row is NOT_FOUND. */
  function GetPhoneOrThrow(t: Tables, phoneId: string): (r: Result<PhoneRow, Failure>)
    ensures r.Err? <==> phoneId !in t.phones
    ensures r.Err? ==> r.error == Internal(OpcodeNotFound)
    ensures r.Ok? ==> r.value == t.phones[phoneId]
  {
    match GetPhone(t, phoneId)
    case None => Err(Internal(OpcodeNotFound))
    case Some(p) => Ok(p)
  }

  /** `revokePhone`: stamps `usedAt` on that row and changes nothing else. */
  method RevokePhone(db: Database, phoneId: string, now: int) returns (r: Result<PhoneRow, Failure>)
    modifies db
    ensures phoneId !in old(db.tables.phones) ==> r == Err(Database(RecordNotFound)) && db.tables == old(db.tables)
    ensures phoneId in old(db.tables.phones) ==>
      r == Ok(old(db.tables.phones[phoneId]).(usedAt := Some(now)))
      && db.tables == old(db.tables).(phones := old(db.tables.phones)[phoneId := r.value])
  {
    var w := db.Execute(Transactions.RevokePhone(phoneId, now));
    if w.Err? {
      return Err(w.error);
    }
    r := Ok(db.tables.phones[phoneId]);
  }

  /** Revoking does not hide a row from the lookup: a used phone still resolves, now stamped. */
  lemma RevokedPhoneStillResolves(t: Tables, phoneId: string, now: int)
    requires phoneId in t.phones
    ensures Apply(t, Transactions.RevokePhone(phoneId, now)).Ok?
    ensures var t1 := Apply(t, Transactions.RevokePhone(phoneId, now)).value.0;
      GetPhoneOrThrow(t1, phoneId) == Ok(t.phones[phoneId].(usedAt := Some(now)))
  {
  }
}
