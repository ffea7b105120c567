/**
 * Deferred writes and the transaction composer `TA`.
 *
 * A controller prepares a write and hands back a thunk; here the thunk's
 * product is an `Op` value. `Apply` gives one write's effect on the database,
 * `ApplyAll` a batch's effect, and `Database.Transaction` commits a batch all
 * or nothing.
 */
module Transactions {
  import opened Wrappers
  import opened Tables
  import opened WrapperResults

  /** One field of an update: left alone, or written. */
  datatype Write<T> = Keep | Put(v: T) {
    function Over(current: T): (r: T)
      ensures Keep? ==> r == current
      ensures Put? ==> r == v
    {
      if Put? then v else current
    }
  }

  datatype BalanceChange = Unchanged | SetTo(n: int) | Increment(n: int) | Decrement(n: int)

  datatype UserPatch = UserPatch(
    realname: Write<string>,
    birthday: Write<int>,
    email: Write<Option<string>>,
    phoneNo: Write<Option<string>>,
    levelNo: Write<int>,
    referrerUserId: Write<Option<string>>,
    licenseId: Write<Option<string>>,
    balance: BalanceChange,
    usedAt: Write<Option<int>>,
    legacyUserId: Write<Option<string>>)

  const NoUserChange := UserPatch(Keep, Keep, Keep, Keep, Keep, Keep, Keep, Unchanged, Keep, Keep)

  /** An instant written into `expiredAt`; `InvalidDate` is what `dayjs(null)` turns into. */
  datatype Expiry = Unlimited | At(t: int) | InvalidDate

  datatype PassPatch = PassPatch(
    expiredAt: Write<Expiry>,
    autoRenew: Write<bool>,
    requestedAt: Write<int>,
    couponGroupId: Write<Option<string>>,
    couponId: Write<Option<string>>)

  const NoPassChange := PassPatch(Keep, Keep, Keep, Keep, Keep)

  datatype ProgramPatch = ProgramPatch(
    name: Write<string>,
    description: Write<Option<string>>,
    isSale: Write<bool>,
    couponGroupId: Write<Option<string>>,
    validity: Write<Option<int>>,
    allowRenew: Write<bool>,
    price: Write<Option<int>>)

  datatype CouponPatch = CouponPatch(
    discountId: Write<Option<string>>,
    couponGroupId: Write<string>,
    usedAt: Write<Option<int>>,
    expiredAt: Write<Option<int>>)

  datatype NotificationPatch = NotificationPatch(
    kind: Write<NotificationType>,
    title: Write<Option<string>>,
    description: Write<Option<string>>,
    url: Write<Option<string>>,
    visible: Write<bool>,
    readedAt: Write<Option<int>>,
    sendedAt: Write<Option<int>>)

  const NoNotificationChange := NotificationPatch(Keep, Keep, Keep, Keep, Keep, Keep, Keep)

  /** A prepared storage write, as the thunks of the core produce them. */
  datatype Op =
    | CreateUser(user: UserRow)
    | UpdateUser(userId: string, userPatch: UserPatch)
    | CreatePhone(phone: PhoneRow)
    | RevokePhone(phoneId: string, at: int)
    | CreateLicense(license: LicenseRow, owner: string)
    | DeleteLicensesOf(licenseOwner: string)
    | CreateMethod(methodRow: MethodRow)
    | DeleteMethod(methodId: string)
    | CreateSession(session: SessionRow)
    | DeleteSessions(sessionOwner: string, onlySession: Option<string>)
    | SetMessagingToken(tokenSession: string, token: string)
    | TouchSessionUser(touchedSession: string, at: int)
    | CreatePoint(point: PointRow)
    | CreateProgram(program: ProgramRow)
    | UpdateProgram(passProgramId: string, programPatch: ProgramPatch)
    | DeleteProgram(deletedProgram: string)
    | CreatePass(pass: PassRow)
    | UpdatePass(passId: string, passPatch: PassPatch)
    | CreateCoupon(coupon: CouponRow)
    | UpdateCoupon(couponId: string, couponPatch: CouponPatch)
    | CreateNotification(notification: NotificationRow)
    | UpdateNotification(notificationId: string, notificationPatch: NotificationPatch)
    | DeleteNotification(deletedNotification: string)

  /** What one write returns: the key of the row it touched, or a count for a bulk delete. */
  datatype Output = Row(key: string) | Count(n: nat)

  function PatchUser(u: UserRow, p: UserPatch): UserRow {
    u.(realname := p.realname.Over(u.realname),
       birthday := p.birthday.Over(u.birthday),
       email := p.email.Over(u.email),
       phoneNo := p.phoneNo.Over(u.phoneNo),
       levelNo := p.levelNo.Over(u.levelNo),
       referrerUserId := p.referrerUserId.Over(u.referrerUserId),
       licenseId := p.licenseId.Over(u.licenseId),
       centercoinBalance := match p.balance
         case Unchanged => u.centercoinBalance
         case SetTo(n) => n
         case Increment(n) => u.centercoinBalance + n
         case Decrement(n) => u.centercoinBalance - n,
       usedAt := p.usedAt.Over(u.usedAt),
       legacyUserId := p.legacyUserId.Over(u.legacyUserId))
  }

  function PatchPass(s: PassRow, p: PassPatch): PassRow
    requires p.expiredAt != Put(InvalidDate)
  {
    s.(expiredAt := match p.expiredAt
         case Keep => s.expiredAt
         case Put(e) => if e.At? then Some(e.t) else None,
       autoRenew := p.autoRenew.Over(s.autoRenew),
       requestedAt := if p.requestedAt.Put? then Some(p.requestedAt.v) else s.requestedAt,
       couponGroupId := p.couponGroupId.Over(s.couponGroupId),
       couponId := p.couponId.Over(s.couponId))
  }

  function PatchProgram(g: ProgramRow, p: ProgramPatch): ProgramRow {
    g.(name := p.name.Over(g.name),
       description := p.description.Over(g.description),
       isSale := p.isSale.Over(g.isSale),
       couponGroupId := p.couponGroupId.Over(g.couponGroupId),
       validity := p.validity.Over(g.validity),
       allowRenew := p.allowRenew.Over(g.allowRenew),
       price := p.price.Over(g.price))
  }

  function PatchCoupon(c: CouponRow, p: CouponPatch): CouponRow {
    c.(discountId := p.discountId.Over(c.discountId),
       couponGroupId := p.couponGroupId.Over(c.couponGroupId),
       usedAt := p.usedAt.Over(c.usedAt),
       expiredAt := p.expiredAt.Over(c.expiredAt))
  }

  function PatchNotification(n: NotificationRow, p: NotificationPatch): NotificationRow {
    n.(kind := p.kind.Over(n.kind),
       title := p.title.Over(n.title),
       description := p.description.Over(n.description),
       url := p.url.Over(n.url),
       visible := p.visible.Over(n.visible),
       readedAt := p.readedAt.Over(n.readedAt),
       sendedAt := p.sendedAt.Over(n.sendedAt))
  }

  /** Whether a session is hit by `deleteMany({ where: { userId, sessionId? } })`. */
  predicate SessionHit(s: SessionRow, owner: string, only: Option<string>) {
    s.userId == owner && (only.None? || s.sessionId == only.value)
  }

  const NotFound: Failure := Database(RecordNotFound)
  const Duplicate: Failure := Database(UniqueViolation)

  /** The effect of one write: a create on a taken key or an update of a missing row fails. */
  function Apply(t: Tables, op: Op): Result<(Tables, Output), Failure> {
    match op
    case CreateUser(u) =>
      if u.userId in t.users then Err(Duplicate)
      else Ok((t.(users := t.users[u.userId := u]), Row(u.userId)))
    case UpdateUser(id, p) =>
      if id !in t.users then Err(NotFound)
      else Ok((t.(users := t.users[id := PatchUser(t.users[id], p)]), Row(id)))
    case CreatePhone(ph) =>
      if ph.phoneId in t.phones then Err(Duplicate)
      else Ok((t.(phones := t.phones[ph.phoneId := ph]), Row(ph.phoneId)))
    case RevokePhone(id, at) =>
      if id !in t.phones then Err(NotFound)
      else Ok((t.(phones := t.phones[id := t.phones[id].(usedAt := Some(at))]), Row(id)))
    case CreateLicense(l, owner) =>
      if l.licenseId in t.licenses then Err(Duplicate)
      else if owner !in t.users then Err(NotFound)
      else Ok((t.(licenses := t.licenses[l.licenseId := l],
                  users := t.users[owner := t.users[owner].(licenseId := Some(l.licenseId))]),
               Row(l.licenseId)))
    case DeleteLicensesOf(owner) =>
      if owner in t.users && t.users[owner].licenseId.Some? && t.users[owner].licenseId.value in t.licenses
      then Ok((t.(licenses := t.licenses - {t.users[owner].licenseId.value}), Count(1)))
      else Ok((t, Count(0)))
    case CreateMethod(m) =>
      if m.methodId in t.methods then Err(Duplicate)
      else Ok((t.(methods := t.methods[m.methodId := m]), Row(m.methodId)))
    case DeleteMethod(id) =>
      if id !in t.methods then Err(NotFound)
      else Ok((t.(methods := t.methods - {id}), Row(id)))
    case CreateSession(s) =>
      if s.sessionId in t.sessions then Err(Duplicate)
      else if s.userId !in t.users then Err(NotFound)
      else Ok((t.(sessions := t.sessions[s.sessionId := s]), Row(s.sessionId)))
    case DeleteSessions(owner, only) =>
      var hit := set k | k in t.sessions && SessionHit(t.sessions[k], owner, only);
      Ok((t.(sessions := t.sessions - hit), Count(|hit|)))
    case SetMessagingToken(id, token) =>
      if id !in t.sessions then Err(NotFound)
      else Ok((t.(sessions := t.sessions[id := t.sessions[id].(messagingToken := Some(token))]), Row(id)))
    case TouchSessionUser(id, at) =>
      if id !in t.sessions || t.sessions[id].userId !in t.users then Err(NotFound)
      else
        var u := t.sessions[id].userId;
        Ok((t.(users := t.users[u := t.users[u].(usedAt := Some(at))]), Row(u)))
    case CreatePoint(p) =>
      Ok((t.(points := t.points + [p]), Row(p.pointId)))
    case CreateProgram(g) =>
      if g.passProgramId in t.programs then Err(Duplicate)
      else Ok((t.(programs := t.programs[g.passProgramId := g]), Row(g.passProgramId)))
    case UpdateProgram(id, p) =>
      if id !in t.programs then Err(NotFound)
      else Ok((t.(programs := t.programs[id := PatchProgram(t.programs[id], p)]), Row(id)))
    case DeleteProgram(id) =>
      if id !in t.programs then Err(NotFound)
      else Ok((t.(programs := t.programs - {id}), Row(id)))
    case CreatePass(s) =>
      if s.passId in t.passes then Err(Duplicate)
      else Ok((t.(passes := t.passes[s.passId := s]), Row(s.passId)))
    case UpdatePass(id, p) =>
      if id !in t.passes then Err(NotFound)
      else if p.expiredAt == Put(InvalidDate) then Err(Database(InvalidValue))
      else Ok((t.(passes := t.passes[id := PatchPass(t.passes[id], p)]), Row(id)))
    case CreateCoupon(c) =>
      if c.couponId in t.coupons then Err(Duplicate)
      else Ok((t.(coupons := t.coupons[c.couponId := c]), Row(c.couponId)))
    case UpdateCoupon(id, p) =>
      if id !in t.coupons then Err(NotFound)
      else Ok((t.(coupons := t.coupons[id := PatchCoupon(t.coupons[id], p)]), Row(id)))
    case CreateNotification(n) =>
      if n.notificationId in t.notifications then Err(Duplicate)
      else Ok((t.(notifications := t.notifications[n.notificationId := n]), Row(n.notificationId)))
    case UpdateNotification(id, p) =>
      if id !in t.notifications then Err(NotFound)
      else Ok((t.(notifications := t.notifications[id := PatchNotification(t.notifications[id], p)]), Row(id)))
    case DeleteNotification(id) =>
      if id !in t.notifications then Err(NotFound)
      else Ok((t.(notifications := t.notifications - {id}), Row(id)))
  }

  lemma AccountWritesKeepKeyed(t: Tables, op: Op)
    requires op.CreateUser? || op.UpdateUser? || op.CreatePhone? || op.RevokePhone? || op.CreateLicense? || op.DeleteLicensesOf? || op.CreateMethod? || op.DeleteMethod?
    requires Keyed(t) && Apply(t, op).Ok?
    ensures Keyed(Apply(t, op).value.0)
  {
  }

  lemma SessionAndProgramWritesKeepKeyed(t: Tables, op: Op)
    requires op.CreateSession? || op.DeleteSessions? || op.SetMessagingToken? || op.TouchSessionUser? || op.CreatePoint? || op.CreateProgram? || op.UpdateProgram? || op.DeleteProgram?
    requires Keyed(t) && Apply(t, op).Ok?
    ensures Keyed(Apply(t, op).value.0)
  {
  }

  lemma PassWritesKeepKeyed(t: Tables, op: Op)
    requires op.CreatePass? || op.UpdatePass?
    requires Keyed(t) && Apply(t, op).Ok?
    ensures Keyed(Apply(t, op).value.0)
  {
  }

  lemma CouponWritesKeepKeyed(t: Tables, op: Op)
    requires op.CreateCoupon? || op.UpdateCoupon? || op.CreateNotification? || op.UpdateNotification? || op.DeleteNotification?
    requires Keyed(t) && Apply(t, op).Ok?
    ensures Keyed(Apply(t, op).value.0)
  {
  }

  /** Every write keeps each row under its own primary key. */
  lemma ApplyKeepsKeyed(t: Tables, op: Op)
    requires Keyed(t) && Apply(t, op).Ok?
    ensures Keyed(Apply(t, op).value.0)
  {
    if op.CreateUser? || op.UpdateUser? || op.CreatePhone? || op.RevokePhone? || op.CreateLicense? || op.DeleteLicensesOf? || op.CreateMethod? || op.DeleteMethod? {
      AccountWritesKeepKeyed(t, op);
    } else if op.CreateSession? || op.DeleteSessions? || op.SetMessagingToken? || op.TouchSessionUser? || op.CreatePoint? || op.CreateProgram? || op.UpdateProgram? || op.DeleteProgram? {
      SessionAndProgramWritesKeepKeyed(t, op);
    } else if op.CreatePass? || op.UpdatePass? {
      PassWritesKeepKeyed(t, op);
    } else {
      CouponWritesKeepKeyed(t, op);
    }
  }

  /** So does every committed batch. */
  lemma {:induction false} ApplyAllKeepsKeyed(t: Tables, ops: seq<Op>)
    requires Keyed(t)
    ensures Keyed(Committed(t, ops))
    decreases |ops|
  {
    if ops != [] && ApplyAll(t, ops).Ok? {
      var t1 := Apply(t, ops[0]).value.0;
      ApplyKeepsKeyed(t, ops[0]);
      ApplyAllKeepsKeyed(t1, ops[1..]);
    }
  }

  /** The effect of a batch, in order; the first failing write fails the whole batch. */
  function ApplyAll(t: Tables, ops: seq<Op>): Result<(Tables, seq<Output>), Failure>
    decreases |ops|
  {
    if ops == [] then Ok((t, []))
    else
      match Apply(t, ops[0])
      case Err(e) => Err(e)
      case Ok((t1, out)) => Shift([out], ApplyAll(t1, ops[1..]))
  }

  /** Puts earlier outputs in front of a batch result. */
  function Shift(outs: seq<Output>, r: Result<(Tables, seq<Output>), Failure>): Result<(Tables, seq<Output>), Failure> {
    match r
    case Ok((t, rest)) => Ok((t, outs + rest))
    case Err(e) => Err(e)
  }

  /** The database after committing a batch: the batch's effect, or nothing at all. */
  function Committed(t: Tables, ops: seq<Op>): Tables {
    match ApplyAll(t, ops)
    case Ok((t1, _)) => t1
    case Err(_) => t
  }

  /** Continues a partial batch result with more writes. */
  function Then(r: Result<(Tables, seq<Output>), Failure>, more: seq<Op>): Result<(Tables, seq<Output>), Failure> {
    match r
    case Err(e) => Err(e)
    case Ok((t1, outs)) => Shift(outs, ApplyAll(t1, more))
  }

  /** A successful batch yields one output per write, in order. */
  lemma {:induction false} ApplyAllOutputs(t: Tables, ops: seq<Op>)
    requires ApplyAll(t, ops).Ok?
    ensures |ApplyAll(t, ops).value.1| == |ops|
    decreases |ops|
  {
    if ops != [] {
      var t1 := Apply(t, ops[0]).value.0;
      ApplyAllOutputs(t1, ops[1..]);
    }
  }

  /** A committed single write is that write's effect, or nothing. */
  lemma CommittedOne(t: Tables, op: Op)
    ensures Apply(t, op).Ok? ==> ApplyAll(t, [op]) == Ok((Apply(t, op).value.0, [Apply(t, op).value.1]))
    ensures Apply(t, op).Ok? ==> Committed(t, [op]) == Apply(t, op).value.0
    ensures Apply(t, op).Err? ==> Committed(t, [op]) == t
  {
    assert [op][0] == op;
    assert [op][1..] == [];
    match Apply(t, op) {
      case Ok((t1, out)) =>
        assert ApplyAll(t1, []) == Ok((t1, []));
        assert [out] + [] == [out];
      case Err(_) =>
    }
  }

  /** Running `a + b` is running `a` and then `b` on its result: order is kept. */
  lemma {:induction false} ApplyAllAppend(t: Tables, a: seq<Op>, b: seq<Op>)
    ensures ApplyAll(t, a + b) == Then(ApplyAll(t, a), b)
    decreases |a|
  {
    if a == [] {
      assert a + b == b;
      match ApplyAll(t, b)
      case Ok((t1, outs)) => assert [] + outs == outs;
      case Err(_) =>
    } else {
      assert (a + b)[0] == a[0];
      assert (a + b)[1..] == a[1..] + b;
      match Apply(t, a[0])
      case Err(_) =>
      case Ok((t1, out)) =>
        ApplyAllAppend(t1, a[1..], b);
        match ApplyAll(t1, a[1..])
        case Err(_) =>
        case Ok((t2, outs)) =>
          match ApplyAll(t2, b)
          case Err(_) =>
          case Ok((t3, rest)) => assert [out] + (outs + rest) == ([out] + outs) + rest;
    }
  }

  /** If one write of a batch fails on the state its predecessors left, nothing is committed. */
  lemma {:induction false} OneFailureVoidsBatch(t: Tables, ops: seq<Op>, i: nat)
    requires i < |ops|
    requires ApplyAll(t, ops[..i]).Ok?
    requires Apply(ApplyAll(t, ops[..i]).value.0, ops[i]).Err?
    ensures ApplyAll(t, ops).Err?
    ensures Committed(t, ops) == t
  {
    assert ops == ops[..i] + ops[i..];
    ApplyAllAppend(t, ops[..i], ops[i..]);
    assert ops[i..][0] == ops[i];
  }

  /**
   * `Promise.all` over the prepared thunks: the first failure in list order,
   * or every prepared write in input order.
   */
  function Prepared(prepared: seq<Result<Op, Failure>>): Result<seq<Op>, Failure>
    decreases |prepared|
  {
    if prepared == [] then Ok([])
    else if prepared[0].Err? then Err(prepared[0].error)
    else
      match Prepared(prepared[1..])
      case Err(e) => Err(e)
      case Ok(ops) => Ok([prepared[0].value] + ops)
  }

  /** Preparation succeeds iff every thunk was prepared, and then keeps their order. */
  lemma {:induction false} PreparedKeepsOrder(prepared: seq<Result<Op, Failure>>)
    ensures Prepared(prepared).Ok? <==> forall i :: 0 <= i < |prepared| ==> prepared[i].Ok?
    ensures Prepared(prepared).Ok? ==>
      |Prepared(prepared).value| == |prepared|
      && forall i :: 0 <= i < |prepared| ==> Prepared(prepared).value[i] == prepared[i].value
    decreases |prepared|
  {
    if prepared != [] {
      PreparedKeepsOrder(prepared[1..]);
      if prepared[0].Ok? && Prepared(prepared[1..]).Ok? {
        var ops := Prepared(prepared).value;
        forall i | 0 <= i < |prepared| ensures ops[i] == prepared[i].value {
          if i > 0 {
            assert ops[i] == Prepared(prepared[1..]).value[i - 1];
            assert prepared[1..][i - 1] == prepared[i];
          }
        }
      }
      if !prepared[0].Ok? {
        assert !prepared[0].Ok?;
      } else if !Prepared(prepared[1..]).Ok? {
        var j :| 0 <= j < |prepared[1..]| && !prepared[1..][j].Ok?;
        assert !prepared[j + 1].Ok?;
      }
    }
  }

  /** The database, as one mutable store. */
  class Database {
    var tables: Tables

    constructor (t: Tables)
      ensures tables == t
    {
      tables := t;
    }

    /** One awaited storage call: applied on its own, or not at all. */
    method Execute(op: Op) returns (r: Result<Output, Failure>)
      modifies this
      ensures Apply(old(tables), op).Ok? ==>
        tables == Apply(old(tables), op).value.0 && r == Ok(Apply(old(tables), op).value.1)
      ensures Apply(old(tables), op).Err? ==>
        tables == old(tables) && r == Err(Apply(old(tables), op).error)
    {
      match Apply(tables, op)
      case Ok((t1, out)) =>
        tables := t1;
        r := Ok(out);
      case Err(e) =>
        r := Err(e);
    }

    /** `prisma.$transaction(ops)`: every write in order, or none of them. */
    method Transaction(ops: seq<Op>) returns (r: Result<seq<Output>, Failure>)
      modifies this
      ensures ApplyAll(old(tables), ops).Ok? ==>
        tables == ApplyAll(old(tables), ops).value.0 && r == Ok(ApplyAll(old(tables), ops).value.1)
      ensures ApplyAll(old(tables), ops).Err? ==>
        tables == old(tables) && r == Err(ApplyAll(old(tables), ops).error)
      ensures tables == Committed(old(tables), ops)
    {
      var cur := tables;
      var outs: seq<Output> := [];
      var i := 0;
      assert ops[i..] == ops;
      match ApplyAll(cur, ops) {
        case Ok((t2, rest)) => assert outs + rest == rest;
        case Err(_) =>
      }
      while i < |ops|
        invariant 0 <= i <= |ops|
        invariant ApplyAll(old(tables), ops) == Shift(outs, ApplyAll(cur, ops[i..]))
        invariant tables == old(tables)
        decreases |ops| - i
      {
        assert ops[i..][0] == ops[i];
        assert ops[i..][1..] == ops[i + 1..];
        match Apply(cur, ops[i]) {
          case Err(e) =>
            return Err(e);
          case Ok((t1, out)) =>
            match ApplyAll(t1, ops[i + 1..]) {
              case Ok((t2, rest)) => assert outs + ([out] + rest) == (outs + [out]) + rest;
              case Err(_) =>
            }
            cur := t1;
            outs := outs + [out];
            i := i + 1;
        }
      }
      assert ops[i..] == [];
      assert outs + [] == outs;
      tables := cur;
      r := Ok(outs);
    }

    /**
     * `TA(functions)`: await every preparation, and only if all succeeded
     * submit their writes, in input order, as one transaction.
     */
    method Compose(prepared: seq<Result<Op, Failure>>) returns (r: Result<seq<Output>, Failure>)
      modifies this
      ensures Prepared(prepared).Err? ==> tables == old(tables) && r == Err(Prepared(prepared).error)
      ensures Prepared(prepared).Ok? ==> tables == Committed(old(tables), Prepared(prepared).value)
      ensures Prepared(prepared).Ok? && ApplyAll(old(tables), Prepared(prepared).value).Ok? ==>
        r == Ok(ApplyAll(old(tables), Prepared(prepared).value).value.1)
      ensures r.Ok? ==> Prepared(prepared).Ok?
    {
      match Prepared(prepared)
      case Err(e) =>
        r := Err(e);
      case Ok(ops) =>
        r := Transaction(ops);
    }
  }
}
