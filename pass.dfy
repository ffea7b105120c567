/** Passes: the expiry arithmetic, the renewal window and the prepared pass writes. */
module Passes {
  import opened Wrappers
  import opened Tables
  import opened WrapperResults
  import opened Transactions
  import opened Results
  import Ids
  import Users

  const Day := 86400

  /** A call to the payments service, in the order it is made. */
  datatype Call =
    | Charge(userId: string, amount: int)               // POST records
    | IssueCoupon(userId: string, couponGroupId: string) // POST users/:userId/coupons
    | DropCoupon(userId: string, couponId: string)       // DELETE users/:userId/coupons/:couponId
    | CheckCouponGroup(couponGroupId: string)            // GET couponGroups/:couponGroupId

  /** What an operation that talks to the payments service did: its calls, then its result. */
  datatype Outcome<T> = Outcome(calls: seq<Call>, result: Result<T, Failure>)

  /** The payments service's answers for one pass. */
  datatype PaymentAnswers = PaymentAnswers(
    charge: Result<(), Failure>,
    dropCoupon: Result<(), Failure>,
    issueCoupon: Result<string, Failure>)

  predicate Charged(calls: seq<Call>) {
    exists i :: 0 <= i < |calls| && calls[i].Charge?
  }

  function Max(a: int, b: int): int {
    if a < b then b else a
  }

  /**
   * `caclulateExpiredAt`: no validity (or zero) means unlimited; otherwise
   * the validity is added to the old expiry, or to now once that has passed.
   * A pass without an expiry gives `dayjs(null)`, an invalid date.
   */
  function CalculateExpiredAt(pass: PassRow, program: Option<ProgramRow>, now: int): (r: Result<Expiry, Failure>)
    ensures program.None? ==> r == Err(Throw(InvalidError))
    ensures program.Some? && !Nonzero(program.value.validity) ==> r == Ok(Unlimited)
    ensures program.Some? && Nonzero(program.value.validity) && pass.expiredAt.Some? ==>
              r == Ok(At(Max(pass.expiredAt.value, now) + program.value.validity.value))
    ensures program.Some? && Nonzero(program.value.validity) && pass.expiredAt.None? ==> r == Ok(InvalidDate)
  {
    if program.None? then Err(Throw(InvalidError))
    else if !Nonzero(program.value.validity) then Ok(Unlimited)
    else
      var validity := program.value.validity.value;
      if pass.expiredAt.Some? && pass.expiredAt.value < now then Ok(At(now + validity))
      else if pass.expiredAt.Some? then Ok(At(pass.expiredAt.value + validity))
      else Ok(InvalidDate)
  }

  /** An extension never ends before the old expiry plus validity, nor before now plus validity. */
  lemma ExtensionNeverShortens(pass: PassRow, program: ProgramRow, now: int)
    requires Nonzero(program.validity) && pass.expiredAt.Some?
    ensures var e := CalculateExpiredAt(pass, Some(program), now).value;
            e.At? && e.t >= pass.expiredAt.value + program.validity.value && e.t >= now + program.validity.value
            && (e.t == pass.expiredAt.value + program.validity.value || e.t == now + program.validity.value)
  {
  }

  /**
   * The filter of `getExtendablePass`: last handled at least `interval`
   * days ago, and expiring between now and `remaining` days from now.
   * A pass never handled (`requestedAt` null) never matches.
   */
  predicate Extendable(p: PassRow, now: int, interval: int, remaining: int) {
    && p.requestedAt.Some? && p.requestedAt.value <= now - interval * Day
    && p.expiredAt.Some? && now <= p.expiredAt.value <= now + remaining * Day
  }

  /** `getExtendablePass(props)`: the ids of the matching passes; the defaults are 3 and 7 days. */
  function GetExtendablePass(t: Tables, interval: Option<int>, remaining: Option<int>, now: int): (ids: set<string>)
    ensures ids <= t.passes.Keys
    ensures forall k :: k in ids <==> k in t.passes && Extendable(t.passes[k], now, interval.GetOr(3), remaining.GetOr(7))
  {
    set k | k in t.passes && Extendable(t.passes[k], now, interval.GetOr(3), remaining.GetOr(7))
  }

  /** With the defaults, a selected pass expires within a week and was last handled three days ago or earlier. */
  lemma DefaultWindow(t: Tables, now: int, k: string)
    requires k in GetExtendablePass(t, None, None, now)
    ensures now <= t.passes[k].expiredAt.value <= now + 7 * Day
    ensures t.passes[k].requestedAt.value <= now - 3 * Day
  {
  }

  /** Stamping `requestedAt` takes a pass out of the window for `interval` days. */
  lemma StampedPassWaits(p: PassRow, stamped: int, now: int, interval: int, remaining: int)
    requires Extendable(p.(requestedAt := Some(stamped)), now, interval, remaining)
    ensures now >= stamped + interval * Day
  {
  }

  /**
   * `createPass`: a coupon is issued only when the program links a coupon
   * group; an expiry is set only when the program has a validity, otherwise
   * the column keeps its default, as every column `blank` stands for.
   */
  function CreatePass(user: UserRow, program: ProgramRow, passId: string, autoRenew: bool,
                      answers: PaymentAnswers, blank: PassRow, now: int): (o: Outcome<Op>)
    ensures Present(program.couponGroupId) ==> o.calls == [IssueCoupon(user.userId, program.couponGroupId.value)]
    ensures !Present(program.couponGroupId) ==> o.calls == [] && o.result.Ok?
    ensures Present(program.couponGroupId) && answers.issueCoupon.Err? ==> o.result == Err(answers.issueCoupon.error)
    ensures o.result.Ok? ==>
              o.result.value.CreatePass?
              && var p := o.result.value.pass;
              && p.passId == passId && p.userId == user.userId && p.passProgramId == program.passProgramId
              && p.autoRenew == autoRenew && p.couponGroupId == program.couponGroupId
              && p.requestedAt == blank.requestedAt
              && (p.expiredAt == if Nonzero(program.validity) then Some(now + program.validity.value) else blank.expiredAt)
              && (p.couponId == if Present(program.couponGroupId) then Some(answers.issueCoupon.value) else blank.couponId)
  {
    var calls := if Present(program.couponGroupId) then [IssueCoupon(user.userId, program.couponGroupId.value)] else [];
    if Present(program.couponGroupId) && answers.issueCoupon.Err? then Outcome(calls, Err(answers.issueCoupon.error))
    else
      var couponId := if Present(program.couponGroupId) then Some(answers.issueCoupon.value) else blank.couponId;
      var expiredAt := if Nonzero(program.validity) then Some(now + program.validity.value) else blank.expiredAt;
      Outcome(calls, Ok(Transactions.CreatePass(blank.(
        passId := passId, userId := user.userId, couponGroupId := program.couponGroupId, couponId := couponId,
        passProgramId := program.passProgramId, autoRenew := autoRenew, expiredAt := expiredAt))))
  }

  /** The calls of the coupon rotation: a delete when the pass holds a coupon, an issue when the program links a group. */
  function RotationCalls(userId: string, pass: PassRow, program: ProgramRow): seq<Call> {
    (if Present(pass.couponId) then [DropCoupon(userId, pass.couponId.value)] else [])
    + (if Present(program.couponGroupId) then [IssueCoupon(userId, program.couponGroupId.value)] else [])
  }

  /** The coupon columns the rotation writes: both only when the program links a coupon group. */
  predicate RotatedCoupon(p: PassPatch, program: ProgramRow, answers: PaymentAnswers) {
    && p.couponGroupId == (if Present(program.couponGroupId) then Put(program.couponGroupId) else Keep)
    && (Present(program.couponGroupId) ==> answers.issueCoupon.Ok? && p.couponId == Put(Some(answers.issueCoupon.value)))
    && (!Present(program.couponGroupId) ==> p.couponId == Keep)
  }

  /** The coupon rotation of `extendPass`: drop the old coupon, issue one of the program's group. */
  function RotateCoupon(userId: string, pass: PassRow, program: ProgramRow, answers: PaymentAnswers)
    : (o: Outcome<PassPatch>)
    ensures o.calls == RotationCalls(userId, pass, program)
    ensures o.result.Ok? ==> o.result.value.autoRenew == Keep && o.result.value.requestedAt == Keep
                             && o.result.value.expiredAt == Keep
    ensures o.result.Ok? ==> RotatedCoupon(o.result.value, program, answers)
    ensures o.result.Err? <==> Present(program.couponGroupId) && answers.issueCoupon.Err?
    ensures o.result.Err? ==> o.result.error == answers.issueCoupon.error
    ensures !Charged(o.calls)
  {
    var calls := RotationCalls(userId, pass, program);
    if !Present(program.couponGroupId) then Outcome(calls, Ok(NoPassChange))
    else
      assert calls[|calls| - 1].IssueCoupon?;
      match answers.issueCoupon
      case Err(e) => Outcome(calls, Err(e))
      case Ok(couponId) =>
        Outcome(calls, Ok(NoPassChange.(couponGroupId := Put(program.couponGroupId),
                                        couponId := Put(Some(couponId)))))
  }

  /** Whether `extendPass` posts a payment: not free, and a positive price. */
  predicate Chargeable(program: ProgramRow, free: bool) {
    !free && program.price.Some? && program.price.value > 0
  }

  /** The id of the user `extendPass` works for: the loaded user, or the stored owner of the pass. */
  function OwnerId(t: Tables, pass: PassRow, user: Option<UserRow>): string
    requires user.Some? || pass.userId in t.users
  {
    if user.Some? then user.value.userId else t.users[pass.userId].userId
  }

  /**
   * `extendPass`: the program must be loaded, the user found, the program
   * on sale; then the charge, the expiry, the coupon rotation. A failed
   * coupon delete is ignored. `user` is the user loaded with the pass.
   */
  function ExtendPass(t: Tables, pass: PassRow, program: Option<ProgramRow>, user: Option<UserRow>, free: bool,
                      answers: PaymentAnswers, now: int): (o: Outcome<Op>)
    ensures program.None? ==> o == Outcome([], Err(Throw(InvalidError)))
    ensures program.Some? && user.None? && pass.userId !in t.users ==> o == Outcome([], Err(Internal(OpcodeNotFound)))
    ensures program.Some? && (user.Some? || pass.userId in t.users) && !program.value.isSale ==>
              o == Outcome([], Err(Unlisted(PassProgramIsNotSale)))
    ensures Charged(o.calls) <==>
              program.Some? && (user.Some? || pass.userId in t.users) && program.value.isSale
              && Chargeable(program.value, free)
    ensures Charged(o.calls) ==> o.calls[0] == Charge(pass.userId, program.value.price.value)
    ensures Charged(o.calls) && answers.charge.Err? ==> o == Outcome([o.calls[0]], Err(answers.charge.error))
    ensures o.result.Ok? ==>
              program.Some? && program.value.isSale
              && o.result.value.UpdatePass? && o.result.value.passId == pass.passId
              && var p := o.result.value.passPatch;
              && p.autoRenew == Keep && p.requestedAt == Keep
              && p.expiredAt == Put(CalculateExpiredAt(pass, program, now).value)
              && RotatedCoupon(p, program.value, answers)
    ensures program.Some? && (user.Some? || pass.userId in t.users) && program.value.isSale
            && !(Chargeable(program.value, free) && answers.charge.Err?) ==>
              o.calls == (if Chargeable(program.value, free) then [Charge(pass.userId, program.value.price.value)] else [])
                         + RotationCalls(OwnerId(t, pass, user), pass, program.value)
              && (o.result.Err? <==> Present(program.value.couponGroupId) && answers.issueCoupon.Err?)
  {
    if program.None? then Outcome([], Err(Throw(InvalidError)))
    else
      var owner := if user.Some? then Ok(user.value) else Users.GetUserOrThrow(t, pass.userId);
      if owner.Err? then Outcome([], Err(owner.error))
      else if !program.value.isSale then Outcome([], Err(Unlisted(PassProgramIsNotSale)))
      else
        var charge := if Chargeable(program.value, free) then [Charge(pass.userId, program.value.price.value)] else [];
        assert charge != [] ==> charge[0].Charge?;
        if charge != [] && answers.charge.Err? then Outcome(charge, Err(answers.charge.error))
        else
          var expiredAt := CalculateExpiredAt(pass, program, now).value;
          var rotation := RotateCoupon(owner.value.userId, pass, program.value, answers);
          var calls := charge + rotation.calls;
          assert charge != [] ==> calls[0] == charge[0];
          assert Charged(calls) ==> charge != [] by {
            if charge == [] {
              assert calls == rotation.calls;
            }
          }
          match rotation.result
          case Err(e) => Outcome(calls, Err(e))
          case Ok(patch) => Outcome(calls, Ok(UpdatePass(pass.passId, patch.(expiredAt := Put(expiredAt)))))
  }

  /** What the coupon delete answered has no effect on what `extendPass` does. */
  lemma ExtendIgnoresDropFailure(t: Tables, pass: PassRow, program: Option<ProgramRow>, user: Option<UserRow>,
                                 free: bool, answers: PaymentAnswers, dropped: Result<(), Failure>, now: int)
    ensures ExtendPass(t, pass, program, user, free, answers.(dropCoupon := dropped), now)
            == ExtendPass(t, pass, program, user, free, answers, now)
  {
  }

  /** A program without validity makes the extension unlimited. */
  lemma ExtendWithoutValidityIsUnlimited(t: Tables, pass: PassRow, program: ProgramRow, user: Option<UserRow>,
                                         free: bool, answers: PaymentAnswers, now: int)
    requires !Nonzero(program.validity)
    requires ExtendPass(t, pass, Some(program), user, free, answers, now).result.Ok?
    ensures ExtendPass(t, pass, Some(program), user, free, answers, now).result.value.passPatch.expiredAt == Put(Unlimited)
  {
  }

  /** `modifyPass`: an update of `autoRenew` and `requestedAt`, each only when given. */
  function ModifyPass(pass: PassRow, autoRenew: Option<bool>, requestedAt: Option<int>): (op: Op)
    ensures op.UpdatePass? && op.passId == pass.passId
    ensures op.passPatch.expiredAt == Keep && op.passPatch.couponGroupId == Keep && op.passPatch.couponId == Keep
  {
    UpdatePass(pass.passId, NoPassChange.(
      autoRenew := if autoRenew.Some? then Put(autoRenew.value) else Keep,
      requestedAt := if requestedAt.Some? then Put(requestedAt.value) else Keep))
  }

  /** Committing `modifyPass` changes those two columns of that pass and nothing else. */
  lemma ModifyPassEffect(t: Tables, pass: PassRow, autoRenew: Option<bool>, requestedAt: Option<int>)
    requires pass.passId in t.passes
    ensures Apply(t, ModifyPass(pass, autoRenew, requestedAt)).Ok?
    ensures var before := t.passes[pass.passId];
            Apply(t, ModifyPass(pass, autoRenew, requestedAt)).value.0
            == t.(passes := t.passes[pass.passId := before.(autoRenew := autoRenew.GetOr(before.autoRenew),
                                                          requestedAt := if requestedAt.Some? then requestedAt else before.requestedAt)])
  {
  }

  /** `generatePassId`: the first drawn UUID no pass holds. */
  method GeneratePassId(t: Tables, draws: seq<string>) returns (passId: string)
    requires exists k :: 0 <= k < |draws| && draws[k] !in t.passes
    ensures passId !in t.passes
    ensures exists k :: 0 <= k < |draws| && draws[k] == passId && forall j :: 0 <= j < k ==> draws[j] in t.passes
  {
    var tries;
    passId, tries := Ids.FirstUnused(draws, t.passes.Keys);
  }
}
