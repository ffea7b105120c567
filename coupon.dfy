/** Coupons: a user's enrolment in a coupon group, capped per user by the group's limit. */
module Coupons {
  import opened Wrappers
  import opened Tables
  import opened WrapperResults
  import opened Transactions
  import Notifications

  /** `getCoupon`: the user's coupon with that id. */
  function GetCoupon(t: Tables, userId: string, couponId: string): (c: Option<CouponRow>)
    ensures c.Some? <==> couponId in t.coupons && t.coupons[couponId].userId == userId
    ensures c.Some? ==> c.value == t.coupons[couponId]
  {
    if couponId in t.coupons && t.coupons[couponId].userId == userId then Some(t.coupons[couponId]) else None
  }

  /** `getCouponOrThrow`: another user's or an unknown coupon is NOT_FOUND. */
  function GetCouponOrThrow(t: Tables, userId: string, couponId: string): (r: Result<CouponRow, Failure>)
    ensures r.Err? <==> GetCoupon(t, userId, couponId).None?
    ensures r.Err? ==> r.error == Internal(OpcodeNotFound)
    ensures r.Ok? ==> r.value.userId == userId && r.value == t.coupons[couponId]
  {
    match GetCoupon(t, userId, couponId)
    case None => Err(Internal(OpcodeNotFound))
    case Some(c) => Ok(c)
  }

  /** The filter of `getCoupons`; ordering and paging are not modelled. */
  datatype CouponQuery = CouponQuery(search: Option<string>, showUsed: Option<bool>)

  /**
   * One clause of the `OR`: the search text is the coupon's id or group id,
   * or occurs in the group's name or description. The search defaults to
   * the empty text, which every group name contains.
   */
  predicate Searched(t: Tables, c: CouponRow, search: string) {
    || c.couponId == search
    || c.couponGroupId == search
    || (c.couponGroupId in t.couponGroups
        && (Notifications.Contains(t.couponGroups[c.couponGroupId].name, search)
            || Notifications.Contains(t.couponGroups[c.couponGroupId].description, search)))
  }

  predicate CouponListed(t: Tables, c: CouponRow, userId: string, q: CouponQuery) {
    && c.userId == userId
    && Searched(t, c, q.search.GetOr(""))
    && (q.showUsed == Some(false) ==> c.usedAt.None?)
  }

  /** The ids `getCoupons` counts in `total`. */
  function GetCoupons(t: Tables, userId: string, q: CouponQuery): (ids: set<string>)
    ensures ids <= t.coupons.Keys
    ensures forall id :: id in ids ==> t.coupons[id].userId == userId
    ensures q.showUsed == Some(false) ==> forall id :: id in ids ==> t.coupons[id].usedAt.None?
    ensures forall id :: id in ids ==> Searched(t, t.coupons[id], q.search.GetOr(""))
    ensures forall id :: id in t.coupons && CouponListed(t, t.coupons[id], userId, q) ==> id in ids
  {
    set id | id in t.coupons && CouponListed(t, t.coupons[id], userId, q)
  }

  /** Every text contains the empty text. */
  lemma ContainsEmpty(text: string)
    ensures Notifications.Contains(text, "")
  {
  }

  /** With the default query every coupon of the user in an existing group is listed, used or not. */
  lemma DefaultQueryListsAll(t: Tables, userId: string, id: string)
    requires id in t.coupons && t.coupons[id].userId == userId && t.coupons[id].couponGroupId in t.couponGroups
    ensures id in GetCoupons(t, userId, CouponQuery(None, None))
  {
    ContainsEmpty(t.couponGroups[t.coupons[id].couponGroupId].name);
  }

  /** The schema of `modifyCoupon`; `isUuid` is Joi's UUID rule. */
  predicate ValidCouponChange(p: CouponPatch, isUuid: string -> bool) {
    && (p.discountId.Put? && p.discountId.v.Some? ==> isUuid(p.discountId.v.value))
    && (p.couponGroupId.Put? ==> isUuid(p.couponGroupId.v))
  }

  /** `modifyCoupon`: writes only the four fields given. */
  function ModifyCoupon(c: CouponRow, p: CouponPatch, isUuid: string -> bool): (r: Result<Op, Failure>)
    ensures r.Err? <==> !ValidCouponChange(p, isUuid)
    ensures r.Err? ==> r.error == JoiRejected
    ensures r.Ok? ==> r.value == UpdateCoupon(c.couponId, p)
  {
    if !ValidCouponChange(p, isUuid) then Err(JoiRejected) else Ok(UpdateCoupon(c.couponId, p))
  }

  /** Only the four coupon fields can change: owner and key stay. */
  lemma ModifyKeepsOwner(t: Tables, c: CouponRow, p: CouponPatch, isUuid: string -> bool)
    requires ModifyCoupon(c, p, isUuid).Ok? && c.couponId in t.coupons
    ensures Apply(t, ModifyCoupon(c, p, isUuid).value).Ok?
    ensures var after := Apply(t, ModifyCoupon(c, p, isUuid).value).value.0.coupons[c.couponId];
            && after.userId == t.coupons[c.couponId].userId
            && after.couponId == t.coupons[c.couponId].couponId
            && (p.usedAt.Keep? ==> after.usedAt == t.coupons[c.couponId].usedAt)
  {
  }

  /** How many coupons of the group the user already holds (`getCouponDuplicateCount`). */
  function DuplicateCount(t: Tables, userId: string, couponGroupId: string): (n: nat)
    ensures n <= |t.coupons|
  {
    var held := Held(t.coupons, userId, couponGroupId);
    SubsetCard(held, t.coupons.Keys);
    |held|
  }

  function Held(coupons: map<string, CouponRow>, userId: string, couponGroupId: string): (held: set<string>)
    ensures held <= coupons.Keys
    ensures forall k :: k in held <==> k in coupons && coupons[k].userId == userId && coupons[k].couponGroupId == couponGroupId
  {
    set k | k in coupons && coupons[k].userId == userId && coupons[k].couponGroupId == couponGroupId
  }

  lemma SubsetCard<T>(a: set<T>, b: set<T>)
    requires a <= b
    ensures |a| <= |b|
  {
    assert b == a + (b - a);
  }

  /** What the platform returns for a discount group. */
  datatype Discount = Discount(discountId: string, expiredAt: int)

  /** Whether the group's limit refuses one more coupon for this user. */
  predicate OverLimit(t: Tables, userId: string, g: CouponGroupRow) {
    Nonzero(g.limit) && DuplicateCount(t, userId, g.couponGroupId) >= g.limit.value
  }

  /**
   * `enrollCoupon`. `group` is `CouponGroup.getCouponGroupByCodeOrThrow(code)`;
   * `discount` is the platform's discount generator by discount group;
   * `couponId` is the key the database generates.
   */
  function EnrollCoupon(t: Tables, userId: string, group: Result<CouponGroupRow, Failure>,
                        discount: string -> Result<Discount, Failure>, couponId: string): (r: Result<Op, Failure>)
    ensures group.Err? ==> r == Err(group.error)
    ensures group.Ok? && OverLimit(t, userId, group.value) ==> r == Err(Internal(OpcodeExcessLimits))
    ensures group.Ok? && !OverLimit(t, userId, group.value) && Present(group.value.discountGroupId)
            && discount(group.value.discountGroupId.value).Err? ==>
              r == Err(discount(group.value.discountGroupId.value).error)
    ensures r.Ok? ==>
              && group.Ok? && !OverLimit(t, userId, group.value)
              && r.value.CreateCoupon?
              && var c := r.value.coupon;
                 && c.couponId == couponId && c.userId == userId && c.couponGroupId == group.value.couponGroupId
                 && c.usedAt.None?
                 && (c.discountId.Some? <==> Present(group.value.discountGroupId))
                 && (c.expiredAt.Some? <==> Present(group.value.discountGroupId))
                 && (c.discountId.Some? ==>
                       discount(group.value.discountGroupId.value)
                       == Ok(Discount(c.discountId.value, c.expiredAt.value)))
    ensures group.Ok? && !OverLimit(t, userId, group.value)
            && (Present(group.value.discountGroupId) ==> discount(group.value.discountGroupId.value).Ok?) ==>
              r.Ok?
  {
    if group.Err? then Err(group.error)
    else
      var g := group.value;
      if OverLimit(t, userId, g) then Err(Internal(OpcodeExcessLimits))
      else if Present(g.discountGroupId) then
        match discount(g.discountGroupId.value)
        case Err(e) => Err(e)
        case Ok(d) => Ok(CreateCoupon(CouponRow(couponId, userId, g.couponGroupId, Some(d.discountId), None, Some(d.expiredAt))))
      else Ok(CreateCoupon(CouponRow(couponId, userId, g.couponGroupId, None, None, None)))
  }

  lemma OneMoreCoupon(t: Tables, c: CouponRow)
    requires c.couponId !in t.coupons
    ensures DuplicateCount(t.(coupons := t.coupons[c.couponId := c]), c.userId, c.couponGroupId)
            == DuplicateCount(t, c.userId, c.couponGroupId) + 1
  {
    var m1 := t.coupons[c.couponId := c];
    var before := Held(t.coupons, c.userId, c.couponGroupId);
    var after := Held(m1, c.userId, c.couponGroupId);
    forall k ensures k in after <==> k in before + {c.couponId} {
      if k != c.couponId {
        assert k in m1 <==> k in t.coupons;
      }
    }
    assert after == before + {c.couponId};
    assert c.couponId !in before;
  }

  /**
   * The cap holds: committing an enrolment adds exactly one coupon of the
   * group for the user, and with a positive limit the count stays within it.
   */
  lemma EnrollRespectsLimit(t: Tables, userId: string, group: Result<CouponGroupRow, Failure>,
                            discount: string -> Result<Discount, Failure>, couponId: string)
    requires EnrollCoupon(t, userId, group, discount, couponId).Ok?
    requires Apply(t, EnrollCoupon(t, userId, group, discount, couponId).value).Ok?
    ensures var t1 := Apply(t, EnrollCoupon(t, userId, group, discount, couponId).value).value.0;
            && DuplicateCount(t1, userId, group.value.couponGroupId) == DuplicateCount(t, userId, group.value.couponGroupId) + 1
            && (Nonzero(group.value.limit) && group.value.limit.value > 0 ==>
                  DuplicateCount(t1, userId, group.value.couponGroupId) <= group.value.limit.value)
  {
    var op := EnrollCoupon(t, userId, group, discount, couponId).value;
    assert Apply(t, op).value.0 == t.(coupons := t.coupons[couponId := op.coupon]);
    OneMoreCoupon(t, op.coupon);
  }
}
