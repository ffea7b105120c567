/**
 * The rows of the accounts database and the whole database as one value.
 * Instants are integer seconds; an absent column is `None` (SQL null).
 * Primary keys are the map keys and equal the row's own id column.
 */
module Tables {
  import opened Wrappers

  /** JavaScript truthiness of an optional string: present and not empty. */
  predicate Present(s: Option<string>) {
    s.Some? && s.value != ""
  }

  /** JavaScript truthiness of an optional number: present and not zero. */
  predicate Nonzero(n: Option<int>) {
    n.Some? && n.value != 0
  }

  datatype UserRow = UserRow(
    userId: string,
    realname: string,
    birthday: int,
    email: Option<string>,
    phoneNo: Option<string>,
    levelNo: int,
    referralCode: Option<string>,
    referrerUserId: Option<string>,
    centercoinBalance: int,
    receivePush: bool,
    licenseId: Option<string>,
    usedAt: Option<int>,
    legacyUserId: Option<string>)

  datatype PhoneRow = PhoneRow(phoneId: string, phone: string, usedAt: Option<int>)

  datatype LicenseRow = LicenseRow(licenseId: string, realname: string, birthday: int, licenseStr: string)

  /** `MethodProvider`; only `kakao` is named by the core, the others are kept opaque. */
  datatype Provider = Kakao | OtherProvider(name: string)

  datatype MethodRow = MethodRow(
    methodId: string, userId: string, provider: Provider, identity: string, description: string)

  datatype SessionRow = SessionRow(
    sessionId: string, userId: string, platform: Option<string>, messagingToken: Option<string>)

  /** A ledger entry; `pointType` is the name of a `PointType` member. */
  datatype PointRow = PointRow(pointId: string, userId: string, point: int, pointType: string, createdAt: int)

  datatype LevelRow = LevelRow(levelNo: int, name: string, requiredPoint: int)

  /** A purchasable plan; `validity` is in seconds, `price` in won. */
  datatype ProgramRow = ProgramRow(
    passProgramId: string,
    name: string,
    description: Option<string>,
    isSale: bool,
    price: Option<int>,
    validity: Option<int>,
    allowRenew: bool,
    couponGroupId: Option<string>)

  /** A user's pass; `expiredAt == None` means unlimited. */
  datatype PassRow = PassRow(
    passId: string,
    userId: string,
    passProgramId: string,
    expiredAt: Option<int>,
    autoRenew: bool,
    requestedAt: Option<int>,
    couponGroupId: Option<string>,
    couponId: Option<string>)

  datatype CouponGroupRow = CouponGroupRow(
    couponGroupId: string,
    code: string,
    name: string,
    description: string,
    limit: Option<int>,
    discountGroupId: Option<string>)

  datatype CouponRow = CouponRow(
    couponId: string,
    userId: string,
    couponGroupId: string,
    discountId: Option<string>,
    usedAt: Option<int>,
    expiredAt: Option<int>)

  /** `NotificationType`; `info` and `advisting` are named by the core, the others are kept opaque. */
  datatype NotificationType = Info | Advisting | OtherType(name: string)

  datatype NotificationRow = NotificationRow(
    notificationId: string,
    userId: string,
    kind: NotificationType,
    title: Option<string>,
    description: Option<string>,
    url: Option<string>,
    visible: bool,
    readedAt: Option<int>,
    sendedAt: Option<int>)

  datatype Tables = Tables(
    users: map<string, UserRow>,
    phones: map<string, PhoneRow>,
    licenses: map<string, LicenseRow>,
    methods: map<string, MethodRow>,
    sessions: map<string, SessionRow>,
    points: seq<PointRow>,
    levels: seq<LevelRow>,
    programs: map<string, ProgramRow>,
    passes: map<string, PassRow>,
    couponGroups: map<string, CouponGroupRow>,
    coupons: map<string, CouponRow>,
    notifications: map<string, NotificationRow>)

  predicate UsersKeyed(m: map<string, UserRow>) {
    forall k :: k in m ==> m[k].userId == k
  }

  predicate PhonesKeyed(m: map<string, PhoneRow>) {
    forall k :: k in m ==> m[k].phoneId == k
  }

  predicate LicensesKeyed(m: map<string, LicenseRow>) {
    forall k :: k in m ==> m[k].licenseId == k
  }

  predicate MethodsKeyed(m: map<string, MethodRow>) {
    forall k :: k in m ==> m[k].methodId == k
  }

  predicate SessionsKeyed(m: map<string, SessionRow>) {
    forall k :: k in m ==> m[k].sessionId == k
  }

  predicate ProgramsKeyed(m: map<string, ProgramRow>) {
    forall k :: k in m ==> m[k].passProgramId == k
  }

  predicate PassesKeyed(m: map<string, PassRow>) {
    forall k :: k in m ==> m[k].passId == k
  }

  predicate CouponGroupsKeyed(m: map<string, CouponGroupRow>) {
    forall k :: k in m ==> m[k].couponGroupId == k
  }

  predicate CouponsKeyed(m: map<string, CouponRow>) {
    forall k :: k in m ==> m[k].couponId == k
  }

  predicate NotificationsKeyed(m: map<string, NotificationRow>) {
    forall k :: k in m ==> m[k].notificationId == k
  }

  /** Every keyed table stores each row under its own primary key. */
  predicate Keyed(t: Tables) {
    && UsersKeyed(t.users)
    && PhonesKeyed(t.phones)
    && LicensesKeyed(t.licenses)
    && MethodsKeyed(t.methods)
    && SessionsKeyed(t.sessions)
    && ProgramsKeyed(t.programs)
    && PassesKeyed(t.passes)
    && CouponGroupsKeyed(t.couponGroups)
    && CouponsKeyed(t.coupons)
    && NotificationsKeyed(t.notifications)
  }
}
