/** Login methods (`MethodModel`): at most one per provider per user, linked to an outside identity. */
module Methods {
  import opened Wrappers
  import opened Tables
  import opened WrapperResults
  import opened Results
  import opened Transactions

  /** A method row as the queries select it: `identity` only when asked for. */
  datatype MethodView = MethodView(
    methodId: string, description: string, userId: string, provider: Provider, identity: Option<string>)

  /** The `select` of the method queries: every column, `identity` only when shown. */
  function View(m: MethodRow, showIdentity: bool): (v: MethodView)
    ensures v.identity.Some? <==> showIdentity
    ensures v.identity.Some? ==> v.identity.value == m.identity
    ensures v.methodId == m.methodId && v.description == m.description
    ensures v.userId == m.userId && v.provider == m.provider
  {
    MethodView(m.methodId, m.description, m.userId, m.provider,
      if showIdentity then Some(m.identity) else None)
  }

  predicate LinkedTo(m: MethodRow, userId: string, provider: Provider) {
    m.userId == userId && m.provider == provider
  }

  /** `getMethods`: the user's methods, identities hidden unless `showIdentity`. */
  function GetMethods(t: Tables, userId: string, showIdentity: bool): (vs: set<MethodView>)
    ensures forall v :: v in vs ==> v.userId == userId && (v.identity.Some? <==> showIdentity)
    ensures forall k :: k in t.methods && t.methods[k].userId == userId ==> View(t.methods[k], showIdentity) in vs
  {
    set k | k in t.methods && t.methods[k].userId == userId :: View(t.methods[k], showIdentity)
  }

  /** `getMethod` (`findFirst`): some method of that user for that provider, if there is one. */
  method GetMethod(t: Tables, userId: string, provider: Provider, showIdentity: bool) returns (v: Option<MethodView>)
    ensures v.None? <==> forall k :: k in t.methods ==> !LinkedTo(t.methods[k], userId, provider)
    ensures v.Some? ==>
              exists k :: k in t.methods && LinkedTo(t.methods[k], userId, provider)
                          && v.value == View(t.methods[k], showIdentity)
  {
    if k :| k in t.methods && LinkedTo(t.methods[k], userId, provider) {
      v := Some(View(t.methods[k], showIdentity));
    } else {
      v := None;
    }
  }

  /** `getMethodOrThrow`: no method for the provider is NOT_CONNECTED_WITH_METHOD. */
  method GetMethodOrThrow(t: Tables, userId: string, provider: Provider, showValue: bool)
    returns (r: Result<MethodView, Failure>)
    ensures r.Err? <==> forall k :: k in t.methods ==> !LinkedTo(t.methods[k], userId, provider)
    ensures r.Err? ==> r.error == Throw(NotConnectedWithMethod)
    ensures r.Ok? ==>
              exists k :: k in t.methods && LinkedTo(t.methods[k], userId, provider)
                          && r.value == View(t.methods[k], showValue)
  {
    var v := GetMethod(t, userId, provider, showValue);
    if v.None? {
      return Err(Throw(NotConnectedWithMethod));
    }
    r := Ok(v.value);
  }

  /** `disconnectMethod`: deletes exactly the user's method for that provider. */
  method DisconnectMethod(t: Tables, userId: string, provider: Provider) returns (r: Result<Op, Failure>)
    requires Keyed(t)
    ensures r.Err? <==> forall k :: k in t.methods ==> !LinkedTo(t.methods[k], userId, provider)
    ensures r.Err? ==> r.error == Throw(NotConnectedWithMethod)
    ensures r.Ok? ==>
              r.value.DeleteMethod? && r.value.methodId in t.methods
              && LinkedTo(t.methods[r.value.methodId], userId, provider)
  {
    var m := GetMethodOrThrow(t, userId, provider, false);
    if m.Err? {
      return Err(m.error);
    }
    ghost var k :| k in t.methods && LinkedTo(t.methods[k], userId, provider) && m.value == View(t.methods[k], false);
    assert m.value.methodId == k;
    r := Ok(DeleteMethod(m.value.methodId));
  }

  predicate Identifies(m: MethodRow, provider: Provider, identity: string) {
    m.provider == provider && m.identity == identity
  }

  /** Whether any user has linked that outside identity. */
  predicate HoldsIdentity(t: Tables, provider: Provider, identity: string) {
    exists k :: k in t.methods && Identifies(t.methods[k], provider, identity)
  }

  /** `getMethodWithValue`: some method with that provider and identity, whoever owns it. */
  method GetMethodWithValue(t: Tables, provider: Provider, identity: string, showIdentity: bool)
    returns (v: Option<MethodView>)
    ensures v.None? <==> !HoldsIdentity(t, provider, identity)
    ensures v.Some? ==>
              exists k :: k in t.methods && Identifies(t.methods[k], provider, identity)
                          && v.value == View(t.methods[k], showIdentity)
  {
    if k :| k in t.methods && Identifies(t.methods[k], provider, identity) {
      v := Some(View(t.methods[k], showIdentity));
    } else {
      v := None;
    }
  }

  /**
   * `connectMethod`: a second method for the same provider is
   * ALREADY_CONNECT_WITH_METHOD; `methodId` is the key the database generates.
   */
  function ConnectMethod(t: Tables, userId: string, provider: Provider, identity: string, description: string,
                         methodId: string): (r: Result<Op, Failure>)
    ensures r.Err? <==> exists k :: k in t.methods && LinkedTo(t.methods[k], userId, provider)
    ensures r.Err? ==> r.error == Throw(AlreadyConnectWithMethod)
    ensures r.Ok? ==> r == Ok(CreateMethod(MethodRow(methodId, userId, provider, identity, description)))
  {
    if exists k :: k in t.methods && LinkedTo(t.methods[k], userId, provider) then Err(Throw(AlreadyConnectWithMethod))
    else Ok(CreateMethod(MethodRow(methodId, userId, provider, identity, description)))
  }

  /** No user holds two methods of one provider. */
  predicate OnePerProvider(t: Tables) {
    forall a, b :: a in t.methods && b in t.methods && a != b ==>
      !LinkedTo(t.methods[b], t.methods[a].userId, t.methods[a].provider)
  }

  /** Committing what `connectMethod` prepares keeps one method per provider per user. */
  lemma ConnectKeepsOnePerProvider(t: Tables, userId: string, provider: Provider, identity: string,
                                   description: string, methodId: string)
    requires OnePerProvider(t)
    requires ConnectMethod(t, userId, provider, identity, description, methodId).Ok?
    requires Apply(t, ConnectMethod(t, userId, provider, identity, description, methodId).value).Ok?
    ensures OnePerProvider(Apply(t, ConnectMethod(t, userId, provider, identity, description, methodId).value).value.0)
  {
    var t1 := Apply(t, ConnectMethod(t, userId, provider, identity, description, methodId).value).value.0;
    forall a, b | a in t1.methods && b in t1.methods && a != b
      ensures !LinkedTo(t1.methods[b], t1.methods[a].userId, t1.methods[a].provider)
    {
      if a == methodId {
        assert t1.methods[b] == t.methods[b];
      } else if b == methodId {
        assert t1.methods[a] == t.methods[a];
      }
    }
  }

  /** The methods of a table, less those of other users that hold `identity` for `provider`. */
  function WithoutOthersHolding(t: Tables, userId: string, provider: Provider, identity: string): (t1: Tables)
    ensures t1.methods.Keys <= t.methods.Keys
    ensures forall k :: k in t.methods && t.methods[k].userId == userId ==> k in t1.methods
  {
    t.(methods := map k | k in t.methods && !(Identifies(t.methods[k], provider, identity) && t.methods[k].userId != userId)
                    :: t.methods[k])
  }

  /**
   * Whether `connectMethod` accepts a link does not depend on other users
   * holding the same identity: nothing makes an identity exclusive.
   */
  lemma IdentityNotExclusive(t: Tables, userId: string, provider: Provider, identity: string, description: string,
                             methodId: string)
    ensures ConnectMethod(t, userId, provider, identity, description, methodId).Ok?
            == ConnectMethod(WithoutOthersHolding(t, userId, provider, identity), userId, provider, identity,
                             description, methodId).Ok?
    ensures (forall k :: k in t.methods ==> !LinkedTo(t.methods[k], userId, provider)) ==>
              ConnectMethod(t, userId, provider, identity, description, methodId).Ok?
  {
    var t1 := WithoutOthersHolding(t, userId, provider, identity);
    if k :| k in t.methods && LinkedTo(t.methods[k], userId, provider) {
      assert k in t1.methods && t1.methods[k] == t.methods[k];
    }
    if k :| k in t1.methods && LinkedTo(t1.methods[k], userId, provider) {
      assert k in t.methods && t.methods[k] == t1.methods[k];
    }
  }

  /** `getUserByMethod`: the owner of the method row, if both exist. */
  function GetUserByMethod(t: Tables, methodId: string): (u: Option<UserRow>)
    ensures u.Some? <==> methodId in t.methods && t.methods[methodId].userId in t.users
    ensures u.Some? ==> u.value == t.users[t.methods[methodId].userId]
  {
    if methodId in t.methods && t.methods[methodId].userId in t.users
    then Some(t.users[t.methods[methodId].userId])
    else None
  }

  /** `getUserByMethodOrThrow`: a method without a user is CANNOT_FIND_USER. */
  function GetUserByMethodOrThrow(t: Tables, methodId: string): (r: Result<UserRow, Failure>)
    ensures r.Err? <==> GetUserByMethod(t, methodId).None?
    ensures r.Err? ==> r.error == Throw(CannotFindUser)
    ensures r.Ok? ==> r.value == t.users[t.methods[methodId].userId]
  {
    match GetUserByMethod(t, methodId)
    case None => Err(Throw(CannotFindUser))
    case Some(u) => Ok(u)
  }

  /** What Kakao reports for an access token. */
  datatype KakaoUser = KakaoUser(id: string, nickname: string, phoneNumber: string)

  /** `connectKakaoMethod`: the method description Kakao logins get. */
  function KakaoDescription(nickname: string): (d: string)
    ensures |d| > |nickname| && d[..|nickname|] == nickname
  {
    nickname + "님의 카카오 계정"
  }

  /**
   * `connectKakaoMethod`: asks Kakao who the token belongs to and prepares
   * a Kakao method for that identity; a Kakao failure prepares nothing.
   */
  function ConnectKakaoMethod(t: Tables, userId: string, kakao: Result<KakaoUser, Failure>, methodId: string)
    : (r: Result<Op, Failure>)
    ensures kakao.Err? ==> r == Err(kakao.error)
    ensures kakao.Ok? ==>
              r == ConnectMethod(t, userId, Kakao, kakao.value.id, KakaoDescription(kakao.value.nickname), methodId)
    ensures r.Ok? ==> r.value.CreateMethod? && r.value.methodRow.provider == Kakao
                      && r.value.methodRow.userId == userId && r.value.methodRow.identity == kakao.value.id
  {
    match kakao
    case Err(e) => Err(e)
    case Ok(auth) => ConnectMethod(t, userId, Kakao, auth.id, KakaoDescription(auth.nickname), methodId)
  }
}
