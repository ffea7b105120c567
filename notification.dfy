/** In-app notifications and their push delivery to the user's devices. */
module Notifications {
  import opened Wrappers
  import opened Tables
  import opened WrapperResults
  import opened Transactions

  /** The fields `createNotification` accepts; `None` is an absent field. */
  datatype Draft = Draft(
    kind: NotificationType,
    title: Option<string>,
    description: Option<string>,
    url: Option<string>,
    visible: Option<bool>,
    readedAt: Option<int>,
    sendedAt: Option<int>)

  predicate TitleOk(title: string) {
    2 <= |title| <= 200
  }

  /** Joi strings refuse the empty string. */
  predicate DescriptionOk(description: string) {
    1 <= |description| <= 1024
  }

  predicate UrlOk(url: string, isUri: string -> bool) {
    url != "" && isUri(url)
  }

  /** The schema of `createNotification`; `isUri` is Joi's URI rule. */
  predicate ValidDraft(d: Draft, isUri: string -> bool) {
    && (d.title.Some? ==> TitleOk(d.title.value))
    && (d.description.Some? ==> DescriptionOk(d.description.value))
    && (d.url.Some? ==> UrlOk(d.url.value, isUri))
  }

  /**
   * `createNotification`: a draft that passes the schema becomes a row of
   * that user, visible unless `visible: false` was given. `notificationId`
   * is the key the database generates.
   */
  function CreateNotification(userId: string, d: Draft, isUri: string -> bool, notificationId: string)
    : (r: Result<Op, Failure>)
    ensures r.Err? <==> !ValidDraft(d, isUri)
    ensures r.Err? ==> r.error == JoiRejected
    ensures r.Ok? ==> r.value.CreateNotification?
    ensures r.Ok? ==>
              var n := r.value.notification;
              && n.notificationId == notificationId && n.userId == userId && n.kind == d.kind
              && n.title == d.title && n.description == d.description && n.url == d.url
              && (n.visible <==> d.visible != Some(false))
              && n.readedAt == d.readedAt && n.sendedAt == d.sendedAt
  {
    if !ValidDraft(d, isUri) then Err(JoiRejected)
    else Ok(Transactions.CreateNotification(NotificationRow(
      notificationId, userId, d.kind, d.title, d.description, d.url, d.visible.GetOr(true), d.readedAt, d.sendedAt)))
  }

  /** `isAllowPush`: users who opted out of push still get every type but `advisting`. */
  function IsAllowPush(user: UserRow, n: NotificationRow): (allow: bool)
    ensures allow <==> user.receivePush || n.kind != Advisting
  {
    if user.receivePush then true
    else if n.kind != Advisting then true
    else false
  }

  /** The distinct non-empty messaging tokens of the user's sessions. */
  function PushTokens(t: Tables, userId: string): (tokens: set<string>)
    ensures forall tok :: tok in tokens ==> tok != ""
    ensures forall tok :: tok in tokens <==>
              exists k :: k in t.sessions && t.sessions[k].userId == userId && t.sessions[k].messagingToken == Some(tok)
                          && tok != ""
  {
    set k | k in t.sessions && t.sessions[k].userId == userId && Present(t.sessions[k].messagingToken)
      :: t.sessions[k].messagingToken.value
  }

  /** The multicast `sendPush` hands to Firebase. */
  datatype Multicast = Multicast(url: Option<string>, tokens: set<string>, title: Option<string>, body: Option<string>)

  /** A falsy text is sent as absent. */
  function Truthy(s: Option<string>): (r: Option<string>)
    ensures r.Some? <==> Present(s)
    ensures r.Some? ==> r == s
  {
    if Present(s) then s else None
  }

  /** The push for a notification, or `None` when the user has no device to reach. */
  function PushFor(t: Tables, n: NotificationRow): (m: Option<Multicast>)
    ensures m.None? <==> PushTokens(t, n.userId) == {}
    ensures m.Some? ==>
              m.value.tokens == PushTokens(t, n.userId)
              && (m.value.url.Some? <==> Present(n.url)) && (m.value.url.Some? ==> m.value.url == n.url)
              && m.value.title == Truthy(n.title) && m.value.body == Truthy(n.description)
  {
    var tokens := PushTokens(t, n.userId);
    if tokens == {} then None
    else Some(Multicast(Truthy(n.url), tokens, Truthy(n.title), Truthy(n.description)))
  }

  /** The write `sendPush` makes after a send: `sendedAt` and nothing else. */
  function Stamp(n: NotificationRow, now: int): (op: Op)
    ensures op.UpdateNotification? && op.notificationId == n.notificationId
    ensures op.notificationPatch == NoNotificationChange.(sendedAt := Put(Some(now)))
  {
    UpdateNotification(n.notificationId, NoNotificationChange.(sendedAt := Put(Some(now))))
  }

  /**
   * `sendPush`: with no device nothing is sent and nothing is stamped;
   * otherwise the multicast goes out and `sendedAt` is stamped.
   * `deliver` is Firebase's answer to the multicast.
   */
  method SendPush(db: Database, n: NotificationRow, now: int, deliver: Result<(), Failure>)
    returns (r: Result<Option<Multicast>, Failure>)
    modifies db
    ensures db.tables.users == old(db.tables.users) && db.tables.sessions == old(db.tables.sessions)
    ensures r.Ok? ==> r.value == PushFor(old(db.tables), n)
    ensures PushFor(old(db.tables), n).None? ==> r == Ok(None) && db.tables == old(db.tables)
    ensures PushFor(old(db.tables), n).Some? && deliver.Err? ==> r == Err(deliver.error) && db.tables == old(db.tables)
    ensures PushFor(old(db.tables), n).Some? && deliver.Ok? ==>
              if Apply(old(db.tables), Stamp(n, now)).Ok?
              then r.Ok? && db.tables == Apply(old(db.tables), Stamp(n, now)).value.0
              else r.Err? && db.tables == old(db.tables)
  {
    var push := PushFor(db.tables, n);
    if push.None? {
      return Ok(None);
    }
    if deliver.Err? {
      return Err(deliver.error);
    }
    var w := db.Execute(Stamp(n, now));
    if w.Err? {
      return Err(w.error);
    }
    r := Ok(push);
  }

  /**
   * `sendNotification`: the row is always created first; a push follows
   * only when the user allows it. The created row is returned.
   */
  method SendNotification(db: Database, user: UserRow, d: Draft, isUri: string -> bool, notificationId: string,
                          now: int, deliver: Result<(), Failure>)
    returns (r: Result<NotificationRow, Failure>)
    modifies db
    ensures db.tables.users == old(db.tables.users) && db.tables.sessions == old(db.tables.sessions)
    ensures r.Ok? ==>
              var op := CreateNotification(user.userId, d, isUri, notificationId);
              op.Ok? && r.value == op.value.notification && Apply(old(db.tables), op.value).Ok?
              && notificationId in db.tables.notifications
    ensures !ValidDraft(d, isUri) ==> r == Err(JoiRejected) && db.tables == old(db.tables)
    ensures ValidDraft(d, isUri) ==>
              var op := CreateNotification(user.userId, d, isUri, notificationId).value;
              (Apply(old(db.tables), op).Err? ==> r.Err? && db.tables == old(db.tables))
              && (Apply(old(db.tables), op).Ok? && !IsAllowPush(user, op.notification) ==>
                    r == Ok(op.notification) && db.tables == Apply(old(db.tables), op).value.0)
  {
    var op := CreateNotification(user.userId, d, isUri, notificationId);
    if op.Err? {
      return Err(op.error);
    }
    var created := db.Execute(op.value);
    if created.Err? {
      return Err(created.error);
    }
    var n := op.value.notification;
    if IsAllowPush(user, n) {
      var pushed := SendPush(db, n, now, deliver);
      if pushed.Err? {
        return Err(pushed.error);
      }
    }
    r := Ok(n);
  }

  /** The schema of `modifyNotification`: the same rules, and `null` clears a field. */
  predicate ValidChange(p: NotificationPatch, isUri: string -> bool) {
    && (p.title.Put? && p.title.v.Some? ==> TitleOk(p.title.v.value))
    && (p.description.Put? && p.description.v.Some? ==> DescriptionOk(p.description.v.value))
    && (p.url.Put? && p.url.v.Some? ==> UrlOk(p.url.v.value, isUri))
  }

  /** `modifyNotification`: writes exactly the fields given. */
  function ModifyNotification(n: NotificationRow, p: NotificationPatch, isUri: string -> bool): (r: Result<Op, Failure>)
    ensures r.Err? <==> !ValidChange(p, isUri)
    ensures r.Err? ==> r.error == JoiRejected
    ensures r.Ok? ==> r.value == UpdateNotification(n.notificationId, p)
  {
    if !ValidChange(p, isUri) then Err(JoiRejected) else Ok(UpdateNotification(n.notificationId, p))
  }

  /** A field the change leaves out keeps its value; the row keeps its owner. */
  lemma ModifyKeepsOmitted(t: Tables, n: NotificationRow, p: NotificationPatch, isUri: string -> bool)
    requires ModifyNotification(n, p, isUri).Ok? && n.notificationId in t.notifications
    ensures Apply(t, ModifyNotification(n, p, isUri).value).Ok?
    ensures var before := t.notifications[n.notificationId];
            var after := Apply(t, ModifyNotification(n, p, isUri).value).value.0.notifications[n.notificationId];
            && after.userId == before.userId
            && (p.title.Keep? ==> after.title == before.title)
            && (p.description.Keep? ==> after.description == before.description)
            && (p.url.Keep? ==> after.url == before.url)
            && (p.visible.Keep? ==> after.visible == before.visible)
            && (p.readedAt.Keep? ==> after.readedAt == before.readedAt)
            && (p.sendedAt.Keep? ==> after.sendedAt == before.sendedAt)
  {
  }

  /** `deleteNotification`. */
  function DeleteNotification(n: NotificationRow): (op: Op)
    ensures op.DeleteNotification? && op.deletedNotification == n.notificationId
  {
    Transactions.DeleteNotification(n.notificationId)
  }

  /** `getNotification`: the user's notification with that id. */
  function GetNotification(t: Tables, userId: string, notificationId: string): (n: Option<NotificationRow>)
    ensures n.Some? <==> notificationId in t.notifications && t.notifications[notificationId].userId == userId
    ensures n.Some? ==> n.value == t.notifications[notificationId]
  {
    if notificationId in t.notifications && t.notifications[notificationId].userId == userId
    then Some(t.notifications[notificationId]) else None
  }

  /** `getNotificationOrThrow`: another user's or an unknown notification is CANNOT_FIND_NOTIFICATION. */
  function GetNotificationOrThrow(t: Tables, userId: string, notificationId: string): (r: Result<NotificationRow, Failure>)
    ensures r.Err? <==> GetNotification(t, userId, notificationId).None?
    ensures r.Err? ==> r.error == Unlisted(CannotFindNotification)
    ensures r.Ok? ==> r.value.userId == userId
  {
    match GetNotification(t, userId, notificationId)
    case None => Err(Unlisted(CannotFindNotification))
    case Some(n) => Ok(n)
  }

  /** `s` occurs in `text` (`contains`). */
  predicate Contains(text: string, s: string)
    decreases |text|
  {
    s <= text || (text != [] && Contains(text[1..], s))
  }

  /** The filter of `getNotifications`; ordering and paging are not modelled. */
  datatype Query = Query(search: Option<string>, types: Option<seq<NotificationType>>, withUnvisible: Option<bool>)

  predicate Listed(n: NotificationRow, userId: string, q: Query) {
    && n.userId == userId
    && (q.types.Some? ==> n.kind in q.types.value)
    && (q.withUnvisible != Some(true) ==> n.visible)
    && (Present(q.search) ==>
          (n.title.Some? && Contains(n.title.value, q.search.value))
          || (n.description.Some? && Contains(n.description.value, q.search.value)))
  }

  /** The ids `getNotifications` counts in `total`. */
  function GetNotifications(t: Tables, userId: string, q: Query): (ids: set<string>)
    ensures ids <= t.notifications.Keys
    ensures forall id :: id in ids ==> t.notifications[id].userId == userId
    ensures q.withUnvisible != Some(true) ==> forall id :: id in ids ==> t.notifications[id].visible
    ensures q.types.Some? ==> forall id :: id in ids ==> t.notifications[id].kind in q.types.value
    ensures Present(q.search) ==>
              forall id :: id in ids ==>
                (t.notifications[id].title.Some? && Contains(t.notifications[id].title.value, q.search.value))
                || (t.notifications[id].description.Some?
                    && Contains(t.notifications[id].description.value, q.search.value))
    ensures forall id :: id in t.notifications && Listed(t.notifications[id], userId, q) ==> id in ids
  {
    set id | id in t.notifications && Listed(t.notifications[id], userId, q)
  }
}
