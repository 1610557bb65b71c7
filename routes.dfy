/**
 * The routes: the validator chains of the two endpoints, and the POST endpoint as the chain
 * followed by the controller.
 */
module Routes {
  import opened Model
  import opened Service
  import opened Controller

  /** The values `isIn` accepts for `type`. */
  const NotificationTypes: seq<string> := ["email", "sms", "in-app"]

  const UserIdRequired := FieldError("userId", "User ID is required")
  const TypeInvalid := FieldError("type", "Type must be email, sms, or in-app")
  const TitleRequired := FieldError("title", "Title is required")
  const MessageRequired := FieldError("message", "Message is required")
  const IdRequired := FieldError("id", "User ID is required")

  /** Where a message's field stands in the `validateNotification` chain. */
  function ChainPosition(e: FieldError): nat
  {
    if e == UserIdRequired then 0
    else if e == TypeInvalid then 1
    else if e == TitleRequired then 2
    else if e == MessageRequired then 3
    else 4
  }

  /** `validateNotification`: one message per failing field, in the order the chain lists them. */
  function ValidateNotification(req: NotificationRequest): (errors: seq<FieldError>)
    ensures errors == [] <==>
      req.userId != "" && req.kind in NotificationTypes && req.title != "" && req.message != ""
    ensures UserIdRequired in errors <==> req.userId == ""
    ensures TypeInvalid in errors <==> req.kind !in NotificationTypes
    ensures TitleRequired in errors <==> req.title == ""
    ensures MessageRequired in errors <==> req.message == ""
    ensures forall i :: 0 <= i < |errors| ==>
      errors[i] in {UserIdRequired, TypeInvalid, TitleRequired, MessageRequired}
    ensures forall i, j :: 0 <= i < j < |errors| ==> errors[i] != errors[j]
    // the messages come in the order the chain lists the fields
    ensures forall i, j :: 0 <= i < j < |errors| ==> ChainPosition(errors[i]) < ChainPosition(errors[j])
  {
    (if req.userId == "" then [UserIdRequired] else [])
    + (if req.kind !in NotificationTypes then [TypeInvalid] else [])
    + (if req.title == "" then [TitleRequired] else [])
    + (if req.message == "" then [MessageRequired] else [])
  }

  /** `validateUserId`: the path parameter `id` must not be empty. */
  function ValidateUserId(id: string): (errors: seq<FieldError>)
    ensures errors == [] <==> id != ""
    ensures errors != [] ==> errors == [IdRequired]
  {
    if id == "" then [IdRequired] else []
  }

  /** Every type the validator lets through is a case of the controller's switch. */
  lemma ValidatedKindIsSwitchCase(req: NotificationRequest)
    requires ValidateNotification(req) == []
    ensures req.kind == "email" || req.kind == "sms" || req.kind == "in-app"
  {
  }

  /**
   * The types the validator accepts are exactly the `type` strings of the three channels, and
   * a record a service method stores for an accepted type carries that same string.
   */
  lemma AcceptedTypesAreChannelTags(req: NotificationRequest, env: Outcomes)
    ensures req.kind in NotificationTypes <==> exists c :: Tag(c) == req.kind
    ensures forall c :: Tag(c) == req.kind ==>
      forall r | r in ChannelAttempt(c, req, env).stored :: Tag(r.channel) == req.kind
  {
    if req.kind in NotificationTypes {
      assert Tag(Email) == "email" && Tag(Sms) == "sms" && Tag(InApp) == "in-app";
    }
  }

  /**
   * `POST /notifications`: the validators, then `createNotification`. Through this route the
   * controller's "Invalid notification type" branch is never taken, so a 400 means exactly that
   * validation failed, and a valid request makes at most one transport call.
   */
  method PostNotifications(ctl: NotificationController, req: NotificationRequest, env: Outcomes)
    returns (resp: Response)
    modifies ctl.service.store, ctl.service.mailer, ctl.service.sms
    ensures resp.status == 400 <==> ValidateNotification(req) != []
    ensures ValidateNotification(req) != [] ==>
      && resp.body == FieldErrors(ValidateNotification(req))
      && unchanged(ctl.service.store, ctl.service.mailer, ctl.service.sms)
    ensures ValidateNotification(req) == [] ==>
      && (resp.status == 201 || resp.status == 500)
      && |ctl.service.mailer.outbox| + |ctl.service.sms.outbox|
         == |old(ctl.service.mailer.outbox)| + |old(ctl.service.sms.outbox)| + (if req.kind == "in-app" then 0 else 1)
      && |old(ctl.service.store.records)| <= |ctl.service.store.records| <= |old(ctl.service.store.records)| + 1
    ensures old(ctl.service.store.Consistent()) ==> ctl.service.store.Consistent()
  {
    var errors := ValidateNotification(req);
    if errors == [] {
      ValidatedKindIsSwitchCase(req);
    }
    resp := ctl.CreateNotification(req, errors, env);
  }
}
