/**
 * The HTTP controller: the validation gate, the switch on the notification type, and the mapping
 * of outcomes to status codes. A response is the status code and the JSON body that
 * `res.status(...).json(...)` sends.
 */
module Controller {
  import opened Wrappers
  import opened Model
  import opened Service

  /** The request body `{ userId, type, title, message }`; `type` is the field `kind`. */
  datatype NotificationRequest = NotificationRequest(userId: string, kind: string, title: string, message: string)

  /** One entry of the validation result: the field it is about and its message. */
  datatype FieldError = FieldError(path: string, msg: string)

  datatype Body =
    | FieldErrors(errors: seq<FieldError>)
    | ErrorOnly(error: string)
    | ErrorWithDetails(error: string, details: string)
    | RecordBody(record: Record)
    | RecordList(records: seq<Record>)

  datatype Response = Response(status: nat, body: Body)

  /**
   * What the outside world answers while one create request is handled: the mail server, the
   * text-message provider, the success-path record write, the catch block's record write, and
   * the time stamped on the record.
   */
  datatype Outcomes = Outcomes(
    mail: Result<MailInfo, Error>,
    sms: Result<SmsResponse, Error>,
    saveFault: Option<Error>,
    failSaveFault: Option<Error>,
    now: int)

  const InvalidType := "Invalid notification type"
  const CreateFailed := "Failed to create notification"
  const FetchFailed := "Failed to fetch notifications"

  /** The service method the switch calls for channel `c`, as a store effect and a result. */
  function ChannelAttempt(c: Channel, req: NotificationRequest, env: Outcomes): Attempt
  {
    match c
    case Email =>
      DeliveryAttempt(req.userId, Email, req.title, req.message, EmailReceipt(env.mail),
                      env.saveFault, env.failSaveFault, env.now)
    case Sms =>
      DeliveryAttempt(req.userId, Sms, req.title, req.message, SmsReceipt(env.sms),
                      env.saveFault, env.failSaveFault, env.now)
    case InApp =>
      InAppAttempt(req.userId, req.title, req.message, env.saveFault, env.now)
  }

  /**
   * The response once a service method has returned or thrown: 201 with exactly the returned
   * record, or 500 with the thrown error's message as `details` and no record.
   */
  function Respond(outcome: Result<Record, Error>): (resp: Response)
    ensures resp.status == 201 <==> outcome.Success?
    ensures outcome.Success? ==> resp.body == RecordBody(outcome.value)
    ensures outcome.Failure? ==> resp == Response(500, ErrorWithDetails(CreateFailed, outcome.error.message))
  {
    match outcome
    case Success(r) => Response(201, RecordBody(r))
    case Failure(e) => Response(500, ErrorWithDetails(CreateFailed, e.message))
  }

  /**
   * A failed attempt the service managed to record still answers 500, and the `details` the
   * client reads are the `error` stored in that record.
   */
  lemma RecordedFailureAnswers500(c: Channel, req: NotificationRequest, env: Outcomes)
    requires ChannelAttempt(c, req, env).stored != []
    requires ChannelAttempt(c, req, env).stored[0].status == Failed
    ensures var a := ChannelAttempt(c, req, env);
      && Respond(a.result).status == 500
      && a.stored[0].metadata.Some? && "error" in a.stored[0].metadata.value
      && Respond(a.result).body.details == a.stored[0].metadata.value["error"]
  {
    var a := ChannelAttempt(c, req, env);
    assert a.result.Failure?;
  }

  class NotificationController {
    const service: NotificationService

    constructor (service: NotificationService)
      ensures this.service == service
    {
      this.service := service;
    }

    /**
     * `createNotification`. `errors` is the validation result the route's validators left on
     * the request.
     */
    method CreateNotification(req: NotificationRequest, errors: seq<FieldError>, env: Outcomes)
      returns (resp: Response)
      modifies service.store, service.mailer, service.sms
      // validation errors: 400 with the list, and no service method runs
      ensures errors != [] ==>
        resp == Response(400, FieldErrors(errors)) && unchanged(service.store, service.mailer, service.sms)
      // a type outside the switch: 400, and no service method runs
      ensures errors == [] && req.kind != "email" && req.kind != "sms" && req.kind != "in-app" ==>
        resp == Response(400, ErrorOnly(InvalidType)) && unchanged(service.store, service.mailer, service.sms)
      // "email" calls sendEmail only
      ensures errors == [] && req.kind == "email" ==>
        && service.mailer.outbox == old(service.mailer.outbox) + [MailOptionsFor(service.sender, req.userId, req.title, req.message)]
        && unchanged(service.sms)
        && var a := ChannelAttempt(Email, req, env);
           service.store.records == old(service.store.records) + a.stored && resp == Respond(a.result)
      // "sms" calls sendSMS only
      ensures errors == [] && req.kind == "sms" ==>
        && service.sms.outbox == old(service.sms.outbox) + [SmsMessage(SmsBody(req.title, req.message), service.phoneNumber, req.userId)]
        && unchanged(service.mailer)
        && var a := ChannelAttempt(Sms, req, env);
           service.store.records == old(service.store.records) + a.stored && resp == Respond(a.result)
      // "in-app" calls createInAppNotification only, which uses no transport
      ensures errors == [] && req.kind == "in-app" ==>
        && unchanged(service.mailer, service.sms)
        && var a := ChannelAttempt(InApp, req, env);
           service.store.records == old(service.store.records) + a.stored && resp == Respond(a.result)
      ensures old(service.store.Consistent()) ==> service.store.Consistent()
    {
      if errors != [] {
        return Response(400, FieldErrors(errors));
      }
      var outcome: Result<Record, Error>;
      if req.kind == "email" {
        outcome := service.SendEmail(req.userId, req.title, req.message, env.mail,
                                     env.saveFault, env.failSaveFault, env.now);
      } else if req.kind == "sms" {
        outcome := service.SendSms(req.userId, req.title, req.message, env.sms,
                                   env.saveFault, env.failSaveFault, env.now);
      } else if req.kind == "in-app" {
        outcome := service.CreateInAppNotification(req.userId, req.title, req.message,
                                                   env.saveFault, env.now);
      } else {
        return Response(400, ErrorOnly(InvalidType));
      }
      resp := Respond(outcome);
    }

    /**
     * `getUserNotifications` for the path parameter `id`. `readFault` is the database's answer
     * to the query. Nothing is modified.
     */
    method GetUserNotifications(id: string, readFault: Option<Error>) returns (resp: Response)
      ensures readFault.Some? ==> resp == Response(500, ErrorOnly(FetchFailed))
      ensures readFault.None? ==>
        && resp.status == 200
        && resp.body.RecordList?
        && NewestFirst(resp.body.records)
        && ExactlyFor(resp.body.records, service.store.records, id)
    {
      var notifications := service.GetUserNotifications(id, readFault);
      match notifications
      case Success(records) =>
        resp := Response(200, RecordList(records));
      case Failure(_) =>
        resp := Response(500, ErrorOnly(FetchFailed));
    }
  }
}
