/**
 * The notification service: one send attempt per call through an external transport, then one
 * delivery record in the store.
 *
 * The mail transport and the text-message client are objects that log every message handed to
 * them; what the provider answers is a parameter of the call, since the network is outside the
 * model. Each store write likewise takes the database's answer as a parameter.
 */
module Service {
  import opened Wrappers
  import opened Model

  /** The `mailOptions` object handed to the mail transport. */
  datatype MailOptions = MailOptions(from: string, to: string, subject: string, text: string, html: string)

  /** The transport's `info` for a sent mail. */
  datatype MailInfo = MailInfo(messageId: string, response: string)

  /** The object handed to the text-message client. */
  datatype SmsMessage = SmsMessage(body: string, from: string, to: string)

  /** The text-message provider's response. */
  datatype SmsResponse = SmsResponse(sid: string, status: string)

  /** The HTML rendering of a mail: the title as a heading, the message as a paragraph. */
  function HtmlBody(title: string, message: string): string
  {
    "<h1>" + title + "</h1><p>" + message + "</p>"
  }

  /** The envelope for a mail to `userId`, sent from the configured sender address. */
  function MailOptionsFor(sender: string, userId: string, title: string, message: string): MailOptions
  {
    MailOptions(sender, userId, title, message, HtmlBody(title, message))
  }

  /** A text message carries the title and the message on one body, separated by a newline. */
  function SmsBody(title: string, message: string): string
  {
    title + "\n" + message
  }

  /** Splits a text at the first occurrence of `sep`, dropping it; a text without one is all head. */
  function SplitAtFirst(s: string, sep: char): (string, string)
  {
    if s == [] then ("", "")
    else if s[0] == sep then ("", s[1..])
    else
      var (head, rest) := SplitAtFirst(s[1..], sep);
      ([s[0]] + head, rest)
  }

  /** Splitting `head`, `sep`, `rest` at the first `sep` gives `head` and `rest` back when `head` has none. */
  lemma {:induction false} SplitAtFirstJoined(head: string, sep: char, rest: string)
    requires sep !in head
    ensures SplitAtFirst(head + [sep] + rest, sep) == (head, rest)
  {
    var s := head + [sep] + rest;
    if head == [] {
      assert s == [sep] + rest;
    } else {
      assert head[0] in head;
      assert s[0] == head[0] && s[0] != sep;
      assert s[1..] == head[1..] + [sep] + rest;
      SplitAtFirstJoined(head[1..], sep, rest);
      assert head == [head[0]] + head[1..];
    }
  }

  /** When the title has no newline, the receiver gets title and message back from the body. */
  lemma SmsBodySplits(title: string, message: string)
    requires '\n' !in title
    ensures SplitAtFirst(SmsBody(title, message), '\n') == (title, message)
  {
    assert SmsBody(title, message) == title + ['\n'] + message;
    SplitAtFirstJoined(title, '\n', message);
  }

  /**
   * Reads a mail's HTML body back: between the leading `<h1>` and the final `</p>`, the title
   * runs up to the first `<`, which must open `</h1><p>`, and the message is everything after.
   */
  function HtmlParts(h: string): Option<(string, string)>
  {
    if |h| < 8 || h[..4] != "<h1>" || h[|h| - 4..] != "</p>" then None
    else
      var (title, rest) := SplitAtFirst(h[4..|h| - 4], '<');
      if |rest| >= 7 && rest[..7] == "/h1><p>" then Some((title, rest[7..])) else None
  }

  /** When the title has no `<`, the HTML body gives title and message back. */
  lemma HtmlBodyDecodes(title: string, message: string)
    requires '<' !in title
    ensures HtmlParts(HtmlBody(title, message)) == Some((title, message))
  {
    var h := HtmlBody(title, message);
    var inner := title + "</h1><p>" + message;
    assert h == "<h1>" + inner + "</p>";
    assert h[..4] == "<h1>" && h[|h| - 4..] == "</p>" && h[4..|h| - 4] == inner;
    assert inner == title + ['<'] + ("/h1><p>" + message);
    SplitAtFirstJoined(title, '<', "/h1><p>" + message);
  }

  /** Metadata of a sent mail: `{messageId, response}` from the transport's info. */
  function EmailMetadata(info: MailInfo): Metadata
  {
    map["messageId" := info.messageId, "response" := info.response]
  }

  /** Metadata of a sent text message: `{messageSid, status}` from the provider's response. */
  function SmsMetadata(response: SmsResponse): Metadata
  {
    map["messageSid" := response.sid, "status" := response.status]
  }

  function EmailReceipt(delivery: Result<MailInfo, Error>): Result<Metadata, Error>
  {
    match delivery
    case Success(info) => Success(EmailMetadata(info))
    case Failure(e) => Failure(e)
  }

  function SmsReceipt(delivery: Result<SmsResponse, Error>): Result<Metadata, Error>
  {
    match delivery
    case Success(response) => Success(SmsMetadata(response))
    case Failure(e) => Failure(e)
  }

  /** What one service call leaves behind: the records it appended, and what it returned or threw. */
  datatype Attempt = Attempt(stored: seq<Record>, result: Result<Record, Error>)

  /**
   * The record-then-rethrow flow of `sendEmail` and `sendSMS`. `receipt` is the transport's
   * answer turned into metadata, `saveFault` the answer of the success-path write and
   * `failSaveFault` that of the catch block's write. The try block covers the send and the
   * success-path write, so an error from either is caught, recorded and rethrown.
   */
  function DeliveryAttempt(userId: string, channel: Channel, title: string, message: string,
                           receipt: Result<Metadata, Error>, saveFault: Option<Error>,
                           failSaveFault: Option<Error>, now: int): (a: Attempt)
    // at most one record per attempt, and none only when the catch block's own write throws
    ensures |a.stored| <= 1
    ensures a.stored == [] <==> (receipt.Failure? || saveFault.Some?) && failSaveFault.Some?
    // the caller sees success exactly when both the send and its record succeed
    ensures a.result.Success? <==> receipt.Success? && saveFault.None?
    ensures a.result.Success? ==>
      && a.stored == [a.result.value]
      && a.result.value == Record(userId, channel, title, message, Sent, Some(receipt.value), now)
    // the rethrown error: the catch block's write error if there is one, otherwise the caught one
    ensures a.result.Failure? ==>
      a.result.error == if failSaveFault.Some? then failSaveFault.value
                        else if receipt.Failure? then receipt.error
                        else saveFault.value
    // a stored failed record carries the message of the very error that is rethrown
    ensures a.result.Failure? && a.stored != [] ==>
      a.stored == [FailedRecord(userId, channel, title, message, a.result.error.message, now)]
    // every stored record's status agrees with its `error` key, as long as a receipt has none
    ensures (receipt.Success? ==> "error" !in receipt.value) ==>
      forall r | r in a.stored :: StatusAgrees(r)
  {
    if receipt.Success? && saveFault.None? then
      var sent := Record(userId, channel, title, message, Sent, Some(receipt.value), now);
      Attempt([sent], Success(sent))
    else
      var caught := if receipt.Failure? then receipt.error else saveFault.value;
      if failSaveFault.None? then
        Attempt([FailedRecord(userId, channel, title, message, caught.message, now)], Failure(caught))
      else
        Attempt([], Failure(failSaveFault.value))
  }

  /** `createInAppNotification`: no transport; one `sent` record without metadata, or a rethrow. */
  function InAppAttempt(userId: string, title: string, message: string,
                        saveFault: Option<Error>, now: int): (a: Attempt)
    ensures a.result.Success? <==> saveFault.None?
    ensures a.result.Success? ==>
      a.stored == [a.result.value] && a.result.value == Record(userId, InApp, title, message, Sent, None, now)
    ensures a.result.Failure? ==> a.stored == [] && a.result.error == saveFault.value
    ensures forall r | r in a.stored :: StatusAgrees(r) && r.status == Sent
  {
    if saveFault.None? then
      var sent := Record(userId, InApp, title, message, Sent, None, now);
      Attempt([sent], Success(sent))
    else
      Attempt([], Failure(saveFault.value))
  }

  /** The mail transport. `outbox` lists every envelope handed to it, delivered or not. */
  class MailTransport {
    var outbox: seq<MailOptions>

    constructor ()
      ensures outbox == []
    {
      outbox := [];
    }

    /** `transporter.sendMail(options)`; `answer` is what the mail server replies. */
    method SendMail(options: MailOptions, answer: Result<MailInfo, Error>) returns (info: Result<MailInfo, Error>)
      modifies this
      ensures outbox == old(outbox) + [options] && info == answer
    {
      outbox := outbox + [options];
      info := answer;
    }
  }

  /** The text-message client. `outbox` lists every message handed to it, delivered or not. */
  class SmsClient {
    var outbox: seq<SmsMessage>

    constructor ()
      ensures outbox == []
    {
      outbox := [];
    }

    /** `twilioClient.messages.create(msg)`; `answer` is what the provider replies. */
    method Create(msg: SmsMessage, answer: Result<SmsResponse, Error>) returns (response: Result<SmsResponse, Error>)
      modifies this
      ensures outbox == old(outbox) + [msg] && response == answer
    {
      outbox := outbox + [msg];
      response := answer;
    }
  }

  /**
   * The service, with its configuration and collaborators: the sender address
   * (`emailConfig.auth.user`), the sending phone number (`smsConfig.phoneNumber`), the record
   * store and the two transports.
   */
  class NotificationService {
    const sender: string
    const phoneNumber: string
    const store: NotificationStore
    const mailer: MailTransport
    const sms: SmsClient

    constructor (sender: string, phoneNumber: string, store: NotificationStore,
                 mailer: MailTransport, sms: SmsClient)
      ensures this.sender == sender && this.phoneNumber == phoneNumber
      ensures this.store == store && this.mailer == mailer && this.sms == sms
    {
      this.sender := sender;
      this.phoneNumber := phoneNumber;
      this.store := store;
      this.mailer := mailer;
      this.sms := sms;
    }

    /**
     * `sendEmail`: one envelope to the mail transport, then the record of the outcome; a failure
     * is recorded and rethrown.
     */
    method SendEmail(userId: string, title: string, message: string, delivery: Result<MailInfo, Error>,
                     saveFault: Option<Error>, failSaveFault: Option<Error>, now: int)
      returns (res: Result<Record, Error>)
      modifies store, mailer
      ensures mailer.outbox == old(mailer.outbox) + [MailOptionsFor(sender, userId, title, message)]
      ensures var a := DeliveryAttempt(userId, Email, title, message, EmailReceipt(delivery),
                                       saveFault, failSaveFault, now);
              store.records == old(store.records) + a.stored && res == a.result
      ensures old(store.Consistent()) ==> store.Consistent()
    {
      var info := mailer.SendMail(MailOptionsFor(sender, userId, title, message), delivery);
      var caught: Error;
      if info.Success? {
        var sent := Record(userId, Email, title, message, Sent, Some(EmailMetadata(info.value)), now);
        res := store.Create(sent, saveFault);
        if res.Success? {
          return;
        }
        caught := res.error;
      } else {
        caught := info.error;
      }
      res := store.Create(FailedRecord(userId, Email, title, message, caught.message, now), failSaveFault);
      if res.Success? {
        res := Failure(caught);
      }
    }

    /**
     * `sendSMS`: one message (title, newline, message) from the configured number to the
     * transport, then the record of the outcome; a failure is recorded and rethrown.
     */
    method SendSms(userId: string, title: string, message: string, delivery: Result<SmsResponse, Error>,
                   saveFault: Option<Error>, failSaveFault: Option<Error>, now: int)
      returns (res: Result<Record, Error>)
      modifies store, sms
      ensures sms.outbox == old(sms.outbox) + [SmsMessage(SmsBody(title, message), phoneNumber, userId)]
      ensures var a := DeliveryAttempt(userId, Sms, title, message, SmsReceipt(delivery),
                                       saveFault, failSaveFault, now);
              store.records == old(store.records) + a.stored && res == a.result
      ensures old(store.Consistent()) ==> store.Consistent()
    {
      var response := sms.Create(SmsMessage(SmsBody(title, message), phoneNumber, userId), delivery);
      var caught: Error;
      if response.Success? {
        var sent := Record(userId, Sms, title, message, Sent, Some(SmsMetadata(response.value)), now);
        res := store.Create(sent, saveFault);
        if res.Success? {
          return;
        }
        caught := res.error;
      } else {
        caught := response.error;
      }
      res := store.Create(FailedRecord(userId, Sms, title, message, caught.message, now), failSaveFault);
      if res.Success? {
        res := Failure(caught);
      }
    }

    /** `createInAppNotification`: no transport call; the record is the delivery. */
    method CreateInAppNotification(userId: string, title: string, message: string,
                                   saveFault: Option<Error>, now: int)
      returns (res: Result<Record, Error>)
      modifies store
      ensures var a := InAppAttempt(userId, title, message, saveFault, now);
              store.records == old(store.records) + a.stored && res == a.result
      ensures old(store.Consistent()) ==> store.Consistent()
    {
      res := store.Create(Record(userId, InApp, title, message, Sent, None, now), saveFault);
    }

    /**
     * `getUserNotifications`: the user's records, most recent first. `readFault` is the
     * database's answer to the query; on `Some(e)` the error is rethrown. Nothing is modified.
     */
    method GetUserNotifications(userId: string, readFault: Option<Error>) returns (res: Result<seq<Record>, Error>)
      ensures readFault.Some? ==> res == Failure(readFault.value)
      ensures readFault.None? ==>
        && res.Success?
        && NewestFirst(res.value)
        && ExactlyFor(res.value, store.records, userId)
        && forall k :: 0 <= k < |res.value| ==> res.value[k].userId == userId
    {
      if readFault.Some? {
        return Failure(readFault.value);
      }
      res := Success(ByUserNewestFirst(store.records, userId));
    }
  }
}
