# Notification dispatch and delivery records, in Dafny

This project models the core of a small notification service. An HTTP request asks for a user
to be notified by email, SMS or in-app message. The request is validated, then routed on its
`type` to one service method. That method makes at most one send attempt through an external
transport (none for in-app) and writes at most one delivery record to the notification store
(none when the record write itself throws):

- a successful attempt writes a `sent` record whose metadata comes from the provider receipt;
- a failed attempt writes a `failed` record whose metadata holds `error`, and rethrows the error.

A second endpoint lists one user's records, most recent first.

Files and modules:

- `wrappers.dfy` (`Wrappers`): `Option` for an absent value, `Result` for a call that returns or throws.
- `model.dfy` (`Model`): the delivery record, the status/metadata agreement, the query semantics
  (filter by `userId`, sort by `sentAt` descending) and `NotificationStore`, the record store as a
  class whose `records` sequence `Create` appends to.
- `service.dfy` (`Service`): the mail transport and the SMS client as classes that log every
  message handed to them; the pure functions `DeliveryAttempt` and `InAppAttempt`, which state
  what one service call stores and returns; and the class `NotificationService`, whose methods
  do the work step by step and are proved equal to those functions.
- `controller.dfy` (`Controller`): request and response shapes and `NotificationController`
  (the validation gate, the type switch, the status-code mapping, the list handler).
- `routes.dfy` (`Routes`): the two validator chains as functions returning the list of field
  errors, and the POST route as validators followed by the controller.

External answers are inputs. The mail server's reply and the SMS provider's reply are each a
`Result`. Each `Notification.create` call takes a write fault: `None` means the insert succeeds,
`Some(e)` means it throws `e`. The query takes a read fault. The record's time stamp `sentAt` is
the supplied `now`. The request body's `type` field is called `kind` in the model, because
`type` is a Dafny keyword.

The model follows the code, including these behaviours:

- A record write that fails after a successful send is caught by the same `catch`. A `failed`
  record is then written with that error's message, and that error is rethrown. There is no
  separate persistence error.
- If the catch block's own write fails, that newer error propagates and nothing is stored.
- An in-app attempt can fail: its write error is rethrown and no record is stored.
- When a failure is recorded, the client still gets a 500 response carrying the error message.
  It does not get the `failed` record back.
- An unknown type is rejected by the controller's switch (400), not by the service.
- The list handler never reads the result of `validateUserId`. The model therefore has
  `ValidateUserId` only as a function on its own and does not connect it to the handler.

## Model

| member | source | states |
|---|---|---|
| `Model.NotificationStore.Create` | services/notificationService.js:28-38 | an insert that succeeds appends exactly the given record and returns it; one that throws leaves the store as it was and passes the error on |
| `Model.ForUser` | services/notificationService.js:123 | the filter `{ userId }` keeps exactly the records of that user, each as often as it occurs in the store |
| `Model.InsertNewestFirst` | services/notificationService.js:124 | inserting into a newest-first sequence keeps it newest first and adds exactly the one record |
| `Model.SortNewestFirst` | services/notificationService.js:124 | the sort `{ sentAt: -1 }` yields a permutation of its input in which `sentAt` never increases |
| `Model.ByUserNewestFirst` | services/notificationService.js:123-125 | the query result is newest first, has only the user's records, and has every one of them with its multiplicity |
| `Model.NewestFirstUnique` | services/notificationService.js:124 | when no two records share a `sentAt`, any two newest-first arrangements of the same records are the same sequence, so the listing is fully determined |
| `Model.ThreeRecordsComeBackNewestFirst` | services/notificationService.js:121-126 | three records of one user written at times 1, 2, 3 are listed as [3, 2, 1], whatever other users' records the store holds |
| `Service.HtmlBodyDecodes` | services/notificationService.js:21 | when the title has no `<`, the HTML body built from title and message reads back as that title (between `<h1>` and the first `</h1>`) and that message (between the following `<p>` and the final `</p>`) |
| `Service.SmsBodySplits` | services/notificationService.js:64 | the SMS body is title, newline, message; when the title has no newline, splitting the body at its first newline gives back title and message |
| `Service.DeliveryAttempt` | services/notificationService.js:14-57 | the record-then-rethrow flow shared by email and SMS: at most one record, and none only when the catch block's write throws; success exactly when both the send and its write succeed, with a `sent` record holding the arguments and the receipt metadata; the rethrown error is the catch block's write error if any, else the caught one; a stored `failed` record carries that error's message; whenever the receipt metadata has no `error` key (true of both channels' receipts), every stored record's status agrees with its `error` key |
| `Service.InAppAttempt` | services/notificationService.js:104-119 | in-app succeeds exactly when its write succeeds, storing one `sent` record with the arguments and no metadata; a failed write stores nothing and its error is rethrown |
| `Service.MailTransport.SendMail` | services/notificationService.js:24 | every envelope handed to the mail transport is logged once, and the transport's answer is passed back unchanged |
| `Service.SmsClient.Create` | services/notificationService.js:63-67 | every message handed to the SMS client is logged once, and the provider's answer is passed back unchanged |
| `Service.NotificationService.SendEmail` | services/notificationService.js:13-58 | one envelope goes to the mail transport: from the configured sender, to `userId`, subject `title`, text `message`, the HTML body of title and message; the store and the result are those of `DeliveryAttempt` with metadata `{messageId, response}`; store consistency is preserved |
| `Service.NotificationService.SendSms` | services/notificationService.js:60-102 | one message goes to the SMS client: body title, newline, message, from the configured number, to `userId`; the store and the result are those of `DeliveryAttempt` with metadata `{messageSid, status}`; store consistency is preserved |
| `Service.NotificationService.CreateInAppNotification` | services/notificationService.js:104-119 | no transport is touched; the store and the result are those of `InAppAttempt`; store consistency is preserved |
| `Service.NotificationService.GetUserNotifications` | services/notificationService.js:121-131 | read-only; a read failure is rethrown; otherwise the result is newest first and holds exactly the user's records |
| `Controller.Respond` | controllers/notificationController.js:37-48 | 201 exactly when the service returned, with exactly the returned record as body; a thrown error gives 500 with `Failed to create notification` and the error's message as `details` |
| `Controller.RecordedFailureAnswers500` | controllers/notificationController.js:39-48 | when a service method stored a `failed` record, the response is still 500, and its `details` equal the `error` stored in that record |
| `Controller.NotificationController.CreateNotification` | controllers/notificationController.js:5-50 | validation errors give 400 with the list, and nothing is stored or sent; `email`, `sms` and `in-app` each call only their service method, so only that method's transport is used and the store changes only as that method's attempt says, answered by `Respond`; any other type gives 400 `Invalid notification type` with nothing stored or sent |
| `Controller.NotificationController.GetUserNotifications` | controllers/notificationController.js:52-61 | a read failure gives 500 `Failed to fetch notifications`; otherwise 200 with the service's list, newest first, exactly the user's records |
| `Routes.ValidateNotification` | routes/notificationRoutes.js:8-15 | no errors exactly when `userId`, `title` and `message` are non-empty and `type` is `email`, `sms` or `in-app`; each failing field contributes its own message once (`User ID is required`, `Type must be email, sms, or in-app`, `Title is required`, `Message is required`), in the order the chain lists the fields, and nothing else appears |
| `Routes.ValidateUserId` | routes/notificationRoutes.js:17-19 | no errors exactly when the `id` parameter is non-empty; otherwise the one error `User ID is required` |
| `Routes.ValidatedKindIsSwitchCase` | routes/notificationRoutes.js:10-12 | every type the validator accepts is one of the controller's switch cases |
| `Routes.AcceptedTypesAreChannelTags` | routes/notificationRoutes.js:10-12 | the validator accepts exactly the `type` strings of the three channels, and any record stored for an accepted type carries that same `type` string |
| `Routes.PostNotifications` | routes/notificationRoutes.js:22 | through the route, a 400 happens exactly when validation fails, and then nothing is stored or sent; a valid request answers 201 or 500, makes one transport call (none for in-app) and stores at most one record |

## Left out

- The process bootstrap in `app.js` is not modelled: environment loading, middleware, listening on a port and the exit on a failed connection. It is plumbing.
- The database connection and the debug seed record in `config/db.js` are not modelled. They are I/O at start-up.
- The environment reads and logging in `config/notificationConfig.js` are not modelled. The sender address and the phone number are constants handed to the `NotificationService` constructor.
- nodemailer, twilio and mongoose are not modelled. Their answers are parameters of the calls.
- `async`/`await` and concurrent requests are not modelled. Each call runs to completion on its own.
- Console logging is not modelled, including the logging of the error's `stack` and `name`.
- The schema file models/Notification.js is not part of this model. The record's fields come from the objects passed to `Notification.create`. The store-assigned `_id`, any default for `sentAt` and any other schema field are not modelled; `sentAt` is the supplied `now`.
- The JSON serialisation of responses is not modelled. A response is its status code and a structured body.
- express-validator error objects are modelled as their `path` and `msg` only. Their `type`, `value` and `location` are left out.
- Request body fields are modelled as strings, and an absent field as the empty string. Non-string values are not modelled. A metadata value that would be `undefined` (for example a missing `info.response`) is not modelled either.
- Controller.NotificationController.GetUserNotifications: states properties of the list rather than one exact order, because the source's sort leaves the order of records with equal `sentAt` to the database. `Model.NewestFirstUnique` shows the order is fully determined when time stamps are distinct.
- Service.NotificationService.GetUserNotifications: the same.
