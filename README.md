# Message status lifecycle and handler resolution of EmailService

This project models the core of the mailer's `EmailService` class
(`MailSenderService.java`) in Dafny and proves properties of that model.

- **Status lifecycle.** `sendTemplateEmail` obtains a mail handler. It then
  creates a status record {messageId, channel, status, updatedAt, errorMessage}
  in state PENDING and calls the handler's `send`. Finally it moves the record
  to SENT, or to FAILED with the exception's message when `send` throws. Each
  state is written to a key-value cache through `storeStatus`, which derives
  the key `"message_status_" + id`, forgets that key and sets it again with
  the TTL configured for the status.
- **Handler resolution.** `create` looks an alias up in the `services`
  registry, or uses `defaultService` when there is no alias. It fails with
  `INTERNAL_MAILER_SERVICE_NOT_REGISTERED` when the name is missing or empty,
  or when the class cannot be found.

Files:

- `wrappers.dfy`: `Option` and `Result`.
- `errors.dfy`: the error codes and the exceptions the service raises.
- `message_status.dfy` (module `MessageStatus`): the record, the three-state
  lifecycle, the cache key and its inverse, and the cache write as a function
  on maps. It also holds lemmas about sequences of sends.
- `mailer_registry.dfy` (module `MailerRegistry`): alias resolution as a total
  function with an error case.
- `email_service.dfy` (module `EmailServiceModel`): the classes whose state
  changes. `Cache` holds the entries map. `MessageStatusDto` is the record
  whose setters the service calls. `EmailService` has the methods, and their
  contracts tie each new state to the functions of `MessageStatus`.

The collaborators the class uses are parameters of the model:

- what `mailerServiceFactory.create` threw, if anything;
- the id `UUID.randomUUID()` produced, or `None` when it threw;
- what the handler's `send` did (`SendOutcome`);
- the two readings of `new Date()`;
- the configured TTL, as a function from status to int;
- the class names `Class.forName` can find, as a set.

`exceptionHandler.report` appends to a ghost log.

## Model

| member | source | states |
|---|---|---|
| `MessageStatus.CacheKey` | MailSenderService.java:137-139 | the key is the prefix `message_status_` followed by exactly the message id |
| `MessageStatus.MessageIdOf` | MailSenderService.java:137-139 | inverse of the key function: an id it reads out of a key is one whose key is that key |
| `MessageStatus.MessageIdOfCacheKey` | MailSenderService.java:137-139 | reading the id back from a message's key gives that message's id |
| `MessageStatus.CacheKeyInjective` | MailSenderService.java:137-139 | two ids have the same key if and only if they are the same id |
| `MessageStatus.ForeignKeyIsNoMessageKey` | MailSenderService.java:137-139 | a key without the status prefix is the key of no message |
| `MessageStatus.Finish` | MailSenderService.java:41-52 | after a send the record keeps its id and channel and leaves PENDING by one step; it is FAILED exactly when the handler threw and then carries the exception's message, otherwise SENT with the error message unchanged |
| `MessageStatus.Store` | MailSenderService.java:81-88 | after a status write the record's key maps to the record with the TTL of its status, and every other key is unchanged |
| `MessageStatus.StoreOverwrites` | MailSenderService.java:81-88 | a second write for the same message replaces the first entirely |
| `MessageStatus.DispatchedLeavesOthers` | MailSenderService.java:81-88 | sends for other messages leave a key's presence and entry unchanged |
| `MessageStatus.DispatchedKeepsFinal` | MailSenderService.java:37-53 | after sends with distinct ids, each message's key holds its final record, never PENDING, with the TTL of the final status |
| `MailerRegistry.Resolve` | MailSenderService.java:97-106 | with an alias the name is `services[alias]`, without one it is `defaultService`; the result is the not-registered error exactly when that name is missing or empty, and no name is returned then |
| `EmailServiceModel.EmailService.Create` | MailSenderService.java:97-113 | succeeds exactly when resolution succeeds and the class is found, with the resolved name; every failure carries the not-registered code |
| `EmailServiceModel.Cache.Forget` | MailSenderService.java:86 | removes the key and nothing else |
| `EmailServiceModel.Cache.Set` | MailSenderService.java:87 | maps the key to the record and TTL and changes nothing else |
| `EmailServiceModel.EmailService.StoreStatus` | MailSenderService.java:81-88 | the cache afterwards is the status write of the record's current value, with the TTL configured for its status |
| `EmailServiceModel.EmailService.CreateMessageStatus` | MailSenderService.java:61-74 | a new PENDING record with the generated id, the request's channel and no error, stored in the cache; if id generation failed, the GUID critical error and an unchanged cache |
| `EmailServiceModel.EmailService.SetMessageStatusFailed` | MailSenderService.java:116-122 | the same object, now FAILED with the given message and time, written to the cache |
| `EmailServiceModel.EmailService.SetMessageStatusSent` | MailSenderService.java:124-129 | the same object, now SENT with the given time, written to the cache |
| `EmailServiceModel.EmailService.SendTemplateEmail` | MailSenderService.java:37-53 | a factory error is passed on and an id error is raised, both with nothing stored; otherwise the result is a new record, SENT if the handler returned and FAILED with its message (reported once) if it threw, never PENDING, and the cache holds exactly that final record under its key |

## Left out

- Reflection and dependency injection (`Class.forName`, `container.getBean`): the model stops at the class name. Whether `Class.forName` finds a class is the parameter `loadable`.
- `EmailServiceModel.EmailService.Create`: the not-found exception's cause is reduced to the class name it was looking for. `MailerService.toString` is not visible, so the alias in the context text is rendered by its value (`null` when absent).
- `MailerServiceFactory`, the handler's `send`, `ExceptionHandler`, `Cache` and `AppConfig` are not part of this model. Their behaviour enters as parameters, as listed above. The cache's forget and set are assumed to remove and store one key.
- `sendTemplateEmail` obtains its handler from `mailerServiceFactory.create`, not from this class's `create`. The model does not link the two.
- Randomness of ids and wall-clock time: ids and timestamps are parameters, and nothing is claimed about their uniqueness or order. The multi-send lemmas assume distinct ids instead.
- TTL expiry, eviction and the cache backend's storage format: only the writes are modelled.
- The cache stores a copy of the record's value at write time. A backend that kept a reference to the Java object would also see later setter calls. That aliasing is not modelled.
- Null fields of a freshly constructed DTO before its setters run are not modelled; the record is built once the id is known. A null value in `services` behaves like an absent key, so the map holds no nulls. A null channel is not modelled.
- Spring and Lombok annotations, and the `@Service` wiring.
