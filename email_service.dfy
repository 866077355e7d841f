/** The EmailService class: the status lifecycle of a template email written
    through a key-value cache, and the handler factory method `create`. */
module EmailServiceModel {
  import opened Wrappers
  import opened MailerErrors
  import opened MessageStatus
  import MailerRegistry

  /** The key-value cache the service writes statuses to. Only its write
      operations are modelled; entries never expire here. */
  class Cache {
    var entries: CacheMap

    constructor ()
      ensures entries == map[]
    {
      entries := map[];
    }

    /** Cache.forget: drop the key, if present. */
    method Forget(key: string)
      modifies this
      ensures entries == old(entries) - {key}
    {
      entries := entries - {key};
    }

    /** Cache.set: store the value under the key with the given TTL. */
    method Set(key: string, value: StatusRecord, ttl: int)
      modifies this
      ensures entries == old(entries)[key := (value, ttl)]
    {
      entries := entries[key := (value, ttl)];
    }
  }

  /** The mutable MessageStatusResponseDto; its setters are field writes. */
  class MessageStatusDto {
    var messageId: string
    var channel: string
    var status: Status
    var statusUpdatedAt: Timestamp
    var errorMessage: Option<string>

    constructor (messageId: string, channel: string, status: Status, statusUpdatedAt: Timestamp)
      ensures Snapshot() == StatusRecord(messageId, channel, status, statusUpdatedAt, None)
    {
      this.messageId := messageId;
      this.channel := channel;
      this.status := status;
      this.statusUpdatedAt := statusUpdatedAt;
      this.errorMessage := None;
    }

    /** The value the cache receives when this object is written to it. */
    function Snapshot(): StatusRecord
      reads this
    {
      StatusRecord(messageId, channel, status, statusUpdatedAt, errorMessage)
    }
  }

  /** A send request; only its channel matters to the status lifecycle. */
  datatype MessageRequest = MessageRequest(channel: string)

  class EmailService {
    const cache: Cache
    /** appConfig.getMessageStatusCache().getTtl, by status value. */
    const statusTtl: Status -> int
    /** Alias to fully qualified handler class name. */
    const services: map<string, string>
    const defaultService: Option<string>
    /** Every exception handed to exceptionHandler.report, in order. */
    ghost var reported: seq<Exception>

    constructor (cache: Cache, statusTtl: Status -> int, services: map<string, string>, defaultService: Option<string>)
      ensures this.cache == cache && this.statusTtl == statusTtl
      ensures this.services == services && this.defaultService == defaultService
      ensures reported == []
    {
      this.cache := cache;
      this.statusTtl := statusTtl;
      this.services := services;
      this.defaultService := defaultService;
      reported := [];
    }

    /** The handler class `create` hands to the container: the resolved name,
        provided Class.forName finds it (`loadable` is the set of names it
        finds). Every failure is the not-registered error. */
    function Create(alias: Option<string>, loadable: set<string>): (r: Result<string, Exception>)
      ensures r.Success? <==>
        MailerRegistry.Resolve(services, defaultService, alias).Success?
        && MailerRegistry.Resolve(services, defaultService, alias).value in loadable
      ensures r.Success? ==> r == MailerRegistry.Resolve(services, defaultService, alias)
      ensures r.Failure? ==> r.error.AppException? && r.error.code == MailerServiceNotRegistered
    {
      match MailerRegistry.Resolve(services, defaultService, alias)
      case Failure(e) => Failure(e)
      case Success(className) =>
        if className in loadable then Success(className)
        else Failure(AppException(MailerServiceNotRegistered, className))
    }

    /** storeStatus: forget the record's key, then set it with the TTL of its
        status. */
    method StoreStatus(status: MessageStatusDto)
      modifies cache
      ensures cache.entries == Store(old(cache.entries), status.Snapshot(), statusTtl)
    {
      var key := CacheKey(status.messageId);
      var ttl := statusTtl(status.status);
      cache.Forget(key);
      cache.Set(key, status.Snapshot(), ttl);
    }

    /** createMessageStatus: a PENDING record with a generated id and the
        request's channel, stored in the cache. `generatedId` is what
        UUID.randomUUID produced, None when it threw; then the critical
        GUID error is raised and nothing is stored. */
    method CreateMessageStatus(request: MessageRequest, generatedId: Option<string>, now: Timestamp)
      returns (r: Result<MessageStatusDto, Exception>)
      modifies cache
      ensures generatedId.None? ==>
        r == Failure(CriticalException(GuidGenerationError)) && cache.entries == old(cache.entries)
      ensures generatedId.Some? ==>
        && r.Success? && fresh(r.value)
        && r.value.Snapshot() == Opened(generatedId.value, request.channel, now)
        && cache.entries == Store(old(cache.entries), r.value.Snapshot(), statusTtl)
    {
      if generatedId.None? {
        return Failure(CriticalException(GuidGenerationError));
      }
      var status := new MessageStatusDto(generatedId.value, request.channel, Pending, now);
      StoreStatus(status);
      r := Success(status);
    }

    /** setMessageStatusFailed: FAILED with the given error message, written
        through to the cache. */
    method SetMessageStatusFailed(status: MessageStatusDto, errorMessage: Option<string>, now: Timestamp)
      returns (r: MessageStatusDto)
      modifies status, cache
      ensures r == status
      ensures status.Snapshot() == MarkFailed(old(status.Snapshot()), errorMessage, now)
      ensures cache.entries == Store(old(cache.entries), status.Snapshot(), statusTtl)
    {
      status.status := Failed;
      status.errorMessage := errorMessage;
      status.statusUpdatedAt := now;
      StoreStatus(status);
      r := status;
    }

    /** setMessageStatusSent: SENT, written through to the cache. */
    method SetMessageStatusSent(status: MessageStatusDto, now: Timestamp)
      returns (r: MessageStatusDto)
      modifies status, cache
      ensures r == status
      ensures status.Snapshot() == MarkSent(old(status.Snapshot()), now)
      ensures cache.entries == Store(old(cache.entries), status.Snapshot(), statusTtl)
    {
      status.status := Sent;
      status.statusUpdatedAt := now;
      StoreStatus(status);
      r := status;
    }

    /** sendTemplateEmail. The collaborators' behaviour comes in as
        parameters: `factoryError` is what mailerServiceFactory.create threw
        (None when it returned a handler), `generatedId` the new message id
        (None when generating it failed), `outcome` what the handler's send
        did, and `createdAt`/`finishedAt` the two readings of the clock.
        On success the returned record has left PENDING for SENT or FAILED,
        and the cache holds exactly that final record under its key. */
    method SendTemplateEmail(
      request: MessageRequest,
      factoryError: Option<Exception>,
      generatedId: Option<string>,
      createdAt: Timestamp,
      outcome: SendOutcome,
      finishedAt: Timestamp)
      returns (r: Result<MessageStatusDto, Exception>)
      modifies cache, this`reported
      ensures factoryError.Some? ==>
        r == Failure(factoryError.value) && cache.entries == old(cache.entries) && reported == old(reported)
      ensures factoryError.None? && generatedId.None? ==>
        && r == Failure(CriticalException(GuidGenerationError))
        && cache.entries == old(cache.entries) && reported == old(reported)
      ensures factoryError.None? && generatedId.Some? ==>
        && r.Success? && fresh(r.value)
        && r.value.Snapshot() == Final(Dispatch(generatedId.value, request.channel, createdAt, outcome, finishedAt))
        && r.value.Snapshot().status == (if outcome.Delivered? then Sent else Failed)
        && cache.entries == Store(old(cache.entries), r.value.Snapshot(), statusTtl)
        && reported == old(reported) + (if outcome.Threw? then [Thrown(outcome.message)] else [])
    {
      if factoryError.Some? {
        return Failure(factoryError.value);
      }
      var created := CreateMessageStatus(request, generatedId, createdAt);
      if created.Failure? {
        return Failure(created.error);
      }
      var status := created.value;
      ghost var pending := status.Snapshot();
      assert cache.entries == Store(old(cache.entries), pending, statusTtl);
      match outcome {
        case Threw(message) =>
          reported := reported + [Thrown(message)];
          status := SetMessageStatusFailed(status, message, finishedAt);
        case Delivered =>
          status := SetMessageStatusSent(status, finishedAt);
      }
      StoreOverwrites(old(cache.entries), pending, status.Snapshot(), statusTtl);
      r := Success(status);
    }
  }
}
