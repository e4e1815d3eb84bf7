/**
 * `ChatwootController.createChatwoot` and `findChatwoot`, and the part of
 * `ChatwootService` they call.
 */
module Controllers {
  import opened Wrappers
  import opened Dtos
  import opened Normalization
  import opened Responses

  /**
   * The service the controller delegates persistence to. Its replies are opaque:
   * `createReply` and `findReply` stand for whatever the provider and the
   * repository answer. `created` records every call to `create`.
   */
  class ChatwootService {
    ghost var created: seq<CreateCall>
    const createReply: (InstanceDto, ChatwootRecord) -> Option<JsonObject>
    const findReply: InstanceDto -> Option<JsonObject>

    constructor (createReply: (InstanceDto, ChatwootRecord) -> Option<JsonObject>,
                 findReply: InstanceDto -> Option<JsonObject>)
      ensures created == []
      ensures this.createReply == createReply && this.findReply == findReply
    {
      created := [];
      this.createReply := createReply;
      this.findReply := findReply;
    }

    /** `create(instance, data)`: persists the settings as they are at the call. */
    method Create(instance: InstanceDto, data: ChatwootDto) returns (result: Option<JsonObject>)
      modifies this
      ensures created == old(created) + [CreateCall(instance, data.Record())]
      ensures result == createReply(instance, data.Record())
    {
      created := created + [CreateCall(instance, data.Record())];
      result := createReply(instance, data.Record());
    }

    /** `find(instance)`: the stored settings, or nothing. */
    method Find(instance: InstanceDto) returns (result: Option<JsonObject>)
      ensures result == findReply(instance)
    {
      result := findReply(instance);
    }
  }

  class ChatwootController {
    const chatwootService: ChatwootService
    /** `configService.get('SERVER').URL`. */
    const serverUrl: string
    /** class-validator's `isURL(_, { require_tld: false })` on strings. */
    const isUrl: string -> bool
    /** `encodeURIComponent`. */
    const encodeUriComponent: string -> string

    constructor (chatwootService: ChatwootService, serverUrl: string,
                 isUrl: string -> bool, encodeUriComponent: string -> string)
      ensures this.chatwootService == chatwootService && this.serverUrl == serverUrl
      ensures this.isUrl == isUrl && this.encodeUriComponent == encodeUriComponent
    {
      this.chatwootService := chatwootService;
      this.serverUrl := serverUrl;
      this.isUrl := isUrl;
      this.encodeUriComponent := encodeUriComponent;
    }

    /**
     * Checks and normalises `data` in place, hands it to the service and
     * returns the service's result with the instance's webhook address.
     * A `Failure` is the `BadRequestException` thrown; it leaves `data` and
     * the service untouched.
     */
    method CreateChatwoot(instance: InstanceDto, data: ChatwootDto) returns (r: Result<JsonObject, ValidationError>)
      modifies data, chatwootService
      ensures var n := Normalize(instance.instanceName, old(data.Record()), isUrl);
              if n.Failure? then
                && r == Failure(n.error)
                && unchanged(data)
                && chatwootService.created == old(chatwootService.created)
              else
                && data.Record() == n.value
                && chatwootService.created == old(chatwootService.created) + [CreateCall(instance, n.value)]
                && r == Success(WithWebhookUrl(chatwootService.createReply(instance, n.value),
                                               WebhookUrl(serverUrl, encodeUriComponent, instance.instanceName)))
      ensures chatwootService.created ==
                old(chatwootService.created) + CreateLog([CreateCall(instance, old(data.Record()))], isUrl)
      ensures AllCanonical(old(chatwootService.created), isUrl) ==> AllCanonical(chatwootService.created, isUrl)
      // a service that has seen the log of a run of requests now holds the log of that run plus this one
      ensures forall requests :: old(chatwootService.created) == CreateLog(requests, isUrl) ==>
                chatwootService.created == CreateLog(requests + [CreateCall(instance, old(data.Record()))], isUrl)
    {
      ghost var call := CreateCall(instance, data.Record());
      forall requests
        ensures CreateLog(requests + [call], isUrl) == CreateLog(requests, isUrl) + CreateLog([call], isUrl)
      {
        CreateLogAppend(requests, [call], isUrl);
      }
      if IsTrue(data.enabled) {
        if !UrlValid(data.url, isUrl) {
          return Failure(UrlNotValid);
        }
        if !Truthy(data.accountId) {
          return Failure(AccountIdRequired);
        }
        if !Truthy(data.token) {
          return Failure(TokenRequired);
        }
        if data.signMsg != Some(true) && data.signMsg != Some(false) {
          assert data.signMsg.None? by {
            match data.signMsg
            case None =>
            case Some(b) => assert false;
          }
          return Failure(SignMsgRequired);
        }
        if data.signMsg == Some(false) {
          data.signDelimiter := None;
        }
      }

      if !IsTrue(data.enabled) {
        data.accountId := Some("");
        data.token := Some("");
        data.url := Some("");
        data.signMsg := Some(false);
        data.signDelimiter := None;
        data.reopenConversation := Some(false);
        data.conversationPending := Some(false);
        data.autoCreate := Some(false);
      }

      data.nameInbox := Some(instance.instanceName);

      var result := chatwootService.Create(instance, data);
      var webhookUrl := WebhookUrl(serverUrl, encodeUriComponent, instance.instanceName);
      r := Success(WithWebhookUrl(result, webhookUrl));
    }

    /** The stored settings with the webhook address, or the disabled default view. */
    method FindChatwoot(instance: InstanceDto) returns (response: JsonObject)
      ensures response == FindResponse(chatwootService.findReply(instance),
                                       WebhookUrl(serverUrl, encodeUriComponent, instance.instanceName))
    {
      var result := chatwootService.Find(instance);
      if IsEmptyResult(result) {
        return DefaultView();
      }
      response := WithWebhookUrl(result, WebhookUrl(serverUrl, encodeUriComponent, instance.instanceName));
    }
  }
}
