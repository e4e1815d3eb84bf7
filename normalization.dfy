/**
 * The check-and-normalise rules `createChatwoot` applies to a settings record
 * before handing it to the service, stated as pure functions on values.
 */
module Normalization {
  import opened Wrappers
  import opened Dtos

  /** The four `BadRequestException`s `createChatwoot` can throw. */
  datatype ValidationError = UrlNotValid | AccountIdRequired | TokenRequired | SignMsgRequired
  {
    /** The exception's message text. */
    function Message(): string
    {
      match this
      case UrlNotValid => "url is not valid"
      case AccountIdRequired => "account_id is required"
      case TokenRequired => "token is required"
      case SignMsgRequired => "sign_msg is required"
    }
  }

  /** Each error has its own message, so the message tells which check failed. */
  lemma MessagesDistinct(a: ValidationError, b: ValidationError)
    ensures a.Message() == b.Message() <==> a == b
  {
  }

  /**
   * `isURL(url, { require_tld: false })`; `isUrl` is the library predicate on
   * strings, and a missing url is never a URL.
   */
  predicate UrlValid(url: Option<string>, isUrl: string -> bool)
  {
    url.Some? && isUrl(url.value)
  }

  /** The four checks of an enabled request, in order; the first that fails decides. */
  function FirstFailure(c: ChatwootRecord, isUrl: string -> bool): (r: Option<ValidationError>)
    ensures r.None? <==> UrlValid(c.url, isUrl) && Truthy(c.accountId) && Truthy(c.token) && IsBoolean(c.signMsg)
    ensures r == Some(UrlNotValid) <==> !UrlValid(c.url, isUrl)
    ensures r == Some(AccountIdRequired) <==> UrlValid(c.url, isUrl) && !Truthy(c.accountId)
    ensures r == Some(TokenRequired) <==> UrlValid(c.url, isUrl) && Truthy(c.accountId) && !Truthy(c.token)
  {
    if !UrlValid(c.url, isUrl) then Some(UrlNotValid)
    else if !Truthy(c.accountId) then Some(AccountIdRequired)
    else if !Truthy(c.token) then Some(TokenRequired)
    else if !IsBoolean(c.signMsg) then Some(SignMsgRequired)
    else None
  }

  /**
   * The invariants of a record handed to the service for instance `name`:
   * a disabled record is fully cleared, an enabled one passed every check,
   * `sign_msg === false` leaves no delimiter, and the inbox is named after the instance.
   */
  predicate Canonical(c: ChatwootRecord, name: string, isUrl: string -> bool)
  {
    && (!IsTrue(c.enabled) ==>
          && c.url == Some("") && c.accountId == Some("") && c.token == Some("")
          && c.signMsg == Some(false) && c.signDelimiter == None
          && c.reopenConversation == Some(false) && c.conversationPending == Some(false)
          && c.autoCreate == Some(false))
    && (IsTrue(c.enabled) ==>
          UrlValid(c.url, isUrl) && Truthy(c.accountId) && Truthy(c.token) && IsBoolean(c.signMsg))
    && (c.signMsg == Some(false) ==> c.signDelimiter == None)
    && c.nameInbox == Some(name)
  }

  /** An enabled request's fields that reach the service as the caller sent them. */
  predicate PassedThrough(c: ChatwootRecord, n: ChatwootRecord)
  {
    && n.enabled == c.enabled && n.url == c.url && n.accountId == c.accountId
    && n.token == c.token && n.signMsg == c.signMsg
    && n.reopenConversation == c.reopenConversation
    && n.conversationPending == c.conversationPending
    && n.autoCreate == c.autoCreate
    && n.signDelimiter == (if c.signMsg == Some(false) then None else c.signDelimiter)
  }

  /** What `createChatwoot` makes of the caller's record `c` for instance `name`. */
  function Normalize(name: string, c: ChatwootRecord, isUrl: string -> bool): (r: Result<ChatwootRecord, ValidationError>)
    // which error wins: the checks in source order
    ensures r == Failure(UrlNotValid) <==> IsTrue(c.enabled) && !UrlValid(c.url, isUrl)
    ensures r == Failure(AccountIdRequired) <==>
              IsTrue(c.enabled) && UrlValid(c.url, isUrl) && !Truthy(c.accountId)
    ensures r == Failure(TokenRequired) <==>
              IsTrue(c.enabled) && UrlValid(c.url, isUrl) && Truthy(c.accountId) && !Truthy(c.token)
    ensures r == Failure(SignMsgRequired) <==>
              IsTrue(c.enabled) && UrlValid(c.url, isUrl) && Truthy(c.accountId) && Truthy(c.token)
              && !IsBoolean(c.signMsg)
    // a disabled request never fails, whatever else it holds
    ensures !IsTrue(c.enabled) ==> r.Success?
    ensures r.Success? ==> Canonical(r.value, name, isUrl) && r.value.enabled == c.enabled
    ensures r.Success? && IsTrue(c.enabled) ==> PassedThrough(c, r.value)
  {
    if IsTrue(c.enabled) then
      match FirstFailure(c, isUrl)
      case Some(e) => Failure(e)
      case None =>
        var delimiter := if c.signMsg == Some(false) then None else c.signDelimiter;
        Success(c.(signDelimiter := delimiter, nameInbox := Some(name)))
    else
      Success(c.(accountId := Some(""), token := Some(""), url := Some(""),
                 signMsg := Some(false), signDelimiter := None,
                 reopenConversation := Some(false), conversationPending := Some(false),
                 autoCreate := Some(false), nameInbox := Some(name)))
  }

  /** Normalising twice changes nothing: a canonical record is accepted as it is. */
  lemma CanonicalIsFixedPoint(name: string, c: ChatwootRecord, isUrl: string -> bool)
    requires Canonical(c, name, isUrl)
    ensures Normalize(name, c, isUrl) == Success(c)
  {
  }

  /** An enabled, valid request keeps its delimiter and gets the instance's inbox name. */
  lemma EnabledRequestExample(isUrl: string -> bool)
    requires isUrl("https://cw.example.com")
    ensures Normalize("shop1",
                      ChatwootRecord(Some(true), Some("https://cw.example.com"), Some("42"), Some("abc"),
                                     Some(true), Some("|"), Some("other"), None, None, None), isUrl)
         == Success(ChatwootRecord(Some(true), Some("https://cw.example.com"), Some("42"), Some("abc"),
                                   Some(true), Some("|"), Some("shop1"), None, None, None))
  {
  }

  /** A disabled request with a malformed url and an empty token is cleared, not rejected. */
  lemma DisabledRequestExample(isUrl: string -> bool)
    ensures Normalize("shop1",
                      ChatwootRecord(Some(false), Some("not a url"), None, Some(""),
                                     None, Some("|"), None, Some(true), None, Some(true)), isUrl)
         == Success(ChatwootRecord(Some(false), Some(""), Some(""), Some(""),
                                   Some(false), None, Some("shop1"), Some(false), Some(false), Some(false)))
  {
  }

  /** One call `createChatwoot(instance, data)`, or one call `create(instance, data)` on the service. */
  datatype CreateCall = CreateCall(instance: InstanceDto, record: ChatwootRecord)

  /** Every record in `log` is canonical for the instance it was created for. */
  predicate AllCanonical(log: seq<CreateCall>, isUrl: string -> bool)
  {
    forall i :: 0 <= i < |log| ==> Canonical(log[i].record, log[i].instance.instanceName, isUrl)
  }

  /**
   * The calls the service's `create` receives when `createChatwoot` is called
   * with each of `requests` in turn: one normalised call per request that passes,
   * nothing for one that throws.
   */
  function CreateLog(requests: seq<CreateCall>, isUrl: string -> bool): (log: seq<CreateCall>)
    ensures |log| <= |requests|
    ensures AllCanonical(log, isUrl)
  {
    if requests == [] then []
    else
      var first := requests[0];
      var rest := CreateLog(requests[1..], isUrl);
      match Normalize(first.instance.instanceName, first.record, isUrl)
      case Success(n) => [CreateCall(first.instance, n)] + rest
      case Failure(_) => rest
  }

  /** The calls made by two runs of requests are those of the first run followed by those of the second. */
  lemma {:induction false} CreateLogAppend(a: seq<CreateCall>, b: seq<CreateCall>, isUrl: string -> bool)
    ensures CreateLog(a + b, isUrl) == CreateLog(a, isUrl) + CreateLog(b, isUrl)
  {
    if a != [] {
      assert (a + b)[0] == a[0];
      assert (a + b)[1..] == a[1..] + b;
      CreateLogAppend(a[1..], b, isUrl);
    } else {
      assert a + b == b;
    }
  }
}
