/**
 * The request objects the controller receives: the instance reference and the
 * integration settings (`ChatwootDto`), which `createChatwoot` edits in place.
 */
module Dtos {
  import opened Wrappers

  /** The part of `InstanceDto` the controller reads: the instance's unique name. */
  datatype InstanceDto = InstanceDto(instanceName: string)

  /** JavaScript truthiness of an optional string: present and non-empty. */
  predicate Truthy(s: Option<string>)
  {
    s.Some? && s.value != ""
  }

  /** `enabled` is truthy exactly when it holds `true`. */
  predicate IsTrue(b: Option<bool>)
  {
    b == Some(true)
  }

  /** `x === true || x === false`; `None` is every other value, including unset. */
  predicate IsBoolean(b: Option<bool>)
  {
    b.Some?
  }

  /** The value of every field of a `ChatwootDto` at one moment. */
  datatype ChatwootRecord = ChatwootRecord(
    enabled: Option<bool>,
    url: Option<string>,
    accountId: Option<string>,
    token: Option<string>,
    signMsg: Option<bool>,
    signDelimiter: Option<string>,
    nameInbox: Option<string>,
    reopenConversation: Option<bool>,
    conversationPending: Option<bool>,
    autoCreate: Option<bool>)

  /** The caller's settings object; `createChatwoot` assigns its fields one by one. */
  class ChatwootDto {
    var enabled: Option<bool>
    var url: Option<string>
    var accountId: Option<string>
    var token: Option<string>
    var signMsg: Option<bool>
    var signDelimiter: Option<string>
    var nameInbox: Option<string>
    var reopenConversation: Option<bool>
    var conversationPending: Option<bool>
    var autoCreate: Option<bool>

    constructor (r: ChatwootRecord)
      ensures Record() == r
    {
      enabled, url, accountId, token := r.enabled, r.url, r.accountId, r.token;
      signMsg, signDelimiter, nameInbox := r.signMsg, r.signDelimiter, r.nameInbox;
      reopenConversation, conversationPending, autoCreate := r.reopenConversation, r.conversationPending, r.autoCreate;
    }

    /** The object's current field values. */
    function Record(): ChatwootRecord
      reads this
    {
      ChatwootRecord(enabled, url, accountId, token, signMsg, signDelimiter,
                     nameInbox, reopenConversation, conversationPending, autoCreate)
    }
  }
}
