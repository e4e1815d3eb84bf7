# Chatwoot integration settings: check-and-normalise model

A Dafny model of the core of `ChatwootController` in the Evolution API WhatsApp gateway. It covers two operations:

- `createChatwoot` validates the caller's `ChatwootDto` and normalises it in place. It hands the result to the chatwoot service and answers with the service's result plus a derived `webhook_url`.
- `findChatwoot` answers with the stored settings plus `webhook_url`, or with a fixed "disabled" view.

Layout:

- `wrappers.dfy`: `Option` stands for absent, `undefined` or `null`. `Result` stands for an operation that completes or throws.
- `dtos.dfy`: `InstanceDto`, and the settings object `ChatwootDto`. It has a class whose fields the controller assigns, and a value view `ChatwootRecord` of those fields. It also defines JavaScript truthiness for the fields:
  - a string is truthy when it is present and non-empty;
  - `enabled` is truthy when it holds `true`;
  - `sign_msg` is `true`, `false` or anything else (`None`).
- `normalization.dfy`: the rules as pure functions.
  - `ValidationError`: the four `BadRequestException`s. `ValidationError.Message` gives each one's message.
  - `Normalize`: the four checks in source order, the delimiter rule, the reset on disable and the inbox name.
  - `Canonical`: the invariants of every record handed to the service.
  - `CreateLog`: the records the service receives over a run of `createChatwoot` calls.
- `responses.dfy`: JSON values, the webhook address, `{ ...result, webhook_url }`, and the default view of `findChatwoot`.
- `controllers.dfy`: the classes `ChatwootService` and `ChatwootController`.
  - `ChatwootService` is reduced to the calls the controller makes. Every `create` call goes into a ghost log, `created`.
  - `ChatwootController.CreateChatwoot` is imperative, like the source: two `if` blocks mutate `data` one field at a time. It is proved against `Normalize`.

Collaborators are inputs of the model:

- class-validator's `isURL(_, { require_tld: false })` becomes the function value `isUrl` on strings. A missing url counts as not a URL, because class-validator's `isURL` first checks that its argument is a string.
- `encodeURIComponent` becomes the function value `encodeUriComponent`.
- `configService.get('SERVER').URL` becomes the string `serverUrl`.
- The service's answers to `create` and `find` become the function values `createReply` and `findReply`.

Facts about the code that the model keeps:

- `ValidationError.Message` gives the code's own exception messages: "url is not valid", "account_id is required", "token is required" and "sign_msg is required".
- The disabled view of `findChatwoot` has exactly seven keys. It has no `sign_delimiter`, `reopen_conversation`, `conversation_pending` or `auto_create` key.

## Model

| member | source | states |
|---|---|---|
| `Normalization.Normalize` | src/whatsapp/controllers/chatwoot.controller.ts:24-55 | With `enabled` truthy, the first failing check decides the error, in this order: url not valid, `account_id` missing or empty, `token` missing or empty, `sign_msg` neither true nor false. Each error holds exactly when its check is the first to fail. With `enabled` falsy, there is never an error. A success keeps `enabled` as it was and satisfies `Canonical`: a disabled record is cleared to `''`/`false`/null, an enabled one passed every check, `sign_msg === false` leaves no delimiter, and `name_inbox` is the instance name. An enabled success passes url, account, token, `sign_msg`, reopen, pending and auto-create through unchanged. It also keeps the delimiter unless `sign_msg` is false. |
| `Normalization.FirstFailure` | src/whatsapp/controllers/chatwoot.controller.ts:25-39 | The checks of an enabled request in source order. No error exactly when the url is valid, `account_id` and `token` are non-empty, and `sign_msg` is a boolean. Otherwise the url error wins over the account error, which wins over the token error, which wins over the `sign_msg` error. |
| `Normalization.MessagesDistinct` | src/whatsapp/controllers/chatwoot.controller.ts:26-38 | `ValidationError.Message` gives the four exception messages. Two errors have the same message exactly when they are the same error. |
| `Normalization.CanonicalIsFixedPoint` | src/whatsapp/controllers/chatwoot.controller.ts:24-55 | Normalisation is idempotent: a record that already satisfies the invariants is accepted unchanged. |
| `Normalization.EnabledRequestExample` | src/whatsapp/controllers/chatwoot.controller.ts:24-41 | An enabled, valid request with `sign_msg` true keeps its delimiter and every other field. Its caller-supplied `name_inbox` is replaced by the instance name. |
| `Normalization.DisabledRequestExample` | src/whatsapp/controllers/chatwoot.controller.ts:43-55 | A disabled request with a malformed url and an empty token is not rejected. It comes out fully cleared, with `name_inbox` set to the instance name. |
| `Normalization.CreateLog` | src/whatsapp/controllers/chatwoot.controller.ts:24-57 | Over any run of `createChatwoot` requests, the service receives at most one record per request. Every record it receives is canonical for its instance. |
| `Normalization.CreateLogAppend` | src/whatsapp/controllers/chatwoot.controller.ts:24-57 | The records from two consecutive runs of requests are those of the first run followed by those of the second. `CreateChatwoot` uses it for its last postcondition: a service whose log is that of a run of requests ends with the log of that run plus the new request. |
| `Responses.WithWebhookUrl` | src/whatsapp/controllers/chatwoot.controller.ts:61-64 | The response has `webhook_url` set to the derived address, overriding any `webhook_url` in the service's result. It has exactly the result's other keys, each with its value unchanged. A null result contributes nothing. |
| `Responses.WebhookUrl` | src/whatsapp/controllers/chatwoot.controller.ts:63 | The webhook address, the template of lines 63 and 89: the server URL, then `/chatwoot/webhook/`, then the encoded instance name, with nothing else. |
| `Responses.IsEmptyResult` | src/whatsapp/controllers/chatwoot.controller.ts:75 | A result is empty exactly when `result \|\| {}` has no keys. That covers a null result and an object without properties. |
| `Responses.DefaultView` | src/whatsapp/controllers/chatwoot.controller.ts:76-84 | The disabled view has exactly the seven keys `enabled`, `url`, `account_id`, `token`, `sign_msg`, `name_inbox` and `webhook_url`. `enabled` and `sign_msg` are false, and every other key is `''`. |
| `Responses.FindResponse` | src/whatsapp/controllers/chatwoot.controller.ts:75-92 | A null or empty result gives exactly the default view (`enabled` false, `url`, `account_id`, `token`, `name_inbox` all `''`, `sign_msg` false), whose `webhook_url` is `''`. A non-empty result gives its own fields unchanged plus the derived `webhook_url`. |
| `Responses.WebhookUrlDeterminesName` | src/whatsapp/controllers/chatwoot.controller.ts:63 | On one server, two instances share a webhook address only if their encoded names are equal. |
| `Controllers.ChatwootService.Create` | src/whatsapp/controllers/chatwoot.controller.ts:57 | The service receives the settings object as it is at the moment of the call. That call is appended to the service's log. |
| `Controllers.ChatwootService.Find` | src/whatsapp/controllers/chatwoot.controller.ts:71 | The service's `find` returns the opaque stored result for the instance and changes nothing. |
| `Controllers.ChatwootController.CreateChatwoot` | src/whatsapp/controllers/chatwoot.controller.ts:21-67 | On an error, it returns the error `Normalize` names. That error's message is `ValidationError.Message`. The method does not modify `data`, and never calls the service. Otherwise `data` ends up as the normalised record and the service is called exactly once with it. The response is the service's result with the derived `webhook_url`. If every record the service holds is canonical, that stays true afterwards. If the service's log is `CreateLog` of a run of requests, it becomes `CreateLog` of that run plus this request. |
| `Controllers.ChatwootController.FindChatwoot` | src/whatsapp/controllers/chatwoot.controller.ts:69-93 | The response is `FindResponse` of what the service's `find` returns, with the instance's derived webhook address. |

## Left out

- Controllers.ChatwootController.CreateChatwoot: assumes the service's `create` (line 57) never rejects. In the code, a rejection propagates after `data` has already been normalised in place (lines 43-55), and no response is built. The model instead promises a `Success` whenever validation passes.
- Controllers.ChatwootController.CreateChatwoot: assumes `encodeURIComponent` (line 63) never throws. In the code, it throws `URIError` on an unpaired surrogate, after the service has already persisted the record. A Dafny `string` cannot hold such a name.
- Controllers.ChatwootController.FindChatwoot: assumes the service's `find` (line 71) and `encodeURIComponent` (line 89) never throw. In the code, their errors propagate unchanged.
- `receiveWebhook` (lines 95-100) only builds a fresh `ChatwootService` and delegates to it. It has no logic of its own.
- `isURL` and `encodeURIComponent` are uninterpreted function values. The model assumes nothing about which strings are URLs or what the encoding produces.
- `ChatwootService`, the repository and the provider API are not part of this model. The replies of `create` and `find` are opaque inputs. The only thing recorded is which settings `create` received.
- The server URL from `ConfigService` is a constant of the controller.
- Logging, `async`/`await` and concurrency are not modelled. Each operation is one sequential step.
- Field values of the wrong JSON type are not modelled, for example a numeric `account_id` or a string `enabled`. Each DTO field holds its declared type or is absent.
- `null` and `undefined` are not distinguished; both are `None`. So the model does not say whether a cleared `sign_delimiter` is `null` or missing.
- `InstanceDto` is reduced to `instanceName`, the only field the controller reads. DTO fields the controller never touches are not modelled either.
- `Object.keys` counts exactly the keys of the result map. Results of `find` (line 75) or `create` (line 62) that are neither objects nor `null` are not modelled.
- Numbers inside JSON values are integers. The controller never looks at them.
