# A verified model of the telegram-golang-sdk request pipeline

This project models, in Dafny, how the Go SDK for the Telegram Bot API turns a
builder's fields into an HTTP request, and how it classifies the reply.

- **Values** (`values.dfy`). These are the scalar values the builders pass to `setParam`,
  together with `Render`, which gives the text Go's `%v` verb produces for each of them:
  the decimal digits of an integer, `true` or `false`, the string itself, `{}` for the
  field-less `InputFile`, and the already formatted text of a float.
- **Common** (`common_errors.dfy`). This is package `common`: the `APIError` envelope, the
  text its `Error()` method prints, and `IsAPIError`, which holds for the pointer form only.
- **QueryEncoding** (`query_encoding.dfy`). This is `url.Values.Encode` for maps that hold
  one value per key. Keys come in sorted order as `key=value` pairs joined by `&`, both
  sides escaped the way `url.QueryEscape` does it.
- **Requests** (`request.dfy`). This is the per-call `request` record, as a class. Its
  methods are `setParam`, `validate`, `setFormParam` and `setFormParams`. A `RequestOption`
  is a function from one snapshot of the record's fields to another. A `Writes` log
  records the `setParam` calls one `Do` makes. `Written` is the query such a log leaves
  behind, and `LastSet` is the value each key ends up with.
- **Clients** (`client.dfy`). This is the `Client`:
  - `NewClient` defaults;
  - `parseRequest`: options in order, then validation, the URL with `?query` only for a
    non-empty query, and the JSON content type and body only for a non-empty form;
  - `callAPI`: a status of 400 or more becomes a `*APIError`; any lower status passes the
    raw body through.
- **One module per builder file** (`send_service.dfy`, `update_message_service.dfy`,
  `webhook_service.dfy`, `callback_query_service.dfy`, `account_service.dfy`,
  `user_service.dfy`, `file_service.dfy`). Each builder is a class with one `Option`
  field per Go pointer field. Each setter writes exactly its own field. `Do` is split
  into three parts:
  - `Plan`: the sequence of `setParam` calls, as a `Writes` log;
  - `Assemble`: the request those calls build, on a fresh `Request`;
  - `Do` itself: it states, key by key, what the query holds, then sends the request
    through `callAPI`.

  The `Plan…` lemmas next to each `Do` prove these key-level facts. There is one lemma
  per key, plus `PlanOnly` for "no other key".

HTTP transport is a function field of the client from the outgoing request to an
`Exchange`. That value is a failure, or a status with a body and the error of closing that
body. JSON decoding of an error body is a second function field. JSON encoding in the
setters is a parameter of the setter. Its value is the marshalled text, or `None` when
marshalling fails.

Behaviour of the source that the contracts make visible:
- Several fields share one key. The last of them that `Do` writes and that is set wins.
  For `reply_markup` this is `forceReply` over `replyKeyboardRemove` over
  `replyKeyboardMarkup` over `inlineKeyboardMarkup`. For a media key or `thumbnail`, the
  string form wins over the `InputFile` form. In `SendMediaGroupService`, `media` is written
  from audio, document, photo and video, in that order.
- `SendPollService` uses the literal camelCase key names `isAnonymous`, `pollType`,
  `correctOptionID` and so on.
- No builder ever sends a `caption` parameter:
  - several builders have a `caption` field but no setter for it;
  - `CopyMessageService.Do` never reads that field.
- `SendVideoNoteService`'s `Animation` and `AnimationString` setters feed the
  `video_note` key.
- `EditMessageReplyMarkupService` can send an empty query.
- The GetMe, LogOut, Close and GetWebhookInfo builders send no parameter at all. Without
  request options, their URL is exactly the base URL followed by the endpoint.

## Model

| member | source | states |
|---|---|---|
| Values.RenderFormats | client.go:146 | `%v` of an integer is decimal text that reads back as that integer; of a bool, `true` or `false`; of a string, the string itself; of an `InputFile`, `{}` |
| Values.DecimalRoundTrip | common/errors.go:12 | the decimal text of any integer, with its minus sign, parses back to the same integer |
| Values.DecimalInjective | client.go:146 | two integers render to the same parameter text exactly when they are equal |
| Values.Decimal | common/errors.go:12 | `%d` text: a minus sign before the digits of a negative number, only digits otherwise, and no leading zero |
| Common.ErrorTextRoundTrip | common/errors.go:11-13 | the text of `Error()` gives back the error code and the description without loss |
| Common.ErrorTextDeterminedByCodeAndDescription | common/errors.go:11-13 | two errors print the same text exactly when their codes and descriptions agree; `Ok` never shows |
| Common.IsAPIErrorExactlyPointers | common/errors.go:15-18 | `IsAPIError` holds for a `*APIError`, and not for an `APIError` value or any other error |
| QueryEncoding.Encode | client.go:160-162 | the encoding is the empty string exactly when the map is empty |
| QueryEncoding.SortedKeys | client.go:160-162 | every key of the map once, in sorted order |
| QueryEncoding.SortedKeysComplete | client.go:160-162 | no key of the map is left out of the encoding |
| QueryEncoding.QueryEscapeHasNoSeparator | client.go:160-162 | an escaped key or value contains none of `&`, `=`, `#` and `?`, so the pairs can be split apart again |
| QueryEncoding.QueryEscapeKeepsUnreserved | client.go:160-162 | letters, digits and `-_.~` are sent unchanged |
| Requests.ApplyOptionsInOrder | client.go:151-153 | applying the options `a + b` is applying `a` first and then `b` |
| Requests.MergeFormKeys | request.go:35-37 | after `setFormParams`, every key of the map holds its rendered value; every other form key keeps its value, and none is removed |
| Requests.WrittenLastSet | client.go:134-148 | after a sequence of `setParam` calls, a key holds the rendered last value written to it, and a key that was never written is absent |
| Requests.Request.constructor | request.go:14-25 | a new request has its method and endpoint; every other field is nil or empty |
| Requests.Request.ApplyOption | client.go:151-153 | the request becomes what the option makes of it |
| Requests.Request.ApplyEach | client.go:151-153 | the options run once each, first to last |
| Requests.Request.Validate | client.go:124-132 | a nil query or form becomes an empty map, a non-nil one is unchanged, and the result is always nil |
| Requests.Request.SetParam | client.go:134-148 | `key` holds the rendered value and no other key changes; the query exists afterwards; nothing else changes; the same request is returned |
| Requests.Request.SetParamIfSet | client.go:134-148 | a set value is written as `setParam` writes it, and an unset one writes nothing; the log of calls grows by this one |
| Requests.Request.SetFormParam | request.go:41-49 | `key` holds the rendered value and no other form key changes; the form exists afterwards; the same request is returned |
| Requests.Request.SetFormParams | request.go:29-38 | a failed marshal gives nil and changes neither `json` nor the form; otherwise `json` is the marshalled map and the form is the old form with every key of the map written into it |
| Clients.FinalizeShape | client.go:150-183 | both maps exist, and method, endpoint and JSON are unchanged. The URL is base URL plus endpoint, followed by `?` and the encoded query only when the query is non-empty. The header gains `Content-Type: application/json` and the body is the JSON only when the form is non-empty; otherwise the body is empty and the header is the old one or an empty one |
| Clients.FinalizeValidated | client.go:124-132 | finalizing an already validated request gives the same result |
| Clients.FullURLSplits | client.go:159-175 | the URL starts with base URL and endpoint, contains a `?` exactly when the query is non-empty (for a `?`-free base URL and endpoint), and the encoded query follows that `?` |
| Clients.OutgoingShape | client.go:159-175 | the HTTP request built from a finalized request has its method and URL (`?query` only for a non-empty query). For a non-empty form, its header carries `Content-Type: application/json` beside every other header entry of the request, and its body is the JSON; for an empty form, the header is the request's own (empty when nil) and the body is empty |
| Clients.Classify | client.go:73-116 | a transport failure gives empty data and that error. A status of 400 or more gives nil data and a `*APIError` holding whatever the body decoded to, even when decoding failed. A lower status gives the raw body, and an error only when closing the body failed |
| Clients.ErrorStatusMessage | client.go:107-113 | the error of an error status satisfies `IsAPIError`, and its text shows the decoded code and description |
| Clients.Client.NewClient | client.go:31-40 | the base URL is `https://api.telegram.org/bot` followed by the token; the user agent is `Telegram/Golang`; debugging is off |
| Clients.Client.ParseRequest | client.go:150-183 | the request becomes the finalized form of the request after the options, and the result is always nil |
| Clients.Client.CallAPI | client.go:73-116 | the request is finalized as `parseRequest` does it, and data and error are the classification of the exchange the transport returns for it |
| SendService.SendMessageService.constructor | client.go:187-189 | the builder refers to its client and has every field unset |
| SendService.SendMessageService.ChatID | send_service.go:29-32 | stores the argument in `chatID` and no other field; returns the same builder |
| SendService.SendMessageService.MessageThreadID | send_service.go:34-37 | stores the argument in `messageThreadID` and no other field; returns the same builder |
| SendService.SendMessageService.Text | send_service.go:39-42 | stores the argument in `text` and no other field; returns the same builder |
| SendService.SendMessageService.ParseMode | send_service.go:44-47 | stores the argument in `parseMode` and no other field; returns the same builder |
| SendService.SendMessageService.Entities | send_service.go:49-59 | a failed marshal gives nil and leaves `entities` alone; otherwise `entities` holds the JSON text and the same builder is returned |
| SendService.SendMessageService.DisableWebPagePreview | send_service.go:61-64 | stores the argument in `disableWebPagePreview` and no other field; returns the same builder |
| SendService.SendMessageService.DisableNotification | send_service.go:66-69 | stores the argument in `disableNotification` and no other field; returns the same builder |
| SendService.SendMessageService.ProtectContent | send_service.go:71-74 | stores the argument in `protectContent` and no other field; returns the same builder |
| SendService.SendMessageService.ReplyToMessageID | send_service.go:76-79 | stores the argument in `replyToMessageID` and no other field; returns the same builder |
| SendService.SendMessageService.AllowSendingWithoutReply | send_service.go:81-84 | stores the argument in `allowSendingWithoutReply` and no other field; returns the same builder |
| SendService.SendMessageService.InlineKeyboardMarkup | send_service.go:86-96 | a failed marshal gives nil and leaves `inlineKeyboardMarkup` alone; otherwise `inlineKeyboardMarkup` holds the JSON text and the same builder is returned |
| SendService.SendMessageService.ReplyKeyboardMarkup | send_service.go:98-108 | a failed marshal gives nil and leaves `replyKeyboardMarkup` alone; otherwise `replyKeyboardMarkup` holds the JSON text and the same builder is returned |
| SendService.SendMessageService.ReplyKeyboardRemove | send_service.go:110-120 | a failed marshal gives nil and leaves `replyKeyboardRemove` alone; otherwise `replyKeyboardRemove` holds the JSON text and the same builder is returned |
| SendService.SendMessageService.ForceReply | send_service.go:122-132 | a failed marshal gives nil and leaves `forceReply` alone; otherwise `forceReply` holds the JSON text and the same builder is returned |
| SendService.SendMessageService.Assemble | send_service.go:135-177 | a new GET request to `/sendMessage` whose query is what the `setParam` calls of `Plan` leave behind, every other field empty |
| SendService.SendMessageService.Do | send_service.go:134-194 | GET `/sendMessage`; `chat_id`, `text` always present with the rendered field; `message_thread_id`, `parse_mode`, `entities`, `disable_web_page_preview`, `disable_notification`, `protect_content`, `reply_to_message_id`, `allow_sending_without_reply` each present exactly when its field is set; `reply_markup` holds the last of `inlineKeyboardMarkup`, `replyKeyboardMarkup`, `replyKeyboardRemove`, `forceReply` (the order `Do` writes them) that is set, and is absent when none is; no other key; the result and error are those of `callAPI`, with nil data on an error |
| SendService.ForwardMessageService.constructor | client.go:211-213 | the builder refers to its client and has every field unset |
| SendService.ForwardMessageService.ChatID | send_service.go:211-214 | stores the argument in `chatID` and no other field; returns the same builder |
| SendService.ForwardMessageService.MessageThreadID | send_service.go:216-219 | stores the argument in `messageThreadID` and no other field; returns the same builder |
| SendService.ForwardMessageService.MessageID | send_service.go:221-224 | stores the argument in `messageID` and no other field; returns the same builder |
| SendService.ForwardMessageService.FromChatID | send_service.go:226-229 | stores the argument in `fromChatID` and no other field; returns the same builder |
| SendService.ForwardMessageService.DisableNotification | send_service.go:231-234 | stores the argument in `disableNotification` and no other field; returns the same builder |
| SendService.ForwardMessageService.ProtectContent | send_service.go:236-239 | stores the argument in `protectContent` and no other field; returns the same builder |
| SendService.ForwardMessageService.Assemble | send_service.go:242-258 | a new GET request to `/forwardMessage` whose query is what the `setParam` calls of `Plan` leave behind, every other field empty |
| SendService.ForwardMessageService.Do | send_service.go:241-275 | GET `/forwardMessage`; `chat_id`, `from_chat_id`, `message_id` always present with the rendered field; `message_thread_id`, `disable_notification`, `protect_content` each present exactly when its field is set; no other key; the result and error are those of `callAPI`, with nil data on an error |
| SendService.CopyMessageService.constructor | client.go:214-216 | the builder refers to its client and has every field unset |
| SendService.CopyMessageService.ChatID | send_service.go:301-304 | stores the argument in `chatID` and no other field; returns the same builder |
| SendService.CopyMessageService.MessageThreadID | send_service.go:306-309 | stores the argument in `messageThreadID` and no other field; returns the same builder |
| SendService.CopyMessageService.ParseMode | send_service.go:311-314 | stores the argument in `parseMode` and no other field; returns the same builder |
| SendService.CopyMessageService.CaptionEntities | send_service.go:316-327 | a failed marshal gives nil and leaves `captionEntities` alone; otherwise `captionEntities` holds the JSON text and the same builder is returned |
| SendService.CopyMessageService.MessageID | send_service.go:329-332 | stores the argument in `messageID` and no other field; returns the same builder |
| SendService.CopyMessageService.FromChatID | send_service.go:334-337 | stores the argument in `fromChatID` and no other field; returns the same builder |
| SendService.CopyMessageService.DisableNotification | send_service.go:339-342 | stores the argument in `disableNotification` and no other field; returns the same builder |
| SendService.CopyMessageService.ProtectContent | send_service.go:344-347 | stores the argument in `protectContent` and no other field; returns the same builder |
| SendService.CopyMessageService.ReplyToMessageID | send_service.go:349-352 | stores the argument in `replyToMessageID` and no other field; returns the same builder |
| SendService.CopyMessageService.AllowSendingWithoutReply | send_service.go:354-357 | stores the argument in `allowSendingWithoutReply` and no other field; returns the same builder |
| SendService.CopyMessageService.InlineKeyboardMarkup | send_service.go:359-369 | a failed marshal gives nil and leaves `inlineKeyboardMarkup` alone; otherwise `inlineKeyboardMarkup` holds the JSON text and the same builder is returned |
| SendService.CopyMessageService.ReplyKeyboardMarkup | send_service.go:371-381 | a failed marshal gives nil and leaves `replyKeyboardMarkup` alone; otherwise `replyKeyboardMarkup` holds the JSON text and the same builder is returned |
| SendService.CopyMessageService.ReplyKeyboardRemove | send_service.go:383-393 | a failed marshal gives nil and leaves `replyKeyboardRemove` alone; otherwise `replyKeyboardRemove` holds the JSON text and the same builder is returned |
| SendService.CopyMessageService.ForceReply | send_service.go:395-405 | a failed marshal gives nil and leaves `forceReply` alone; otherwise `forceReply` holds the JSON text and the same builder is returned |
| SendService.CopyMessageService.Assemble | send_service.go:408-448 | a new GET request to `/copyMessage` whose query is what the `setParam` calls of `Plan` leave behind, every other field empty |
| SendService.CopyMessageService.Do | send_service.go:407-465 | GET `/copyMessage`; `chat_id`, `from_chat_id`, `message_id` always present with the rendered field; `message_thread_id`, `parse_mode`, `caption_entities`, `disable_notification`, `protect_content`, `reply_to_message_id`, `allow_sending_without_reply` each present exactly when its field is set; `reply_markup` holds the last of `inlineKeyboardMarkup`, `replyKeyboardMarkup`, `replyKeyboardRemove`, `forceReply` (the order `Do` writes them) that is set, and is absent when none is; no other key; no `caption` key although there is a `caption` field; the result and error are those of `callAPI`, with nil data on an error |
| SendService.SendPhotoService.constructor | client.go:217-219 | the builder refers to its client and has every field unset |
| SendService.SendPhotoService.ChatID | send_service.go:491-494 | stores the argument in `chatID` and no other field; returns the same builder |
| SendService.SendPhotoService.MessageThreadID | send_service.go:496-499 | stores the argument in `messageThreadID` and no other field; returns the same builder |
| SendService.SendPhotoService.ParseMode | send_service.go:501-504 | stores the argument in `parseMode` and no other field; returns the same builder |
| SendService.SendPhotoService.CaptionEntities | send_service.go:506-517 | a failed marshal gives nil and leaves `captionEntities` alone; otherwise `captionEntities` holds the JSON text and the same builder is returned |
| SendService.SendPhotoService.Photo | send_service.go:519-522 | stores the argument in `photo` and no other field; returns the same builder |
| SendService.SendPhotoService.PhotoString | send_service.go:524-527 | stores the argument in `photoString` and no other field; returns the same builder |
| SendService.SendPhotoService.DisableNotification | send_service.go:529-532 | stores the argument in `disableNotification` and no other field; returns the same builder |
| SendService.SendPhotoService.ProtectContent | send_service.go:534-537 | stores the argument in `protectContent` and no other field; returns the same builder |
| SendService.SendPhotoService.ReplyToMessageID | send_service.go:539-542 | stores the argument in `replyToMessageID` and no other field; returns the same builder |
| SendService.SendPhotoService.AllowSendingWithoutReply | send_service.go:544-547 | stores the argument in `allowSendingWithoutReply` and no other field; returns the same builder |
| SendService.SendPhotoService.InlineKeyboardMarkup | send_service.go:549-559 | a failed marshal gives nil and leaves `inlineKeyboardMarkup` alone; otherwise `inlineKeyboardMarkup` holds the JSON text and the same builder is returned |
| SendService.SendPhotoService.ReplyKeyboardMarkup | send_service.go:561-571 | a failed marshal gives nil and leaves `replyKeyboardMarkup` alone; otherwise `replyKeyboardMarkup` holds the JSON text and the same builder is returned |
| SendService.SendPhotoService.ReplyKeyboardRemove | send_service.go:573-583 | a failed marshal gives nil and leaves `replyKeyboardRemove` alone; otherwise `replyKeyboardRemove` holds the JSON text and the same builder is returned |
| SendService.SendPhotoService.ForceReply | send_service.go:585-595 | a failed marshal gives nil and leaves `forceReply` alone; otherwise `forceReply` holds the JSON text and the same builder is returned |
| SendService.SendPhotoService.Assemble | send_service.go:598-642 | a new GET request to `/sendPhoto` whose query is what the `setParam` calls of `Plan` leave behind, every other field empty |
| SendService.SendPhotoService.Do | send_service.go:597-659 | GET `/sendPhoto`; `chat_id` always present with the rendered field; `message_thread_id`, `parse_mode`, `caption_entities`, `disable_notification`, `protect_content`, `reply_to_message_id`, `allow_sending_without_reply` each present exactly when its field is set; `photo` holds the last of `photo`, `photoString` (the order `Do` writes them) that is set, and is absent when none is; `reply_markup` holds the last of `inlineKeyboardMarkup`, `replyKeyboardMarkup`, `replyKeyboardRemove`, `forceReply` (the order `Do` writes them) that is set, and is absent when none is; no other key; no `caption` key although there is a `caption` field; the result and error are those of `callAPI`, with nil data on an error |
| SendService.SendAudioService.constructor | client.go:220-222 | the builder refers to its client and has every field unset |
| SendService.SendAudioService.ChatID | send_service.go:690-693 | stores the argument in `chatID` and no other field; returns the same builder |
| SendService.SendAudioService.MessageThreadID | send_service.go:695-698 | stores the argument in `messageThreadID` and no other field; returns the same builder |
| SendService.SendAudioService.ParseMode | send_service.go:700-703 | stores the argument in `parseMode` and no other field; returns the same builder |
| SendService.SendAudioService.CaptionEntities | send_service.go:705-716 | a failed marshal gives nil and leaves `captionEntities` alone; otherwise `captionEntities` holds the JSON text and the same builder is returned |
| SendService.SendAudioService.Audio | send_service.go:718-721 | stores the argument in `audio` and no other field; returns the same builder |
| SendService.SendAudioService.AudioString | send_service.go:723-726 | stores the argument in `audioString` and no other field; returns the same builder |
| SendService.SendAudioService.Duration | send_service.go:728-731 | stores the argument in `duration` and no other field; returns the same builder |
| SendService.SendAudioService.Performer | send_service.go:733-736 | stores the argument in `performer` and no other field; returns the same builder |
| SendService.SendAudioService.Title | send_service.go:738-741 | stores the argument in `title` and no other field; returns the same builder |
| SendService.SendAudioService.Thumbnail | send_service.go:743-746 | stores the argument in `thumbnail` and no other field; returns the same builder |
| SendService.SendAudioService.ThumbnailString | send_service.go:748-751 | stores the argument in `thumbnailString` and no other field; returns the same builder |
| SendService.SendAudioService.DisableNotification | send_service.go:753-756 | stores the argument in `disableNotification` and no other field; returns the same builder |
| SendService.SendAudioService.ProtectContent | send_service.go:758-761 | stores the argument in `protectContent` and no other field; returns the same builder |
| SendService.SendAudioService.ReplyToMessageID | send_service.go:763-766 | stores the argument in `replyToMessageID` and no other field; returns the same builder |
| SendService.SendAudioService.AllowSendingWithoutReply | send_service.go:768-771 | stores the argument in `allowSendingWithoutReply` and no other field; returns the same builder |
| SendService.SendAudioService.InlineKeyboardMarkup | send_service.go:773-783 | a failed marshal gives nil and leaves `inlineKeyboardMarkup` alone; otherwise `inlineKeyboardMarkup` holds the JSON text and the same builder is returned |
| SendService.SendAudioService.ReplyKeyboardMarkup | send_service.go:785-795 | a failed marshal gives nil and leaves `replyKeyboardMarkup` alone; otherwise `replyKeyboardMarkup` holds the JSON text and the same builder is returned |
| SendService.SendAudioService.ReplyKeyboardRemove | send_service.go:797-807 | a failed marshal gives nil and leaves `replyKeyboardRemove` alone; otherwise `replyKeyboardRemove` holds the JSON text and the same builder is returned |
| SendService.SendAudioService.ForceReply | send_service.go:809-819 | a failed marshal gives nil and leaves `forceReply` alone; otherwise `forceReply` holds the JSON text and the same builder is returned |
| SendService.SendAudioService.Assemble | send_service.go:822-881 | a new GET request to `/sendAudio` whose query is what the `setParam` calls of `Plan` leave behind, every other field empty |
| SendService.SendAudioService.Do | send_service.go:821-898 | GET `/sendAudio`; `chat_id` always present with the rendered field; `message_thread_id`, `parse_mode`, `caption_entities`, `duration`, `performer`, `title`, `disable_notification`, `protect_content`, `reply_to_message_id`, `allow_sending_without_reply` each present exactly when its field is set; `audio` holds the last of `audio`, `audioString` (the order `Do` writes them) that is set, and is absent when none is; `thumbnail` holds the last of `thumbnail`, `thumbnailString` (the order `Do` writes them) that is set, and is absent when none is; `reply_markup` holds the last of `inlineKeyboardMarkup`, `replyKeyboardMarkup`, `replyKeyboardRemove`, `forceReply` (the order `Do` writes them) that is set, and is absent when none is; no other key; no `caption` key although there is a `caption` field; the result and error are those of `callAPI`, with nil data on an error |
| SendService.SendDocumentService.constructor | client.go:223-225 | the builder refers to its client and has every field unset |
| SendService.SendDocumentService.ChatID | send_service.go:926-929 | stores the argument in `chatID` and no other field; returns the same builder |
| SendService.SendDocumentService.MessageThreadID | send_service.go:931-934 | stores the argument in `messageThreadID` and no other field; returns the same builder |
| SendService.SendDocumentService.ParseMode | send_service.go:936-939 | stores the argument in `parseMode` and no other field; returns the same builder |
| SendService.SendDocumentService.CaptionEntities | send_service.go:941-952 | a failed marshal gives nil and leaves `captionEntities` alone; otherwise `captionEntities` holds the JSON text and the same builder is returned |
| SendService.SendDocumentService.Document | send_service.go:954-957 | stores the argument in `document` and no other field; returns the same builder |
| SendService.SendDocumentService.DocumentString | send_service.go:959-962 | stores the argument in `documentString` and no other field; returns the same builder |
| SendService.SendDocumentService.Thumbnail | send_service.go:964-967 | stores the argument in `thumbnail` and no other field; returns the same builder |
| SendService.SendDocumentService.ThumbnailString | send_service.go:969-972 | stores the argument in `thumbnailString` and no other field; returns the same builder |
| SendService.SendDocumentService.DisableNotification | send_service.go:974-977 | stores the argument in `disableNotification` and no other field; returns the same builder |
| SendService.SendDocumentService.ProtectContent | send_service.go:979-982 | stores the argument in `protectContent` and no other field; returns the same builder |
| SendService.SendDocumentService.ReplyToMessageID | send_service.go:984-987 | stores the argument in `replyToMessageID` and no other field; returns the same builder |
| SendService.SendDocumentService.AllowSendingWithoutReply | send_service.go:989-992 | stores the argument in `allowSendingWithoutReply` and no other field; returns the same builder |
| SendService.SendDocumentService.InlineKeyboardMarkup | send_service.go:994-1004 | a failed marshal gives nil and leaves `inlineKeyboardMarkup` alone; otherwise `inlineKeyboardMarkup` holds the JSON text and the same builder is returned |
| SendService.SendDocumentService.ReplyKeyboardMarkup | send_service.go:1006-1016 | a failed marshal gives nil and leaves `replyKeyboardMarkup` alone; otherwise `replyKeyboardMarkup` holds the JSON text and the same builder is returned |
| SendService.SendDocumentService.ReplyKeyboardRemove | send_service.go:1018-1028 | a failed marshal gives nil and leaves `replyKeyboardRemove` alone; otherwise `replyKeyboardRemove` holds the JSON text and the same builder is returned |
| SendService.SendDocumentService.ForceReply | send_service.go:1030-1040 | a failed marshal gives nil and leaves `forceReply` alone; otherwise `forceReply` holds the JSON text and the same builder is returned |
| SendService.SendDocumentService.Assemble | send_service.go:1043-1090 | a new GET request to `/sendDocument` whose query is what the `setParam` calls of `Plan` leave behind, every other field empty |
| SendService.SendDocumentService.Do | send_service.go:1042-1107 | GET `/sendDocument`; `chat_id` always present with the rendered field; `message_thread_id`, `parse_mode`, `caption_entities`, `caption`, `disable_notification`, `protect_content`, `reply_to_message_id`, `allow_sending_without_reply` each present exactly when its field is set; `document` holds the last of `document`, `documentString` (the order `Do` writes them) that is set, and is absent when none is; `reply_markup` holds the last of `inlineKeyboardMarkup`, `replyKeyboardMarkup`, `replyKeyboardRemove`, `forceReply` (the order `Do` writes them) that is set, and is absent when none is; no other key; `caption` only from the `caption` field, which no setter writes and the constructor leaves unset; the result and error are those of `callAPI`, with nil data on an error |
| SendService.SendVideoService.constructor | client.go:226-228 | the builder refers to its client and has every field unset |
| SendService.SendVideoService.ChatID | send_service.go:1140-1143 | stores the argument in `chatID` and no other field; returns the same builder |
| SendService.SendVideoService.MessageThreadID | send_service.go:1145-1148 | stores the argument in `messageThreadID` and no other field; returns the same builder |
| SendService.SendVideoService.ParseMode | send_service.go:1150-1153 | stores the argument in `parseMode` and no other field; returns the same builder |
| SendService.SendVideoService.CaptionEntities | send_service.go:1155-1166 | a failed marshal gives nil and leaves `captionEntities` alone; otherwise `captionEntities` holds the JSON text and the same builder is returned |
| SendService.SendVideoService.Video | send_service.go:1168-1171 | stores the argument in `video` and no other field; returns the same builder |
| SendService.SendVideoService.VideoString | send_service.go:1173-1176 | stores the argument in `videoString` and no other field; returns the same builder |
| SendService.SendVideoService.Duration | send_service.go:1178-1181 | stores the argument in `duration` and no other field; returns the same builder |
| SendService.SendVideoService.Width | send_service.go:1183-1186 | stores the argument in `width` and no other field; returns the same builder |
| SendService.SendVideoService.Height | send_service.go:1188-1191 | stores the argument in `height` and no other field; returns the same builder |
| SendService.SendVideoService.Thumbnail | send_service.go:1193-1196 | stores the argument in `thumbnail` and no other field; returns the same builder |
| SendService.SendVideoService.ThumbnailString | send_service.go:1198-1201 | stores the argument in `thumbnailString` and no other field; returns the same builder |
| SendService.SendVideoService.DisableNotification | send_service.go:1203-1206 | stores the argument in `disableNotification` and no other field; returns the same builder |
| SendService.SendVideoService.ProtectContent | send_service.go:1208-1211 | stores the argument in `protectContent` and no other field; returns the same builder |
| SendService.SendVideoService.HasSpoiler | send_service.go:1213-1216 | stores the argument in `hasSpoiler` and no other field; returns the same builder |
| SendService.SendVideoService.SupportsStreaming | send_service.go:1218-1221 | stores the argument in `supportsStreaming` and no other field; returns the same builder |
| SendService.SendVideoService.ReplyToMessageID | send_service.go:1223-1226 | stores the argument in `replyToMessageID` and no other field; returns the same builder |
| SendService.SendVideoService.AllowSendingWithoutReply | send_service.go:1228-1231 | stores the argument in `allowSendingWithoutReply` and no other field; returns the same builder |
| SendService.SendVideoService.InlineKeyboardMarkup | send_service.go:1233-1243 | a failed marshal gives nil and leaves `inlineKeyboardMarkup` alone; otherwise `inlineKeyboardMarkup` holds the JSON text and the same builder is returned |
| SendService.SendVideoService.ReplyKeyboardMarkup | send_service.go:1245-1255 | a failed marshal gives nil and leaves `replyKeyboardMarkup` alone; otherwise `replyKeyboardMarkup` holds the JSON text and the same builder is returned |
| SendService.SendVideoService.ReplyKeyboardRemove | send_service.go:1257-1267 | a failed marshal gives nil and leaves `replyKeyboardRemove` alone; otherwise `replyKeyboardRemove` holds the JSON text and the same builder is returned |
| SendService.SendVideoService.ForceReply | send_service.go:1269-1279 | a failed marshal gives nil and leaves `forceReply` alone; otherwise `forceReply` holds the JSON text and the same builder is returned |
| SendService.SendVideoService.Assemble | send_service.go:1282-1344 | a new GET request to `/sendVideo` whose query is what the `setParam` calls of `Plan` leave behind, every other field empty |
| SendService.SendVideoService.Do | send_service.go:1281-1361 | GET `/sendVideo`; `chat_id` always present with the rendered field; `duration`, `width`, `height`, `message_thread_id`, `parse_mode`, `caption_entities`, `caption`, `disable_notification`, `protect_content`, `reply_to_message_id`, `has_spoiler`, `supports_streaming`, `allow_sending_without_reply` each present exactly when its field is set; `video` holds the last of `video`, `videoString` (the order `Do` writes them) that is set, and is absent when none is; `reply_markup` holds the last of `inlineKeyboardMarkup`, `replyKeyboardMarkup`, `replyKeyboardRemove`, `forceReply` (the order `Do` writes them) that is set, and is absent when none is; no other key; `caption` only from the `caption` field, which no setter writes and the constructor leaves unset; the result and error are those of `callAPI`, with nil data on an error |
| SendService.SendAnimationService.constructor | client.go:229-231 | the builder refers to its client and has every field unset |
| SendService.SendAnimationService.ChatID | send_service.go:1393-1396 | stores the argument in `chatID` and no other field; returns the same builder |
| SendService.SendAnimationService.MessageThreadID | send_service.go:1398-1401 | stores the argument in `messageThreadID` and no other field; returns the same builder |
| SendService.SendAnimationService.ParseMode | send_service.go:1403-1406 | stores the argument in `parseMode` and no other field; returns the same builder |
| SendService.SendAnimationService.CaptionEntities | send_service.go:1408-1419 | a failed marshal gives nil and leaves `captionEntities` alone; otherwise `captionEntities` holds the JSON text and the same builder is returned |
| SendService.SendAnimationService.Animation | send_service.go:1421-1424 | stores the argument in `animation` and no other field; returns the same builder |
| SendService.SendAnimationService.AnimationString | send_service.go:1426-1429 | stores the argument in `animationString` and no other field; returns the same builder |
| SendService.SendAnimationService.Duration | send_service.go:1431-1434 | stores the argument in `duration` and no other field; returns the same builder |
| SendService.SendAnimationService.Width | send_service.go:1436-1439 | stores the argument in `width` and no other field; returns the same builder |
| SendService.SendAnimationService.Height | send_service.go:1441-1444 | stores the argument in `height` and no other field; returns the same builder |
| SendService.SendAnimationService.Thumbnail | send_service.go:1446-1449 | stores the argument in `thumbnail` and no other field; returns the same builder |
| SendService.SendAnimationService.ThumbnailString | send_service.go:1451-1454 | stores the argument in `thumbnailString` and no other field; returns the same builder |
| SendService.SendAnimationService.DisableNotification | send_service.go:1456-1459 | stores the argument in `disableNotification` and no other field; returns the same builder |
| SendService.SendAnimationService.ProtectContent | send_service.go:1461-1464 | stores the argument in `protectContent` and no other field; returns the same builder |
| SendService.SendAnimationService.SupportsStreaming | send_service.go:1466-1469 | stores the argument in `supportsStreaming` and no other field; returns the same builder |
| SendService.SendAnimationService.ReplyToMessageID | send_service.go:1471-1474 | stores the argument in `replyToMessageID` and no other field; returns the same builder |
| SendService.SendAnimationService.AllowSendingWithoutReply | send_service.go:1476-1479 | stores the argument in `allowSendingWithoutReply` and no other field; returns the same builder |
| SendService.SendAnimationService.InlineKeyboardMarkup | send_service.go:1481-1491 | a failed marshal gives nil and leaves `inlineKeyboardMarkup` alone; otherwise `inlineKeyboardMarkup` holds the JSON text and the same builder is returned |
| SendService.SendAnimationService.ReplyKeyboardMarkup | send_service.go:1493-1503 | a failed marshal gives nil and leaves `replyKeyboardMarkup` alone; otherwise `replyKeyboardMarkup` holds the JSON text and the same builder is returned |
| SendService.SendAnimationService.ReplyKeyboardRemove | send_service.go:1505-1515 | a failed marshal gives nil and leaves `replyKeyboardRemove` alone; otherwise `replyKeyboardRemove` holds the JSON text and the same builder is returned |
| SendService.SendAnimationService.ForceReply | send_service.go:1517-1527 | a failed marshal gives nil and leaves `forceReply` alone; otherwise `forceReply` holds the JSON text and the same builder is returned |
| SendService.SendAnimationService.Assemble | send_service.go:1530-1589 | a new GET request to `/sendAnimation` whose query is what the `setParam` calls of `Plan` leave behind, every other field empty |
| SendService.SendAnimationService.Do | send_service.go:1529-1606 | GET `/sendAnimation`; `chat_id` always present with the rendered field; `duration`, `width`, `height`, `message_thread_id`, `parse_mode`, `caption_entities`, `caption`, `disable_notification`, `protect_content`, `reply_to_message_id`, `supports_streaming`, `allow_sending_without_reply` each present exactly when its field is set; `animation` holds the last of `animation`, `animationString` (the order `Do` writes them) that is set, and is absent when none is; `reply_markup` holds the last of `inlineKeyboardMarkup`, `replyKeyboardMarkup`, `replyKeyboardRemove`, `forceReply` (the order `Do` writes them) that is set, and is absent when none is; no other key; `caption` only from the `caption` field, which no setter writes and the constructor leaves unset; the result and error are those of `callAPI`, with nil data on an error |
| SendService.SendVoiceService.constructor | client.go:232-234 | the builder refers to its client and has every field unset |
| SendService.SendVoiceService.ChatID | send_service.go:1633-1636 | stores the argument in `chatID` and no other field; returns the same builder |
| SendService.SendVoiceService.MessageThreadID | send_service.go:1638-1641 | stores the argument in `messageThreadID` and no other field; returns the same builder |
| SendService.SendVoiceService.ParseMode | send_service.go:1643-1646 | stores the argument in `parseMode` and no other field; returns the same builder |
| SendService.SendVoiceService.CaptionEntities | send_service.go:1648-1659 | a failed marshal gives nil and leaves `captionEntities` alone; otherwise `captionEntities` holds the JSON text and the same builder is returned |
| SendService.SendVoiceService.Voice | send_service.go:1661-1664 | stores the argument in `voice` and no other field; returns the same builder |
| SendService.SendVoiceService.VoiceString | send_service.go:1666-1669 | stores the argument in `voiceString` and no other field; returns the same builder |
| SendService.SendVoiceService.Duration | send_service.go:1671-1674 | stores the argument in `duration` and no other field; returns the same builder |
| SendService.SendVoiceService.DisableNotification | send_service.go:1676-1679 | stores the argument in `disableNotification` and no other field; returns the same builder |
| SendService.SendVoiceService.ProtectContent | send_service.go:1681-1684 | stores the argument in `protectContent` and no other field; returns the same builder |
| SendService.SendVoiceService.ReplyToMessageID | send_service.go:1686-1689 | stores the argument in `replyToMessageID` and no other field; returns the same builder |
| SendService.SendVoiceService.AllowSendingWithoutReply | send_service.go:1691-1694 | stores the argument in `allowSendingWithoutReply` and no other field; returns the same builder |
| SendService.SendVoiceService.InlineKeyboardMarkup | send_service.go:1696-1706 | a failed marshal gives nil and leaves `inlineKeyboardMarkup` alone; otherwise `inlineKeyboardMarkup` holds the JSON text and the same builder is returned |
| SendService.SendVoiceService.ReplyKeyboardMarkup | send_service.go:1708-1718 | a failed marshal gives nil and leaves `replyKeyboardMarkup` alone; otherwise `replyKeyboardMarkup` holds the JSON text and the same builder is returned |
| SendService.SendVoiceService.ReplyKeyboardRemove | send_service.go:1720-1730 | a failed marshal gives nil and leaves `replyKeyboardRemove` alone; otherwise `replyKeyboardRemove` holds the JSON text and the same builder is returned |
| SendService.SendVoiceService.ForceReply | send_service.go:1732-1742 | a failed marshal gives nil and leaves `forceReply` alone; otherwise `forceReply` holds the JSON text and the same builder is returned |
| SendService.SendVoiceService.Assemble | send_service.go:1745-1795 | a new GET request to `/sendVoice` whose query is what the `setParam` calls of `Plan` leave behind, every other field empty |
| SendService.SendVoiceService.Do | send_service.go:1744-1812 | GET `/sendVoice`; `chat_id` always present with the rendered field; `duration`, `message_thread_id`, `parse_mode`, `caption_entities`, `caption`, `disable_notification`, `protect_content`, `reply_to_message_id`, `allow_sending_without_reply` each present exactly when its field is set; `voice` holds the last of `voice`, `voiceString` (the order `Do` writes them) that is set, and is absent when none is; `reply_markup` holds the last of `inlineKeyboardMarkup`, `replyKeyboardMarkup`, `replyKeyboardRemove`, `forceReply` (the order `Do` writes them) that is set, and is absent when none is; no other key; `caption` only from the `caption` field, which no setter writes and the constructor leaves unset; the result and error are those of `callAPI`, with nil data on an error |
| SendService.SendVideoNoteService.constructor | client.go:235-237 | the builder refers to its client and has every field unset |
| SendService.SendVideoNoteService.ChatID | send_service.go:1839-1842 | stores the argument in `chatID` and no other field; returns the same builder |
| SendService.SendVideoNoteService.MessageThreadID | send_service.go:1844-1847 | stores the argument in `messageThreadID` and no other field; returns the same builder |
| SendService.SendVideoNoteService.Animation | send_service.go:1849-1852 | stores the argument in `videoNote` and no other field; returns the same builder |
| SendService.SendVideoNoteService.AnimationString | send_service.go:1854-1857 | stores the argument in `videoNoteString` and no other field; returns the same builder |
| SendService.SendVideoNoteService.Duration | send_service.go:1859-1862 | stores the argument in `duration` and no other field; returns the same builder |
| SendService.SendVideoNoteService.Length | send_service.go:1864-1867 | stores the argument in `length` and no other field; returns the same builder |
| SendService.SendVideoNoteService.Thumbnail | send_service.go:1869-1872 | stores the argument in `thumbnail` and no other field; returns the same builder |
| SendService.SendVideoNoteService.ThumbnailString | send_service.go:1874-1877 | stores the argument in `thumbnailString` and no other field; returns the same builder |
| SendService.SendVideoNoteService.DisableNotification | send_service.go:1879-1882 | stores the argument in `disableNotification` and no other field; returns the same builder |
| SendService.SendVideoNoteService.ProtectContent | send_service.go:1884-1887 | stores the argument in `protectContent` and no other field; returns the same builder |
| SendService.SendVideoNoteService.ReplyToMessageID | send_service.go:1889-1892 | stores the argument in `replyToMessageID` and no other field; returns the same builder |
| SendService.SendVideoNoteService.AllowSendingWithoutReply | send_service.go:1894-1897 | stores the argument in `allowSendingWithoutReply` and no other field; returns the same builder |
| SendService.SendVideoNoteService.InlineKeyboardMarkup | send_service.go:1899-1909 | a failed marshal gives nil and leaves `inlineKeyboardMarkup` alone; otherwise `inlineKeyboardMarkup` holds the JSON text and the same builder is returned |
| SendService.SendVideoNoteService.ReplyKeyboardMarkup | send_service.go:1911-1921 | a failed marshal gives nil and leaves `replyKeyboardMarkup` alone; otherwise `replyKeyboardMarkup` holds the JSON text and the same builder is returned |
| SendService.SendVideoNoteService.ReplyKeyboardRemove | send_service.go:1923-1933 | a failed marshal gives nil and leaves `replyKeyboardRemove` alone; otherwise `replyKeyboardRemove` holds the JSON text and the same builder is returned |
| SendService.SendVideoNoteService.ForceReply | send_service.go:1935-1945 | a failed marshal gives nil and leaves `forceReply` alone; otherwise `forceReply` holds the JSON text and the same builder is returned |
| SendService.SendVideoNoteService.Assemble | send_service.go:1948-1992 | a new GET request to `/sendVideoNote` whose query is what the `setParam` calls of `Plan` leave behind, every other field empty |
| SendService.SendVideoNoteService.Do | send_service.go:1947-2009 | GET `/sendVideoNote`; `chat_id` always present with the rendered field; `duration`, `length`, `message_thread_id`, `disable_notification`, `protect_content`, `reply_to_message_id`, `allow_sending_without_reply` each present exactly when its field is set; `video_note` holds the last of `videoNote`, `videoNoteString` (the order `Do` writes them) that is set, and is absent when none is; `reply_markup` holds the last of `inlineKeyboardMarkup`, `replyKeyboardMarkup`, `replyKeyboardRemove`, `forceReply` (the order `Do` writes them) that is set, and is absent when none is; no other key; the result and error are those of `callAPI`, with nil data on an error |
| SendService.SendMediaGroupService.constructor | client.go:238-240 | the builder refers to its client and has every field unset |
| SendService.SendMediaGroupService.ChatID | send_service.go:2030-2033 | stores the argument in `chatID` and no other field; returns the same builder |
| SendService.SendMediaGroupService.MessageThreadID | send_service.go:2035-2038 | stores the argument in `messageThreadID` and no other field; returns the same builder |
| SendService.SendMediaGroupService.DisableNotification | send_service.go:2040-2043 | stores the argument in `disableNotification` and no other field; returns the same builder |
| SendService.SendMediaGroupService.ProtectContent | send_service.go:2045-2048 | stores the argument in `protectContent` and no other field; returns the same builder |
| SendService.SendMediaGroupService.ReplyToMessageID | send_service.go:2050-2053 | stores the argument in `replyToMessageID` and no other field; returns the same builder |
| SendService.SendMediaGroupService.AllowSendingWithoutReply | send_service.go:2055-2058 | stores the argument in `allowSendingWithoutReply` and no other field; returns the same builder |
| SendService.SendMediaGroupService.InputMediaAudio | send_service.go:2060-2070 | a failed marshal gives nil and leaves `inputMediaAudio` alone; otherwise `inputMediaAudio` holds the JSON text and the same builder is returned |
| SendService.SendMediaGroupService.InputMediaDocument | send_service.go:2072-2082 | a failed marshal gives nil and leaves `inputMediaDocument` alone; otherwise `inputMediaDocument` holds the JSON text and the same builder is returned |
| SendService.SendMediaGroupService.InputMediaPhoto | send_service.go:2084-2094 | a failed marshal gives nil and leaves `inputMediaPhoto` alone; otherwise `inputMediaPhoto` holds the JSON text and the same builder is returned |
| SendService.SendMediaGroupService.MediaInputMediaVideo | send_service.go:2096-2106 | a failed marshal gives nil and leaves `inputMediaVideo` alone; otherwise `inputMediaVideo` holds the JSON text and the same builder is returned |
| SendService.SendMediaGroupService.Assemble | send_service.go:2109-2141 | a new GET request to `/sendMediaGroup` whose query is what the `setParam` calls of `Plan` leave behind, every other field empty |
| SendService.SendMediaGroupService.Do | send_service.go:2108-2158 | GET `/sendMediaGroup`; `chat_id` always present with the rendered field; `message_thread_id`, `disable_notification`, `protect_content`, `reply_to_message_id`, `allow_sending_without_reply` each present exactly when its field is set; `media` holds the last of `inputMediaAudio`, `inputMediaDocument`, `inputMediaPhoto`, `inputMediaVideo` (the order `Do` writes them) that is set, and is absent when none is; no other key; the result and error are those of `callAPI`, with nil data on an error |
| SendService.SendLocationService.constructor | client.go:241-243 | the builder refers to its client and has every field unset |
| SendService.SendLocationService.ChatID | send_service.go:2185-2188 | stores the argument in `chatID` and no other field; returns the same builder |
| SendService.SendLocationService.MessageThreadID | send_service.go:2190-2193 | stores the argument in `messageThreadID` and no other field; returns the same builder |
| SendService.SendLocationService.Latitude | send_service.go:2195-2198 | stores the argument in `latitude` and no other field; returns the same builder |
| SendService.SendLocationService.Longitude | send_service.go:2200-2203 | stores the argument in `longitude` and no other field; returns the same builder |
| SendService.SendLocationService.HorizontalAccuracy | send_service.go:2205-2208 | stores the argument in `horizontalAccuracy` and no other field; returns the same builder |
| SendService.SendLocationService.LivePeriod | send_service.go:2210-2213 | stores the argument in `livePeriod` and no other field; returns the same builder |
| SendService.SendLocationService.Heading | send_service.go:2215-2218 | stores the argument in `heading` and no other field; returns the same builder |
| SendService.SendLocationService.ProximityAlertRadius | send_service.go:2220-2223 | stores the argument in `proximityAlertRadius` and no other field; returns the same builder |
| SendService.SendLocationService.DisableNotification | send_service.go:2225-2228 | stores the argument in `disableNotification` and no other field; returns the same builder |
| SendService.SendLocationService.ProtectContent | send_service.go:2230-2233 | stores the argument in `protectContent` and no other field; returns the same builder |
| SendService.SendLocationService.ReplyToMessageID | send_service.go:2235-2238 | stores the argument in `replyToMessageID` and no other field; returns the same builder |
| SendService.SendLocationService.AllowSendingWithoutReply | send_service.go:2240-2243 | stores the argument in `allowSendingWithoutReply` and no other field; returns the same builder |
| SendService.SendLocationService.InlineKeyboardMarkup | send_service.go:2245-2255 | a failed marshal gives nil and leaves `inlineKeyboardMarkup` alone; otherwise `inlineKeyboardMarkup` holds the JSON text and the same builder is returned |
| SendService.SendLocationService.ReplyKeyboardMarkup | send_service.go:2257-2267 | a failed marshal gives nil and leaves `replyKeyboardMarkup` alone; otherwise `replyKeyboardMarkup` holds the JSON text and the same builder is returned |
| SendService.SendLocationService.ReplyKeyboardRemove | send_service.go:2269-2279 | a failed marshal gives nil and leaves `replyKeyboardRemove` alone; otherwise `replyKeyboardRemove` holds the JSON text and the same builder is returned |
| SendService.SendLocationService.ForceReply | send_service.go:2281-2291 | a failed marshal gives nil and leaves `forceReply` alone; otherwise `forceReply` holds the JSON text and the same builder is returned |
| SendService.SendLocationService.Assemble | send_service.go:2294-2340 | a new GET request to `/sendLocation` whose query is what the `setParam` calls of `Plan` leave behind, every other field empty |
| SendService.SendLocationService.Do | send_service.go:2293-2357 | GET `/sendLocation`; `chat_id`, `latitude`, `longitude` always present with the rendered field; `horizontal_accuracy`, `live_period`, `heading`, `proximity_alert_radius`, `message_thread_id`, `disable_notification`, `protect_content`, `reply_to_message_id`, `allow_sending_without_reply` each present exactly when its field is set; `reply_markup` holds the last of `inlineKeyboardMarkup`, `replyKeyboardMarkup`, `replyKeyboardRemove`, `forceReply` (the order `Do` writes them) that is set, and is absent when none is; no other key; the result and error are those of `callAPI`, with nil data on an error |
| SendService.SendVenueService.constructor | client.go:244-246 | the builder refers to its client and has every field unset |
| SendService.SendVenueService.ChatID | send_service.go:2386-2389 | stores the argument in `chatID` and no other field; returns the same builder |
| SendService.SendVenueService.MessageThreadID | send_service.go:2391-2394 | stores the argument in `messageThreadID` and no other field; returns the same builder |
| SendService.SendVenueService.Latitude | send_service.go:2396-2399 | stores the argument in `latitude` and no other field; returns the same builder |
| SendService.SendVenueService.Longitude | send_service.go:2401-2404 | stores the argument in `longitude` and no other field; returns the same builder |
| SendService.SendVenueService.Title | send_service.go:2406-2409 | stores the argument in `title` and no other field; returns the same builder |
| SendService.SendVenueService.Address | send_service.go:2411-2414 | stores the argument in `address` and no other field; returns the same builder |
| SendService.SendVenueService.FoursquareID | send_service.go:2416-2419 | stores the argument in `foursquareID` and no other field; returns the same builder |
| SendService.SendVenueService.FoursquareType | send_service.go:2421-2424 | stores the argument in `foursquareType` and no other field; returns the same builder |
| SendService.SendVenueService.GooglePlaceID | send_service.go:2426-2429 | stores the argument in `googlePlaceID` and no other field; returns the same builder |
| SendService.SendVenueService.GooglePlaceType | send_service.go:2431-2434 | stores the argument in `googlePlaceType` and no other field; returns the same builder |
| SendService.SendVenueService.DisableNotification | send_service.go:2436-2439 | stores the argument in `disableNotification` and no other field; returns the same builder |
| SendService.SendVenueService.ProtectContent | send_service.go:2441-2444 | stores the argument in `protectContent` and no other field; returns the same builder |
| SendService.SendVenueService.ReplyToMessageID | send_service.go:2446-2449 | stores the argument in `replyToMessageID` and no other field; returns the same builder |
| SendService.SendVenueService.AllowSendingWithoutReply | send_service.go:2451-2454 | stores the argument in `allowSendingWithoutReply` and no other field; returns the same builder |
| SendService.SendVenueService.InlineKeyboardMarkup | send_service.go:2456-2466 | a failed marshal gives nil and leaves `inlineKeyboardMarkup` alone; otherwise `inlineKeyboardMarkup` holds the JSON text and the same builder is returned |
| SendService.SendVenueService.ReplyKeyboardMarkup | send_service.go:2468-2478 | a failed marshal gives nil and leaves `replyKeyboardMarkup` alone; otherwise `replyKeyboardMarkup` holds the JSON text and the same builder is returned |
| SendService.SendVenueService.ReplyKeyboardRemove | send_service.go:2480-2490 | a failed marshal gives nil and leaves `replyKeyboardRemove` alone; otherwise `replyKeyboardRemove` holds the JSON text and the same builder is returned |
| SendService.SendVenueService.ForceReply | send_service.go:2492-2502 | a failed marshal gives nil and leaves `forceReply` alone; otherwise `forceReply` holds the JSON text and the same builder is returned |
| SendService.SendVenueService.Assemble | send_service.go:2505-2553 | a new GET request to `/sendVenue` whose query is what the `setParam` calls of `Plan` leave behind, every other field empty |
| SendService.SendVenueService.Do | send_service.go:2504-2570 | GET `/sendVenue`; `chat_id`, `latitude`, `longitude`, `title`, `address` always present with the rendered field; `foursquare_id`, `foursquare_type`, `google_place_id`, `google_place_type`, `message_thread_id`, `disable_notification`, `protect_content`, `reply_to_message_id`, `allow_sending_without_reply` each present exactly when its field is set; `reply_markup` holds the last of `inlineKeyboardMarkup`, `replyKeyboardMarkup`, `replyKeyboardRemove`, `forceReply` (the order `Do` writes them) that is set, and is absent when none is; no other key; the result and error are those of `callAPI`, with nil data on an error |
| SendService.SendContactService.constructor | client.go:247-249 | the builder refers to its client and has every field unset |
| SendService.SendContactService.ChatID | send_service.go:2595-2598 | stores the argument in `chatID` and no other field; returns the same builder |
| SendService.SendContactService.MessageThreadID | send_service.go:2600-2603 | stores the argument in `messageThreadID` and no other field; returns the same builder |
| SendService.SendContactService.PhoneNumber | send_service.go:2605-2608 | stores the argument in `phoneNumber` and no other field; returns the same builder |
| SendService.SendContactService.FirstName | send_service.go:2610-2613 | stores the argument in `firstName` and no other field; returns the same builder |
| SendService.SendContactService.LastName | send_service.go:2615-2618 | stores the argument in `lastName` and no other field; returns the same builder |
| SendService.SendContactService.Vcard | send_service.go:2620-2623 | stores the argument in `vcard` and no other field; returns the same builder |
| SendService.SendContactService.DisableNotification | send_service.go:2625-2628 | stores the argument in `disableNotification` and no other field; returns the same builder |
| SendService.SendContactService.ProtectContent | send_service.go:2630-2633 | stores the argument in `protectContent` and no other field; returns the same builder |
| SendService.SendContactService.ReplyToMessageID | send_service.go:2635-2638 | stores the argument in `replyToMessageID` and no other field; returns the same builder |
| SendService.SendContactService.AllowSendingWithoutReply | send_service.go:2640-2643 | stores the argument in `allowSendingWithoutReply` and no other field; returns the same builder |
| SendService.SendContactService.InlineKeyboardMarkup | send_service.go:2645-2655 | a failed marshal gives nil and leaves `inlineKeyboardMarkup` alone; otherwise `inlineKeyboardMarkup` holds the JSON text and the same builder is returned |
| SendService.SendContactService.ReplyKeyboardMarkup | send_service.go:2657-2667 | a failed marshal gives nil and leaves `replyKeyboardMarkup` alone; otherwise `replyKeyboardMarkup` holds the JSON text and the same builder is returned |
| SendService.SendContactService.ReplyKeyboardRemove | send_service.go:2669-2679 | a failed marshal gives nil and leaves `replyKeyboardRemove` alone; otherwise `replyKeyboardRemove` holds the JSON text and the same builder is returned |
| SendService.SendContactService.ForceReply | send_service.go:2681-2691 | a failed marshal gives nil and leaves `forceReply` alone; otherwise `forceReply` holds the JSON text and the same builder is returned |
| SendService.SendContactService.Assemble | send_service.go:2694-2734 | a new GET request to `/sendContact` whose query is what the `setParam` calls of `Plan` leave behind, every other field empty |
| SendService.SendContactService.Do | send_service.go:2693-2751 | GET `/sendContact`; `chat_id`, `phone_number`, `first_name` always present with the rendered field; `last_name`, `vcard`, `message_thread_id`, `disable_notification`, `protect_content`, `reply_to_message_id`, `allow_sending_without_reply` each present exactly when its field is set; `reply_markup` holds the last of `inlineKeyboardMarkup`, `replyKeyboardMarkup`, `replyKeyboardRemove`, `forceReply` (the order `Do` writes them) that is set, and is absent when none is; no other key; the result and error are those of `callAPI`, with nil data on an error |
| SendService.SendPollService.constructor | client.go:250-252 | the builder refers to its client and has every field unset |
| SendService.SendPollService.ChatID | send_service.go:2784-2787 | stores the argument in `chatID` and no other field; returns the same builder |
| SendService.SendPollService.MessageThreadID | send_service.go:2789-2792 | stores the argument in `messageThreadID` and no other field; returns the same builder |
| SendService.SendPollService.Question | send_service.go:2794-2797 | stores the argument in `question` and no other field; returns the same builder |
| SendService.SendPollService.Options | send_service.go:2799-2809 | a failed marshal gives nil and leaves `options` alone; otherwise `options` holds the JSON text and the same builder is returned |
| SendService.SendPollService.IsAnonymous | send_service.go:2811-2814 | stores the argument in `isAnonymous` and no other field; returns the same builder |
| SendService.SendPollService.PollType | send_service.go:2816-2826 | a failed marshal gives nil and leaves `pollType` alone; otherwise `pollType` holds the JSON text and the same builder is returned |
| SendService.SendPollService.AllowsMultipleAnswers | send_service.go:2828-2831 | stores the argument in `allowsMultipleAnswers` and no other field; returns the same builder |
| SendService.SendPollService.CorrectOptionID | send_service.go:2833-2836 | stores the argument in `correctOptionID` and no other field; returns the same builder |
| SendService.SendPollService.Explanation | send_service.go:2838-2841 | stores the argument in `explanation` and no other field; returns the same builder |
| SendService.SendPollService.ExplanationParseMode | send_service.go:2843-2846 | stores the argument in `explanationParseMode` and no other field; returns the same builder |
| SendService.SendPollService.ExplanationEntities | send_service.go:2848-2858 | a failed marshal gives nil and leaves `explanationEntities` alone; otherwise `explanationEntities` holds the JSON text and the same builder is returned |
| SendService.SendPollService.OpenPeriod | send_service.go:2860-2863 | stores the argument in `openPeriod` and no other field; returns the same builder |
| SendService.SendPollService.CloseDate | send_service.go:2865-2868 | stores the argument in `closeDate` and no other field; returns the same builder |
| SendService.SendPollService.IsClosed | send_service.go:2870-2873 | stores the argument in `isClosed` and no other field; returns the same builder |
| SendService.SendPollService.DisableNotification | send_service.go:2875-2878 | stores the argument in `disableNotification` and no other field; returns the same builder |
| SendService.SendPollService.ProtectContent | send_service.go:2880-2883 | stores the argument in `protectContent` and no other field; returns the same builder |
| SendService.SendPollService.ReplyToMessageID | send_service.go:2885-2888 | stores the argument in `replyToMessageID` and no other field; returns the same builder |
| SendService.SendPollService.AllowSendingWithoutReply | send_service.go:2890-2893 | stores the argument in `allowSendingWithoutReply` and no other field; returns the same builder |
| SendService.SendPollService.InlineKeyboardMarkup | send_service.go:2895-2905 | a failed marshal gives nil and leaves `inlineKeyboardMarkup` alone; otherwise `inlineKeyboardMarkup` holds the JSON text and the same builder is returned |
| SendService.SendPollService.ReplyKeyboardMarkup | send_service.go:2907-2917 | a failed marshal gives nil and leaves `replyKeyboardMarkup` alone; otherwise `replyKeyboardMarkup` holds the JSON text and the same builder is returned |
| SendService.SendPollService.ReplyKeyboardRemove | send_service.go:2919-2929 | a failed marshal gives nil and leaves `replyKeyboardRemove` alone; otherwise `replyKeyboardRemove` holds the JSON text and the same builder is returned |
| SendService.SendPollService.ForceReply | send_service.go:2931-2941 | a failed marshal gives nil and leaves `forceReply` alone; otherwise `forceReply` holds the JSON text and the same builder is returned |
| SendService.SendPollService.Assemble | send_service.go:2944-3008 | a new GET request to `/sendPoll` whose query is what the `setParam` calls of `Plan` leave behind, every other field empty |
| SendService.SendPollService.Do | send_service.go:2943-3025 | GET `/sendPoll`; `chat_id`, `question`, `options` always present with the rendered field; `isAnonymous`, `pollType`, `allowsMultipleAnswers`, `correctOptionID`, `explanation`, `explanationParseMode`, `explanationEntities`, `openPeriod`, `closeDate`, `isClosed`, `message_thread_id`, `disable_notification`, `protect_content`, `reply_to_message_id`, `allow_sending_without_reply` each present exactly when its field is set; `reply_markup` holds the last of `inlineKeyboardMarkup`, `replyKeyboardMarkup`, `replyKeyboardRemove`, `forceReply` (the order `Do` writes them) that is set, and is absent when none is; no other key; the result and error are those of `callAPI`, with nil data on an error |
| SendService.SendDiceService.constructor | client.go:253-255 | the builder refers to its client and has every field unset |
| SendService.SendDiceService.ChatID | send_service.go:3047-3050 | stores the argument in `chatID` and no other field; returns the same builder |
| SendService.SendDiceService.MessageThreadID | send_service.go:3052-3055 | stores the argument in `messageThreadID` and no other field; returns the same builder |
| SendService.SendDiceService.Emoji | send_service.go:3057-3060 | stores the argument in `emoji` and no other field; returns the same builder |
| SendService.SendDiceService.DisableNotification | send_service.go:3062-3065 | stores the argument in `disableNotification` and no other field; returns the same builder |
| SendService.SendDiceService.ProtectContent | send_service.go:3067-3070 | stores the argument in `protectContent` and no other field; returns the same builder |
| SendService.SendDiceService.ReplyToMessageID | send_service.go:3072-3075 | stores the argument in `replyToMessageID` and no other field; returns the same builder |
| SendService.SendDiceService.AllowSendingWithoutReply | send_service.go:3077-3080 | stores the argument in `allowSendingWithoutReply` and no other field; returns the same builder |
| SendService.SendDiceService.InlineKeyboardMarkup | send_service.go:3082-3092 | a failed marshal gives nil and leaves `inlineKeyboardMarkup` alone; otherwise `inlineKeyboardMarkup` holds the JSON text and the same builder is returned |
| SendService.SendDiceService.ReplyKeyboardMarkup | send_service.go:3094-3104 | a failed marshal gives nil and leaves `replyKeyboardMarkup` alone; otherwise `replyKeyboardMarkup` holds the JSON text and the same builder is returned |
| SendService.SendDiceService.ReplyKeyboardRemove | send_service.go:3106-3116 | a failed marshal gives nil and leaves `replyKeyboardRemove` alone; otherwise `replyKeyboardRemove` holds the JSON text and the same builder is returned |
| SendService.SendDiceService.ForceReply | send_service.go:3118-3128 | a failed marshal gives nil and leaves `forceReply` alone; otherwise `forceReply` holds the JSON text and the same builder is returned |
| SendService.SendDiceService.Assemble | send_service.go:3131-3166 | a new GET request to `/sendDice` whose query is what the `setParam` calls of `Plan` leave behind, every other field empty |
| SendService.SendDiceService.Do | send_service.go:3130-3183 | GET `/sendDice`; `chat_id` always present with the rendered field; `message_thread_id`, `emoji`, `disable_notification`, `protect_content`, `reply_to_message_id`, `allow_sending_without_reply` each present exactly when its field is set; `reply_markup` holds the last of `inlineKeyboardMarkup`, `replyKeyboardMarkup`, `replyKeyboardRemove`, `forceReply` (the order `Do` writes them) that is set, and is absent when none is; no other key; the result and error are those of `callAPI`, with nil data on an error |
| SendService.SendChatActionService.constructor | client.go:256-258 | the builder refers to its client and has every field unset |
| SendService.SendChatActionService.ChatID | send_service.go:3197-3200 | stores the argument in `chatID` and no other field; returns the same builder |
| SendService.SendChatActionService.MessageThreadID | send_service.go:3202-3205 | stores the argument in `messageThreadID` and no other field; returns the same builder |
| SendService.SendChatActionService.Action | send_service.go:3207-3210 | stores the argument in `action` and no other field; returns the same builder |
| SendService.SendChatActionService.Assemble | send_service.go:3213-3222 | a new GET request to `/sendChatAction` whose query is what the `setParam` calls of `Plan` leave behind, every other field empty |
| SendService.SendChatActionService.Do | send_service.go:3212-3239 | GET `/sendChatAction`; `chat_id`, `action` always present with the rendered field; `message_thread_id` each present exactly when its field is set; no other key; the result and error are those of `callAPI`, with nil data on an error |
| UpdateMessageService.EditMessageReplyMarkupService.constructor | client.go:193-195 | the builder refers to its client and has every field unset |
| UpdateMessageService.EditMessageReplyMarkupService.ChatID | update_message_service.go:18-21 | stores the argument in `chatID` and no other field; returns the same builder |
| UpdateMessageService.EditMessageReplyMarkupService.MessageID | update_message_service.go:23-26 | stores the argument in `messageID` and no other field; returns the same builder |
| UpdateMessageService.EditMessageReplyMarkupService.InlineMessageID | update_message_service.go:28-31 | stores the argument in `inlineMessageID` and no other field; returns the same builder |
| UpdateMessageService.EditMessageReplyMarkupService.ReplyMarkup | update_message_service.go:33-43 | a failed marshal gives nil and leaves `replyMarkup` alone; otherwise `replyMarkup` holds the JSON text and the same builder is returned |
| UpdateMessageService.EditMessageReplyMarkupService.Assemble | update_message_service.go:46-62 | a new GET request to `/editMessageReplyMarkup` whose query is what the `setParam` calls of `Plan` leave behind, every other field empty |
| UpdateMessageService.EditMessageReplyMarkupService.Do | update_message_service.go:45-79 | GET `/editMessageReplyMarkup`; `chat_id`, `message_id`, `inline_message_id`, `reply_markup` each present exactly when its field is set; no other key; the result and error are those of `callAPI`, with nil data on an error |
| UpdateMessageService.EditMessageTextService.constructor | client.go:196-198 | the builder refers to its client and has every field unset |
| UpdateMessageService.EditMessageTextService.Text | update_message_service.go:98-101 | stores the argument in `text` and no other field; returns the same builder |
| UpdateMessageService.EditMessageTextService.ChatID | update_message_service.go:103-106 | stores the argument in `chatID` and no other field; returns the same builder |
| UpdateMessageService.EditMessageTextService.MessageID | update_message_service.go:108-111 | stores the argument in `messageID` and no other field; returns the same builder |
| UpdateMessageService.EditMessageTextService.InlineMessageID | update_message_service.go:113-116 | stores the argument in `inlineMessageID` and no other field; returns the same builder |
| UpdateMessageService.EditMessageTextService.ParseMode | update_message_service.go:118-121 | stores the argument in `parseMode` and no other field; returns the same builder |
| UpdateMessageService.EditMessageTextService.Entities | update_message_service.go:123-133 | a failed marshal gives nil and leaves `entities` alone; otherwise `entities` holds the JSON text and the same builder is returned |
| UpdateMessageService.EditMessageTextService.DisableWebPagePreview | update_message_service.go:135-138 | stores the argument in `disableWebPagePreview` and no other field; returns the same builder |
| UpdateMessageService.EditMessageTextService.ReplyMarkup | update_message_service.go:140-150 | a failed marshal gives nil and leaves `replyMarkup` alone; otherwise `replyMarkup` holds the JSON text and the same builder is returned |
| UpdateMessageService.EditMessageTextService.Assemble | update_message_service.go:153-179 | a new GET request to `/editMessageText` whose query is what the `setParam` calls of `Plan` leave behind, every other field empty |
| UpdateMessageService.EditMessageTextService.Do | update_message_service.go:152-197 | GET `/editMessageText`; `text` always present with the rendered field; `chat_id`, `message_id`, `inline_message_id`, `parse_mode`, `entities`, `disable_web_page_preview`, `reply_markup` each present exactly when its field is set; no other key; the result and error are those of `callAPI`, with nil data on an error |
| UpdateMessageService.DeleteMessageService.constructor | client.go:199-201 | the builder refers to its client and has every field unset |
| UpdateMessageService.DeleteMessageService.ChatID | update_message_service.go:210-213 | stores the argument in `chatID` and no other field; returns the same builder |
| UpdateMessageService.DeleteMessageService.MessageID | update_message_service.go:215-218 | stores the argument in `messageID` and no other field; returns the same builder |
| UpdateMessageService.DeleteMessageService.Assemble | update_message_service.go:221-227 | a new GET request to `/deleteMessage` whose query is what the `setParam` calls of `Plan` leave behind, every other field empty |
| UpdateMessageService.DeleteMessageService.Do | update_message_service.go:220-245 | GET `/deleteMessage`; `chat_id`, `message_id` always present with the rendered field; no other key, so the query has exactly these keys; the result and error are those of `callAPI`, with nil data on an error |
| WebhookService.SetWebhookService.constructor | client.go:202-204 | the builder refers to its client and has every field unset |
| WebhookService.SetWebhookService.URL | webhook_service.go:22-25 | stores the argument in `url` and no other field; returns the same builder |
| WebhookService.SetWebhookService.Certificate | webhook_service.go:27-37 | a failed marshal gives nil and leaves `certificate` alone; otherwise `certificate` holds the JSON text and the same builder is returned |
| WebhookService.SetWebhookService.IpAddress | webhook_service.go:39-42 | stores the argument in `ipAddress` and no other field; returns the same builder |
| WebhookService.SetWebhookService.MaxConnections | webhook_service.go:44-47 | stores the argument in `maxConnections` and no other field; returns the same builder |
| WebhookService.SetWebhookService.AllowedUpdates | webhook_service.go:49-52 | stores the argument in `allowedUpdates` and no other field; returns the same builder |
| WebhookService.SetWebhookService.DropPendingUpdates | webhook_service.go:54-57 | stores the argument in `dropPendingUpdates` and no other field; returns the same builder |
| WebhookService.SetWebhookService.SecretToken | webhook_service.go:59-62 | stores the argument in `secretToken` and no other field; returns the same builder |
| WebhookService.SetWebhookService.Assemble | webhook_service.go:65-88 | a new GET request to `/setWebhook` whose query is what the `setParam` calls of `Plan` leave behind, every other field empty |
| WebhookService.SetWebhookService.Do | webhook_service.go:64-108 | GET `/setWebhook`; `url` always present with the rendered field; `certificate`, `ip_address`, `max_connections`, `allowed_updates`, `drop_pending_updates`, `secret_token` each present exactly when its field is set; no other key; the result and error are those of `callAPI`, with nil data on an error |
| WebhookService.DeleteWebhookService.constructor | client.go:205-207 | the builder refers to its client and has every field unset |
| WebhookService.DeleteWebhookService.DropPendingUpdates | webhook_service.go:121-124 | stores the argument in `dropPendingUpdates` and no other field; returns the same builder |
| WebhookService.DeleteWebhookService.Assemble | webhook_service.go:127-134 | a new GET request to `/deleteWebhook` whose query is what the `setParam` calls of `Plan` leave behind, every other field empty |
| WebhookService.DeleteWebhookService.Do | webhook_service.go:126-154 | GET `/deleteWebhook`; `drop_pending_updates` each present exactly when its field is set; no other key; the result and error are those of `callAPI`, with nil data on an error |
| WebhookService.GetWebhookInfoService.constructor | client.go:208-210 | the builder refers to its client and has every field unset |
| WebhookService.GetWebhookInfoService.Assemble | webhook_service.go:167-170 | a new GET request to `/getWebhookInfo` whose query is what the `setParam` calls of `Plan` leave behind, every other field empty |
| WebhookService.GetWebhookInfoService.Do | webhook_service.go:166-187 | GET `/getWebhookInfo`; the query stays empty, so without options the URL is the base URL followed by the endpoint; the result and error are those of `callAPI`, with nil data on an error |
| CallbackQueryService.AnswerCallbackQueryService.constructor | client.go:190-192 | the builder refers to its client and has every field unset |
| CallbackQueryService.AnswerCallbackQueryService.CallbackQueryID | callback_query_service.go:18-21 | stores the argument in `callbackQueryID` and no other field; returns the same builder |
| CallbackQueryService.AnswerCallbackQueryService.Text | callback_query_service.go:23-26 | stores the argument in `text` and no other field; returns the same builder |
| CallbackQueryService.AnswerCallbackQueryService.ShowAlert | callback_query_service.go:28-31 | stores the argument in `showAlert` and no other field; returns the same builder |
| CallbackQueryService.AnswerCallbackQueryService.Url | callback_query_service.go:33-36 | stores the argument in `url` and no other field; returns the same builder |
| CallbackQueryService.AnswerCallbackQueryService.CacheTime | callback_query_service.go:38-41 | stores the argument in `cacheTime` and no other field; returns the same builder |
| CallbackQueryService.AnswerCallbackQueryService.Assemble | callback_query_service.go:44-61 | a new GET request to `/answerCallbackQuery` whose query is what the `setParam` calls of `Plan` leave behind, every other field empty |
| CallbackQueryService.AnswerCallbackQueryService.Do | callback_query_service.go:43-78 | GET `/answerCallbackQuery`; `callback_query_id` always present with the rendered field; `text`, `show_alert`, `url`, `cache_time` each present exactly when its field is set; no other key; the result and error are those of `callAPI`, with nil data on an error |
| AccountService.GetMeService.constructor | client.go:259-261 | the builder refers to its client and has every field unset |
| AccountService.GetMeService.Assemble | account_service.go:14-17 | a new GET request to `/getMe` whose query is what the `setParam` calls of `Plan` leave behind, every other field empty |
| AccountService.GetMeService.Do | account_service.go:13-37 | GET `/getMe`; the query stays empty, so without options the URL is the base URL followed by the endpoint; the result and error are those of `callAPI`, with nil data on an error |
| AccountService.LogOutService.constructor | client.go:262-264 | the builder refers to its client and has every field unset |
| AccountService.LogOutService.Assemble | account_service.go:49-52 | a new GET request to `/logOut` whose query is what the `setParam` calls of `Plan` leave behind, every other field empty |
| AccountService.LogOutService.Do | account_service.go:48-72 | GET `/logOut`; the query stays empty, so without options the URL is the base URL followed by the endpoint; the result and error are those of `callAPI`, with nil data on an error |
| AccountService.CloseService.constructor | client.go:265-267 | the builder refers to its client and has every field unset |
| AccountService.CloseService.Assemble | account_service.go:82-85 | a new GET request to `/close` whose query is what the `setParam` calls of `Plan` leave behind, every other field empty |
| AccountService.CloseService.Do | account_service.go:81-105 | GET `/close`; the query stays empty, so without options the URL is the base URL followed by the endpoint; the result and error are those of `callAPI`, with nil data on an error |
| AccountService.SetMyNameService.constructor | client.go:268-270 | the builder refers to its client and has every field unset |
| AccountService.SetMyNameService.Name | account_service.go:116-119 | stores the argument in `name` and no other field; returns the same builder |
| AccountService.SetMyNameService.LanguageCode | account_service.go:121-124 | stores the argument in `languageCode` and no other field; returns the same builder |
| AccountService.SetMyNameService.Assemble | account_service.go:127-137 | a new GET request to `/setMyName` whose query is what the `setParam` calls of `Plan` leave behind, every other field empty |
| AccountService.SetMyNameService.Do | account_service.go:126-157 | GET `/setMyName`; `name`, `language_code` each present exactly when its field is set; no other key; the result and error are those of `callAPI`, with nil data on an error |
| AccountService.GetMyNameService.constructor | client.go:271-273 | the builder refers to its client and has every field unset |
| AccountService.GetMyNameService.LanguageCode | account_service.go:169-172 | stores the argument in `languageCode` and no other field; returns the same builder |
| AccountService.GetMyNameService.Assemble | account_service.go:175-182 | a new GET request to `/getMyName` whose query is what the `setParam` calls of `Plan` leave behind, every other field empty |
| AccountService.GetMyNameService.Do | account_service.go:174-202 | GET `/getMyName`; `language_code` each present exactly when its field is set; no other key; the result and error are those of `callAPI`, with nil data on an error |
| AccountService.SetMyDescriptionService.constructor | client.go:274-276 | the builder refers to its client and has every field unset |
| AccountService.SetMyDescriptionService.Description | account_service.go:215-218 | stores the argument in `description` and no other field; returns the same builder |
| AccountService.SetMyDescriptionService.LanguageCode | account_service.go:220-223 | stores the argument in `languageCode` and no other field; returns the same builder |
| AccountService.SetMyDescriptionService.Assemble | account_service.go:226-236 | a new GET request to `/setMyDescription` whose query is what the `setParam` calls of `Plan` leave behind, every other field empty |
| AccountService.SetMyDescriptionService.Do | account_service.go:225-256 | GET `/setMyDescription`; `description`, `language_code` each present exactly when its field is set; no other key; the result and error are those of `callAPI`, with nil data on an error |
| AccountService.GetMyDescriptionService.constructor | client.go:277-279 | the builder refers to its client and has every field unset |
| AccountService.GetMyDescriptionService.LanguageCode | account_service.go:268-271 | stores the argument in `languageCode` and no other field; returns the same builder |
| AccountService.GetMyDescriptionService.Assemble | account_service.go:274-281 | a new GET request to `/getMyDescription` whose query is what the `setParam` calls of `Plan` leave behind, every other field empty |
| AccountService.GetMyDescriptionService.Do | account_service.go:273-301 | GET `/getMyDescription`; `language_code` each present exactly when its field is set; no other key; the result and error are those of `callAPI`, with nil data on an error |
| AccountService.SetMyShortDescriptionService.constructor | client.go:280-282 | the builder refers to its client and has every field unset |
| AccountService.SetMyShortDescriptionService.ShortDescription | account_service.go:314-317 | stores the argument in `shortDescription` and no other field; returns the same builder |
| AccountService.SetMyShortDescriptionService.LanguageCode | account_service.go:319-322 | stores the argument in `languageCode` and no other field; returns the same builder |
| AccountService.SetMyShortDescriptionService.Assemble | account_service.go:325-335 | a new GET request to `/setMyShortDescription` whose query is what the `setParam` calls of `Plan` leave behind, every other field empty |
| AccountService.SetMyShortDescriptionService.Do | account_service.go:324-355 | GET `/setMyShortDescription`; `short_description`, `language_code` each present exactly when its field is set; no other key; the result and error are those of `callAPI`, with nil data on an error |
| AccountService.GetMyShortDescriptionService.constructor | client.go:283-285 | the builder refers to its client and has every field unset |
| AccountService.GetMyShortDescriptionService.LanguageCode | account_service.go:367-370 | stores the argument in `languageCode` and no other field; returns the same builder |
| AccountService.GetMyShortDescriptionService.Assemble | account_service.go:373-380 | a new GET request to `/getMyShortDescription` whose query is what the `setParam` calls of `Plan` leave behind, every other field empty |
| AccountService.GetMyShortDescriptionService.Do | account_service.go:372-400 | GET `/getMyShortDescription`; `language_code` each present exactly when its field is set; no other key; the result and error are those of `callAPI`, with nil data on an error |
| UserService.GetUserProfilePhotosService.constructor | client.go:289-291 | the builder refers to its client and has every field unset |
| UserService.GetUserProfilePhotosService.ChatID | user_service.go:16-19 | stores the argument in `chatID` and no other field; returns the same builder |
| UserService.GetUserProfilePhotosService.Offset | user_service.go:21-24 | stores the argument in `offset` and no other field; returns the same builder |
| UserService.GetUserProfilePhotosService.Limit | user_service.go:26-29 | stores the argument in `limit` and no other field; returns the same builder |
| UserService.GetUserProfilePhotosService.Assemble | user_service.go:32-43 | a new GET request to `/getUserProfilePhotos` whose query is what the `setParam` calls of `Plan` leave behind, every other field empty |
| UserService.GetUserProfilePhotosService.Do | user_service.go:31-60 | GET `/getUserProfilePhotos`; `chat_id` always present with the rendered field; `offset`, `limit` each present exactly when its field is set; no other key; the result and error are those of `callAPI`, with nil data on an error |
| FileService.GetFileService.constructor | client.go:286-288 | the builder refers to its client and has every field unset |
| FileService.GetFileService.FleID | file_service.go:14-17 | stores the argument in `fileID` and no other field; returns the same builder |
| FileService.GetFileService.Assemble | file_service.go:20-25 | a new GET request to `/getFile` whose query is what the `setParam` calls of `Plan` leave behind, every other field empty |
| FileService.GetFileService.Do | file_service.go:19-42 | GET `/getFile`; `file_id` always present with the rendered field; no other key, so the query has exactly these keys; the result and error are those of `callAPI`, with nil data on an error |

## Left out

- HTTP transport (`http.NewRequest`, `HTTPClient.Do`, `io.ReadAll`, `Body.Close`), and with it the context. These are I/O. The client's `transport` field stands for them and returns an `Exchange`.
- JSON: `jsoniter.Marshal` in the setters and `json.MarshalIndent` in `setFormParams` are foreign library calls. The marshalled text is a parameter of the setter, `None` when marshalling fails. `json.Unmarshal` of an error body is the client's `decodeError` field.
- Decoding of results. `Do` returns the raw data that `json.Unmarshal` or `common.ToJSONList` would decode. A result that fails to decode makes Go's `Do` return nil and the decoding error (for example webhook_service.go:102-105); the model's `Do` returns the raw data with no error. `ToJSONList` is not part of this model, and neither is type.go, which holds only the result records.
- The reflection branch of `setParam` (client.go:139-144), which JSON-encodes slice values. It needs reflection and JSON, and no builder passes a slice.
- Float formatting. A float64 parameter is carried as the text `%v` prints for it, because shortest round-trip float printing is outside the model.
- Parameter maps hold one value per key, because `setParam` and `setFormParam` only ever use `Set`.
- `Client.debug` and `Logger`, `NewProxyClient` (proxy and TLS setup), and the unused `SecretKey`, `TimeOffset`, `recvWindow` and `secType`. They do not influence the request or the outcome.
- `Client.GetMe` (client.go:69-71) builds the same `GetMeService` as `NewGetMeService`. Only the builder is modelled.
- Dereferencing an unset required field panics in Go (for example send_service.go:140). Each `Do` instead requires its required fields to be set.
- update_message_service.go uses package `common` without importing it (update_message_service.go:3-8, update_message_service.go:68), so as written it does not compile. The model follows the evident intent: the same `Do` shape as every other builder.
- Each `Do` is modelled in three parts. `Plan` lists its writes, `Assemble` performs every one of them through `SetParamIfSet`, and `Do` sends. `SetParamIfSet` is the `if field != nil` guard around `setParam`. A required field is passed to it as set.
- `SendPollService.PollType` takes a `PollType`, whose declaration is not part of this model. Like every marshalling setter, the model takes the marshalled text as its argument.
