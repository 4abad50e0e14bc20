/** The message-sending builders (send_service.go). */
module SendService {
  import opened Values
  import opened Common
  import opened Requests
  import opened Clients

  /** `SendMessageService`: a GET request to `/sendMessage`. */
  class SendMessageService {
    const c: Client
    var chatID: Option<int64>
    var messageThreadID: Option<int64>
    var text: Option<string>
    var parseMode: Option<string>
    var entities: Option<string>
    var disableWebPagePreview: Option<bool>
    var disableNotification: Option<bool>
    var protectContent: Option<bool>
    var replyToMessageID: Option<int64>
    var allowSendingWithoutReply: Option<bool>
    var inlineKeyboardMarkup: Option<string>
    var replyKeyboardMarkup: Option<string>
    var replyKeyboardRemove: Option<string>
    var forceReply: Option<string>

    /** `NewSendMessageService`: every field starts out unset. */
    constructor (c: Client)
      ensures this.c == c
      ensures chatID == None && messageThreadID == None && text == None
      ensures parseMode == None && entities == None && disableWebPagePreview == None
      ensures disableNotification == None && protectContent == None && replyToMessageID == None
      ensures allowSendingWithoutReply == None && inlineKeyboardMarkup == None && replyKeyboardMarkup == None
      ensures replyKeyboardRemove == None && forceReply == None
    {
      this.c := c;
      chatID := None;
      messageThreadID := None;
      text := None;
      parseMode := None;
      entities := None;
      disableWebPagePreview := None;
      disableNotification := None;
      protectContent := None;
      replyToMessageID := None;
      allowSendingWithoutReply := None;
      inlineKeyboardMarkup := None;
      replyKeyboardMarkup := None;
      replyKeyboardRemove := None;
      forceReply := None;
    }

    /** `ChatID`: stores its argument in `chatID`. */
    method ChatID(chatID: int64) returns (t: SendMessageService)
      modifies this`chatID
      ensures this.chatID == Some(chatID) && t == this
    {
      this.chatID := Some(chatID);
      t := this;
    }

    /** `MessageThreadID`: stores its argument in `messageThreadID`. */
    method MessageThreadID(messageThreadID: int64) returns (t: SendMessageService)
      modifies this`messageThreadID
      ensures this.messageThreadID == Some(messageThreadID) && t == this
    {
      this.messageThreadID := Some(messageThreadID);
      t := this;
    }

    /** `Text`: stores its argument in `text`. */
    method Text(text: string) returns (t: SendMessageService)
      modifies this`text
      ensures this.text == Some(text) && t == this
    {
      this.text := Some(text);
      t := this;
    }

    /** `ParseMode`: stores its argument in `parseMode`. */
    method ParseMode(parseMode: string) returns (t: SendMessageService)
      modifies this`parseMode
      ensures this.parseMode == Some(parseMode) && t == this
    {
      this.parseMode := Some(parseMode);
      t := this;
    }

    /** `Entities`: stores the JSON text of its argument in `entities`. `marshalled` is what
        `jsoniter.Marshal` makes of the argument, `None` when marshalling fails; then
        nothing changes and the result is nil. */
    method Entities(marshalled: Option<string>) returns (t: SendMessageService?)
      modifies this`entities
      ensures marshalled.None? ==> t == null && entities == old(entities)
      ensures marshalled.Some? ==> t == this && entities == marshalled
    {
      if marshalled.None? {
        return null;
      }
      entities := marshalled;
      t := this;
    }

    /** `DisableWebPagePreview`: stores its argument in `disableWebPagePreview`. */
    method DisableWebPagePreview(disableWebPagePreview: bool) returns (t: SendMessageService)
      modifies this`disableWebPagePreview
      ensures this.disableWebPagePreview == Some(disableWebPagePreview) && t == this
    {
      this.disableWebPagePreview := Some(disableWebPagePreview);
      t := this;
    }

    /** `DisableNotification`: stores its argument in `disableNotification`. */
    method DisableNotification(disableNotification: bool) returns (t: SendMessageService)
      modifies this`disableNotification
      ensures this.disableNotification == Some(disableNotification) && t == this
    {
      this.disableNotification := Some(disableNotification);
      t := this;
    }

    /** `ProtectContent`: stores its argument in `protectContent`. */
    method ProtectContent(protectContent: bool) returns (t: SendMessageService)
      modifies this`protectContent
      ensures this.protectContent == Some(protectContent) && t == this
    {
      this.protectContent := Some(protectContent);
      t := this;
    }

    /** `ReplyToMessageID`: stores its argument in `replyToMessageID`. */
    method ReplyToMessageID(replyToMessageID: int64) returns (t: SendMessageService)
      modifies this`replyToMessageID
      ensures this.replyToMessageID == Some(replyToMessageID) && t == this
    {
      this.replyToMessageID := Some(replyToMessageID);
      t := this;
    }

    /** `AllowSendingWithoutReply`: stores its argument in `allowSendingWithoutReply`. */
    method AllowSendingWithoutReply(allowSendingWithoutReply: bool) returns (t: SendMessageService)
      modifies this`allowSendingWithoutReply
      ensures this.allowSendingWithoutReply == Some(allowSendingWithoutReply) && t == this
    {
      this.allowSendingWithoutReply := Some(allowSendingWithoutReply);
      t := this;
    }

    /** `InlineKeyboardMarkup`: stores the JSON text of its argument in `inlineKeyboardMarkup`. `marshalled` is what
        `jsoniter.Marshal` makes of the argument, `None` when marshalling fails; then
        nothing changes and the result is nil. */
    method InlineKeyboardMarkup(marshalled: Option<string>) returns (t: SendMessageService?)
      modifies this`inlineKeyboardMarkup
      ensures marshalled.None? ==> t == null && inlineKeyboardMarkup == old(inlineKeyboardMarkup)
      ensures marshalled.Some? ==> t == this && inlineKeyboardMarkup == marshalled
    {
      if marshalled.None? {
        return null;
      }
      inlineKeyboardMarkup := marshalled;
      t := this;
    }

    /** `ReplyKeyboardMarkup`: stores the JSON text of its argument in `replyKeyboardMarkup`. `marshalled` is what
        `jsoniter.Marshal` makes of the argument, `None` when marshalling fails; then
        nothing changes and the result is nil. */
    method ReplyKeyboardMarkup(marshalled: Option<string>) returns (t: SendMessageService?)
      modifies this`replyKeyboardMarkup
      ensures marshalled.None? ==> t == null && replyKeyboardMarkup == old(replyKeyboardMarkup)
      ensures marshalled.Some? ==> t == this && replyKeyboardMarkup == marshalled
    {
      if marshalled.None? {
        return null;
      }
      replyKeyboardMarkup := marshalled;
      t := this;
    }

    /** `ReplyKeyboardRemove`: stores the JSON text of its argument in `replyKeyboardRemove`. `marshalled` is what
        `jsoniter.Marshal` makes of the argument, `None` when marshalling fails; then
        nothing changes and the result is nil. */
    method ReplyKeyboardRemove(marshalled: Option<string>) returns (t: SendMessageService?)
      modifies this`replyKeyboardRemove
      ensures marshalled.None? ==> t == null && replyKeyboardRemove == old(replyKeyboardRemove)
      ensures marshalled.Some? ==> t == this && replyKeyboardRemove == marshalled
    {
      if marshalled.None? {
        return null;
      }
      replyKeyboardRemove := marshalled;
      t := this;
    }

    /** `ForceReply`: stores the JSON text of its argument in `forceReply`. `marshalled` is what
        `jsoniter.Marshal` makes of the argument, `None` when marshalling fails; then
        nothing changes and the result is nil. */
    method ForceReply(marshalled: Option<string>) returns (t: SendMessageService?)
      modifies this`forceReply
      ensures marshalled.None? ==> t == null && forceReply == old(forceReply)
      ensures marshalled.Some? ==> t == this && forceReply == marshalled
    {
      if marshalled.None? {
        return null;
      }
      forceReply := marshalled;
      t := this;
    }

    /** The `setParam` calls `Do` makes, in order; a call that is skipped because its
        field is unset has value `None`. */
    ghost function Plan(): Writes
      reads this
    {
      var w1 := Then(NoWrites, "chat_id", IntOpt(chatID));
      var w2 := Then(w1, "text", StrOpt(text));
      var w3 := Then(w2, "message_thread_id", IntOpt(messageThreadID));
      var w4 := Then(w3, "parse_mode", StrOpt(parseMode));
      var w5 := Then(w4, "entities", StrOpt(entities));
      var w6 := Then(w5, "disable_web_page_preview", BoolOpt(disableWebPagePreview));
      var w7 := Then(w6, "disable_notification", BoolOpt(disableNotification));
      var w8 := Then(w7, "protect_content", BoolOpt(protectContent));
      var w9 := Then(w8, "reply_to_message_id", IntOpt(replyToMessageID));
      var w10 := Then(w9, "allow_sending_without_reply", BoolOpt(allowSendingWithoutReply));
      var w11 := Then(w10, "reply_markup", StrOpt(inlineKeyboardMarkup));
      var w12 := Then(w11, "reply_markup", StrOpt(replyKeyboardMarkup));
      var w13 := Then(w12, "reply_markup", StrOpt(replyKeyboardRemove));
      var w14 := Then(w13, "reply_markup", StrOpt(forceReply));
      w14
    }

    /** The value the calls leave at `chat_id`. */
    lemma PlanChatID()
      ensures HoldsIfSet(OrEmpty(Written(Plan())), "chat_id", IntOpt(chatID))
    {
      var w0 := NoWrites;
      var w1 := Then(w0, "chat_id", IntOpt(chatID));
      var w2 := Then(w1, "text", StrOpt(text));
      var w3 := Then(w2, "message_thread_id", IntOpt(messageThreadID));
      var w4 := Then(w3, "parse_mode", StrOpt(parseMode));
      var w5 := Then(w4, "entities", StrOpt(entities));
      var w6 := Then(w5, "disable_web_page_preview", BoolOpt(disableWebPagePreview));
      var w7 := Then(w6, "disable_notification", BoolOpt(disableNotification));
      var w8 := Then(w7, "protect_content", BoolOpt(protectContent));
      var w9 := Then(w8, "reply_to_message_id", IntOpt(replyToMessageID));
      var w10 := Then(w9, "allow_sending_without_reply", BoolOpt(allowSendingWithoutReply));
      var w11 := Then(w10, "reply_markup", StrOpt(inlineKeyboardMarkup));
      var w12 := Then(w11, "reply_markup", StrOpt(replyKeyboardMarkup));
      var w13 := Then(w12, "reply_markup", StrOpt(replyKeyboardRemove));
      var w14 := Then(w13, "reply_markup", StrOpt(forceReply));
      LastSetOther(w1, "text", StrOpt(text), "chat_id");
      LastSetOther(w2, "message_thread_id", IntOpt(messageThreadID), "chat_id");
      LastSetOther(w3, "parse_mode", StrOpt(parseMode), "chat_id");
      LastSetOther(w4, "entities", StrOpt(entities), "chat_id");
      LastSetOther(w5, "disable_web_page_preview", BoolOpt(disableWebPagePreview), "chat_id");
      LastSetOther(w6, "disable_notification", BoolOpt(disableNotification), "chat_id");
      LastSetOther(w7, "protect_content", BoolOpt(protectContent), "chat_id");
      LastSetOther(w8, "reply_to_message_id", IntOpt(replyToMessageID), "chat_id");
      LastSetOther(w9, "allow_sending_without_reply", BoolOpt(allowSendingWithoutReply), "chat_id");
      LastSetOther(w10, "reply_markup", StrOpt(inlineKeyboardMarkup), "chat_id");
      LastSetOther(w11, "reply_markup", StrOpt(replyKeyboardMarkup), "chat_id");
      LastSetOther(w12, "reply_markup", StrOpt(replyKeyboardRemove), "chat_id");
      LastSetOther(w13, "reply_markup", StrOpt(forceReply), "chat_id");
      WrittenLastSet(w14, "chat_id");
    }

    /** The value the calls leave at `text`. */
    lemma PlanText()
      ensures HoldsIfSet(OrEmpty(Written(Plan())), "text", StrOpt(text))
    {
      var w0 := NoWrites;
      var w1 := Then(w0, "chat_id", IntOpt(chatID));
      var w2 := Then(w1, "text", StrOpt(text));
      var w3 := Then(w2, "message_thread_id", IntOpt(messageThreadID));
      var w4 := Then(w3, "parse_mode", StrOpt(parseMode));
      var w5 := Then(w4, "entities", StrOpt(entities));
      var w6 := Then(w5, "disable_web_page_preview", BoolOpt(disableWebPagePreview));
      var w7 := Then(w6, "disable_notification", BoolOpt(disableNotification));
      var w8 := Then(w7, "protect_content", BoolOpt(protectContent));
      var w9 := Then(w8, "reply_to_message_id", IntOpt(replyToMessageID));
      var w10 := Then(w9, "allow_sending_without_reply", BoolOpt(allowSendingWithoutReply));
      var w11 := Then(w10, "reply_markup", StrOpt(inlineKeyboardMarkup));
      var w12 := Then(w11, "reply_markup", StrOpt(replyKeyboardMarkup));
      var w13 := Then(w12, "reply_markup", StrOpt(replyKeyboardRemove));
      var w14 := Then(w13, "reply_markup", StrOpt(forceReply));
      LastSetOther(w0, "chat_id", IntOpt(chatID), "text");
      LastSetOther(w2, "message_thread_id", IntOpt(messageThreadID), "text");
      LastSetOther(w3, "parse_mode", StrOpt(parseMode), "text");
      LastSetOther(w4, "entities", StrOpt(entities), "text");
      LastSetOther(w5, "disable_web_page_preview", BoolOpt(disableWebPagePreview), "text");
      LastSetOther(w6, "disable_notification", BoolOpt(disableNotification), "text");
      LastSetOther(w7, "protect_content", BoolOpt(protectContent), "text");
      LastSetOther(w8, "reply_to_message_id", IntOpt(replyToMessageID), "text");
      LastSetOther(w9, "allow_sending_without_reply", BoolOpt(allowSendingWithoutReply), "text");
      LastSetOther(w10, "reply_markup", StrOpt(inlineKeyboardMarkup), "text");
      LastSetOther(w11, "reply_markup", StrOpt(replyKeyboardMarkup), "text");
      LastSetOther(w12, "reply_markup", StrOpt(replyKeyboardRemove), "text");
      LastSetOther(w13, "reply_markup", StrOpt(forceReply), "text");
      WrittenLastSet(w14, "text");
    }

    /** The value the calls leave at `message_thread_id`. */
    lemma PlanMessageThreadID()
      ensures HoldsIfSet(OrEmpty(Written(Plan())), "message_thread_id", IntOpt(messageThreadID))
    {
      var w0 := NoWrites;
      var w1 := Then(w0, "chat_id", IntOpt(chatID));
      var w2 := Then(w1, "text", StrOpt(text));
      var w3 := Then(w2, "message_thread_id", IntOpt(messageThreadID));
      var w4 := Then(w3, "parse_mode", StrOpt(parseMode));
      var w5 := Then(w4, "entities", StrOpt(entities));
      var w6 := Then(w5, "disable_web_page_preview", BoolOpt(disableWebPagePreview));
      var w7 := Then(w6, "disable_notification", BoolOpt(disableNotification));
      var w8 := Then(w7, "protect_content", BoolOpt(protectContent));
      var w9 := Then(w8, "reply_to_message_id", IntOpt(replyToMessageID));
      var w10 := Then(w9, "allow_sending_without_reply", BoolOpt(allowSendingWithoutReply));
      var w11 := Then(w10, "reply_markup", StrOpt(inlineKeyboardMarkup));
      var w12 := Then(w11, "reply_markup", StrOpt(replyKeyboardMarkup));
      var w13 := Then(w12, "reply_markup", StrOpt(replyKeyboardRemove));
      var w14 := Then(w13, "reply_markup", StrOpt(forceReply));
      LastSetOther(w0, "chat_id", IntOpt(chatID), "message_thread_id");
      LastSetOther(w1, "text", StrOpt(text), "message_thread_id");
      LastSetOther(w3, "parse_mode", StrOpt(parseMode), "message_thread_id");
      LastSetOther(w4, "entities", StrOpt(entities), "message_thread_id");
      LastSetOther(w5, "disable_web_page_preview", BoolOpt(disableWebPagePreview), "message_thread_id");
      LastSetOther(w6, "disable_notification", BoolOpt(disableNotification), "message_thread_id");
      LastSetOther(w7, "protect_content", BoolOpt(protectContent), "message_thread_id");
      LastSetOther(w8, "reply_to_message_id", IntOpt(replyToMessageID), "message_thread_id");
      LastSetOther(w9, "allow_sending_without_reply", BoolOpt(allowSendingWithoutReply), "message_thread_id");
      LastSetOther(w10, "reply_markup", StrOpt(inlineKeyboardMarkup), "message_thread_id");
      LastSetOther(w11, "reply_markup", StrOpt(replyKeyboardMarkup), "message_thread_id");
      LastSetOther(w12, "reply_markup", StrOpt(replyKeyboardRemove), "message_thread_id");
      LastSetOther(w13, "reply_markup", StrOpt(forceReply), "message_thread_id");
      WrittenLastSet(w14, "message_thread_id");
    }

    /** The value the calls leave at `parse_mode`. */
    lemma PlanParseMode()
      ensures HoldsIfSet(OrEmpty(Written(Plan())), "parse_mode", StrOpt(parseMode))
    {
      var w0 := NoWrites;
      var w1 := Then(w0, "chat_id", IntOpt(chatID));
      var w2 := Then(w1, "text", StrOpt(text));
      var w3 := Then(w2, "message_thread_id", IntOpt(messageThreadID));
      var w4 := Then(w3, "parse_mode", StrOpt(parseMode));
      var w5 := Then(w4, "entities", StrOpt(entities));
      var w6 := Then(w5, "disable_web_page_preview", BoolOpt(disableWebPagePreview));
      var w7 := Then(w6, "disable_notification", BoolOpt(disableNotification));
      var w8 := Then(w7, "protect_content", BoolOpt(protectContent));
      var w9 := Then(w8, "reply_to_message_id", IntOpt(replyToMessageID));
      var w10 := Then(w9, "allow_sending_without_reply", BoolOpt(allowSendingWithoutReply));
      var w11 := Then(w10, "reply_markup", StrOpt(inlineKeyboardMarkup));
      var w12 := Then(w11, "reply_markup", StrOpt(replyKeyboardMarkup));
      var w13 := Then(w12, "reply_markup", StrOpt(replyKeyboardRemove));
      var w14 := Then(w13, "reply_markup", StrOpt(forceReply));
      LastSetOther(w0, "chat_id", IntOpt(chatID), "parse_mode");
      LastSetOther(w1, "text", StrOpt(text), "parse_mode");
      LastSetOther(w2, "message_thread_id", IntOpt(messageThreadID), "parse_mode");
      LastSetOther(w4, "entities", StrOpt(entities), "parse_mode");
      LastSetOther(w5, "disable_web_page_preview", BoolOpt(disableWebPagePreview), "parse_mode");
      LastSetOther(w6, "disable_notification", BoolOpt(disableNotification), "parse_mode");
      LastSetOther(w7, "protect_content", BoolOpt(protectContent), "parse_mode");
      LastSetOther(w8, "reply_to_message_id", IntOpt(replyToMessageID), "parse_mode");
      LastSetOther(w9, "allow_sending_without_reply", BoolOpt(allowSendingWithoutReply), "parse_mode");
      LastSetOther(w10, "reply_markup", StrOpt(inlineKeyboardMarkup), "parse_mode");
      LastSetOther(w11, "reply_markup", StrOpt(replyKeyboardMarkup), "parse_mode");
      LastSetOther(w12, "reply_markup", StrOpt(replyKeyboardRemove), "parse_mode");
      LastSetOther(w13, "reply_markup", StrOpt(forceReply), "parse_mode");
      WrittenLastSet(w14, "parse_mode");
    }

    /** The value the calls leave at `entities`. */
    lemma PlanEntities()
      ensures HoldsIfSet(OrEmpty(Written(Plan())), "entities", StrOpt(entities))
    {
      var w0 := NoWrites;
      var w1 := Then(w0, "chat_id", IntOpt(chatID));
      var w2 := Then(w1, "text", StrOpt(text));
      var w3 := Then(w2, "message_thread_id", IntOpt(messageThreadID));
      var w4 := Then(w3, "parse_mode", StrOpt(parseMode));
      var w5 := Then(w4, "entities", StrOpt(entities));
      var w6 := Then(w5, "disable_web_page_preview", BoolOpt(disableWebPagePreview));
      var w7 := Then(w6, "disable_notification", BoolOpt(disableNotification));
      var w8 := Then(w7, "protect_content", BoolOpt(protectContent));
      var w9 := Then(w8, "reply_to_message_id", IntOpt(replyToMessageID));
      var w10 := Then(w9, "allow_sending_without_reply", BoolOpt(allowSendingWithoutReply));
      var w11 := Then(w10, "reply_markup", StrOpt(inlineKeyboardMarkup));
      var w12 := Then(w11, "reply_markup", StrOpt(replyKeyboardMarkup));
      var w13 := Then(w12, "reply_markup", StrOpt(replyKeyboardRemove));
      var w14 := Then(w13, "reply_markup", StrOpt(forceReply));
      LastSetOther(w0, "chat_id", IntOpt(chatID), "entities");
      LastSetOther(w1, "text", StrOpt(text), "entities");
      LastSetOther(w2, "message_thread_id", IntOpt(messageThreadID), "entities");
      LastSetOther(w3, "parse_mode", StrOpt(parseMode), "entities");
      LastSetOther(w5, "disable_web_page_preview", BoolOpt(disableWebPagePreview), "entities");
      LastSetOther(w6, "disable_notification", BoolOpt(disableNotification), "entities");
      LastSetOther(w7, "protect_content", BoolOpt(protectContent), "entities");
      LastSetOther(w8, "reply_to_message_id", IntOpt(replyToMessageID), "entities");
      LastSetOther(w9, "allow_sending_without_reply", BoolOpt(allowSendingWithoutReply), "entities");
      LastSetOther(w10, "reply_markup", StrOpt(inlineKeyboardMarkup), "entities");
      LastSetOther(w11, "reply_markup", StrOpt(replyKeyboardMarkup), "entities");
      LastSetOther(w12, "reply_markup", StrOpt(replyKeyboardRemove), "entities");
      LastSetOther(w13, "reply_markup", StrOpt(forceReply), "entities");
      WrittenLastSet(w14, "entities");
    }

    /** The value the calls leave at `disable_web_page_preview`. */
    lemma PlanDisableWebPagePreview()
      ensures HoldsIfSet(OrEmpty(Written(Plan())), "disable_web_page_preview", BoolOpt(disableWebPagePreview))
    {
      var w0 := NoWrites;
      var w1 := Then(w0, "chat_id", IntOpt(chatID));
      var w2 := Then(w1, "text", StrOpt(text));
      var w3 := Then(w2, "message_thread_id", IntOpt(messageThreadID));
      var w4 := Then(w3, "parse_mode", StrOpt(parseMode));
      var w5 := Then(w4, "entities", StrOpt(entities));
      var w6 := Then(w5, "disable_web_page_preview", BoolOpt(disableWebPagePreview));
      var w7 := Then(w6, "disable_notification", BoolOpt(disableNotification));
      var w8 := Then(w7, "protect_content", BoolOpt(protectContent));
      var w9 := Then(w8, "reply_to_message_id", IntOpt(replyToMessageID));
      var w10 := Then(w9, "allow_sending_without_reply", BoolOpt(allowSendingWithoutReply));
      var w11 := Then(w10, "reply_markup", StrOpt(inlineKeyboardMarkup));
      var w12 := Then(w11, "reply_markup", StrOpt(replyKeyboardMarkup));
      var w13 := Then(w12, "reply_markup", StrOpt(replyKeyboardRemove));
      var w14 := Then(w13, "reply_markup", StrOpt(forceReply));
      LastSetOther(w0, "chat_id", IntOpt(chatID), "disable_web_page_preview");
      LastSetOther(w1, "text", StrOpt(text), "disable_web_page_preview");
      LastSetOther(w2, "message_thread_id", IntOpt(messageThreadID), "disable_web_page_preview");
      LastSetOther(w3, "parse_mode", StrOpt(parseMode), "disable_web_page_preview");
      LastSetOther(w4, "entities", StrOpt(entities), "disable_web_page_preview");
      LastSetOther(w6, "disable_notification", BoolOpt(disableNotification), "disable_web_page_preview");
      LastSetOther(w7, "protect_content", BoolOpt(protectContent), "disable_web_page_preview");
      LastSetOther(w8, "reply_to_message_id", IntOpt(replyToMessageID), "disable_web_page_preview");
      LastSetOther(w9, "allow_sending_without_reply", BoolOpt(allowSendingWithoutReply), "disable_web_page_preview");
      LastSetOther(w10, "reply_markup", StrOpt(inlineKeyboardMarkup), "disable_web_page_preview");
      LastSetOther(w11, "reply_markup", StrOpt(replyKeyboardMarkup), "disable_web_page_preview");
      LastSetOther(w12, "reply_markup", StrOpt(replyKeyboardRemove), "disable_web_page_preview");
      LastSetOther(w13, "reply_markup", StrOpt(forceReply), "disable_web_page_preview");
      WrittenLastSet(w14, "disable_web_page_preview");
    }

    /** The value the calls leave at `disable_notification`. */
    lemma PlanDisableNotification()
      ensures HoldsIfSet(OrEmpty(Written(Plan())), "disable_notification", BoolOpt(disableNotification))
    {
      var w0 := NoWrites;
      var w1 := Then(w0, "chat_id", IntOpt(chatID));
      var w2 := Then(w1, "text", StrOpt(text));
      var w3 := Then(w2, "message_thread_id", IntOpt(messageThreadID));
      var w4 := Then(w3, "parse_mode", StrOpt(parseMode));
      var w5 := Then(w4, "entities", StrOpt(entities));
      var w6 := Then(w5, "disable_web_page_preview", BoolOpt(disableWebPagePreview));
      var w7 := Then(w6, "disable_notification", BoolOpt(disableNotification));
      var w8 := Then(w7, "protect_content", BoolOpt(protectContent));
      var w9 := Then(w8, "reply_to_message_id", IntOpt(replyToMessageID));
      var w10 := Then(w9, "allow_sending_without_reply", BoolOpt(allowSendingWithoutReply));
      var w11 := Then(w10, "reply_markup", StrOpt(inlineKeyboardMarkup));
      var w12 := Then(w11, "reply_markup", StrOpt(replyKeyboardMarkup));
      var w13 := Then(w12, "reply_markup", StrOpt(replyKeyboardRemove));
      var w14 := Then(w13, "reply_markup", StrOpt(forceReply));
      LastSetOther(w0, "chat_id", IntOpt(chatID), "disable_notification");
      LastSetOther(w1, "text", StrOpt(text), "disable_notification");
      LastSetOther(w2, "message_thread_id", IntOpt(messageThreadID), "disable_notification");
      LastSetOther(w3, "parse_mode", StrOpt(parseMode), "disable_notification");
      LastSetOther(w4, "entities", StrOpt(entities), "disable_notification");
      LastSetOther(w5, "disable_web_page_preview", BoolOpt(disableWebPagePreview), "disable_notification");
      LastSetOther(w7, "protect_content", BoolOpt(protectContent), "disable_notification");
      LastSetOther(w8, "reply_to_message_id", IntOpt(replyToMessageID), "disable_notification");
      LastSetOther(w9, "allow_sending_without_reply", BoolOpt(allowSendingWithoutReply), "disable_notification");
      LastSetOther(w10, "reply_markup", StrOpt(inlineKeyboardMarkup), "disable_notification");
      LastSetOther(w11, "reply_markup", StrOpt(replyKeyboardMarkup), "disable_notification");
      LastSetOther(w12, "reply_markup", StrOpt(replyKeyboardRemove), "disable_notification");
      LastSetOther(w13, "reply_markup", StrOpt(forceReply), "disable_notification");
      WrittenLastSet(w14, "disable_notification");
    }

    /** The value the calls leave at `protect_content`. */
    lemma PlanProtectContent()
      ensures HoldsIfSet(OrEmpty(Written(Plan())), "protect_content", BoolOpt(protectContent))
    {
      var w0 := NoWrites;
      var w1 := Then(w0, "chat_id", IntOpt(chatID));
      var w2 := Then(w1, "text", StrOpt(text));
      var w3 := Then(w2, "message_thread_id", IntOpt(messageThreadID));
      var w4 := Then(w3, "parse_mode", StrOpt(parseMode));
      var w5 := Then(w4, "entities", StrOpt(entities));
      var w6 := Then(w5, "disable_web_page_preview", BoolOpt(disableWebPagePreview));
      var w7 := Then(w6, "disable_notification", BoolOpt(disableNotification));
      var w8 := Then(w7, "protect_content", BoolOpt(protectContent));
      var w9 := Then(w8, "reply_to_message_id", IntOpt(replyToMessageID));
      var w10 := Then(w9, "allow_sending_without_reply", BoolOpt(allowSendingWithoutReply));
      var w11 := Then(w10, "reply_markup", StrOpt(inlineKeyboardMarkup));
      var w12 := Then(w11, "reply_markup", StrOpt(replyKeyboardMarkup));
      var w13 := Then(w12, "reply_markup", StrOpt(replyKeyboardRemove));
      var w14 := Then(w13, "reply_markup", StrOpt(forceReply));
      LastSetOther(w0, "chat_id", IntOpt(chatID), "protect_content");
      LastSetOther(w1, "text", StrOpt(text), "protect_content");
      LastSetOther(w2, "message_thread_id", IntOpt(messageThreadID), "protect_content");
      LastSetOther(w3, "parse_mode", StrOpt(parseMode), "protect_content");
      LastSetOther(w4, "entities", StrOpt(entities), "protect_content");
      LastSetOther(w5, "disable_web_page_preview", BoolOpt(disableWebPagePreview), "protect_content");
      LastSetOther(w6, "disable_notification", BoolOpt(disableNotification), "protect_content");
      LastSetOther(w8, "reply_to_message_id", IntOpt(replyToMessageID), "protect_content");
      LastSetOther(w9, "allow_sending_without_reply", BoolOpt(allowSendingWithoutReply), "protect_content");
      LastSetOther(w10, "reply_markup", StrOpt(inlineKeyboardMarkup), "protect_content");
      LastSetOther(w11, "reply_markup", StrOpt(replyKeyboardMarkup), "protect_content");
      LastSetOther(w12, "reply_markup", StrOpt(replyKeyboardRemove), "protect_content");
      LastSetOther(w13, "reply_markup", StrOpt(forceReply), "protect_content");
      WrittenLastSet(w14, "protect_content");
    }

    /** The value the calls leave at `reply_to_message_id`. */
    lemma PlanReplyToMessageID()
      ensures HoldsIfSet(OrEmpty(Written(Plan())), "reply_to_message_id", IntOpt(replyToMessageID))
    {
      var w0 := NoWrites;
      var w1 := Then(w0, "chat_id", IntOpt(chatID));
      var w2 := Then(w1, "text", StrOpt(text));
      var w3 := Then(w2, "message_thread_id", IntOpt(messageThreadID));
      var w4 := Then(w3, "parse_mode", StrOpt(parseMode));
      var w5 := Then(w4, "entities", StrOpt(entities));
      var w6 := Then(w5, "disable_web_page_preview", BoolOpt(disableWebPagePreview));
      var w7 := Then(w6, "disable_notification", BoolOpt(disableNotification));
      var w8 := Then(w7, "protect_content", BoolOpt(protectContent));
      var w9 := Then(w8, "reply_to_message_id", IntOpt(replyToMessageID));
      var w10 := Then(w9, "allow_sending_without_reply", BoolOpt(allowSendingWithoutReply));
      var w11 := Then(w10, "reply_markup", StrOpt(inlineKeyboardMarkup));
      var w12 := Then(w11, "reply_markup", StrOpt(replyKeyboardMarkup));
      var w13 := Then(w12, "reply_markup", StrOpt(replyKeyboardRemove));
      var w14 := Then(w13, "reply_markup", StrOpt(forceReply));
      LastSetOther(w0, "chat_id", IntOpt(chatID), "reply_to_message_id");
      LastSetOther(w1, "text", StrOpt(text), "reply_to_message_id");
      LastSetOther(w2, "message_thread_id", IntOpt(messageThreadID), "reply_to_message_id");
      LastSetOther(w3, "parse_mode", StrOpt(parseMode), "reply_to_message_id");
      LastSetOther(w4, "entities", StrOpt(entities), "reply_to_message_id");
      LastSetOther(w5, "disable_web_page_preview", BoolOpt(disableWebPagePreview), "reply_to_message_id");
      LastSetOther(w6, "disable_notification", BoolOpt(disableNotification), "reply_to_message_id");
      LastSetOther(w7, "protect_content", BoolOpt(protectContent), "reply_to_message_id");
      LastSetOther(w9, "allow_sending_without_reply", BoolOpt(allowSendingWithoutReply), "reply_to_message_id");
      LastSetOther(w10, "reply_markup", StrOpt(inlineKeyboardMarkup), "reply_to_message_id");
      LastSetOther(w11, "reply_markup", StrOpt(replyKeyboardMarkup), "reply_to_message_id");
      LastSetOther(w12, "reply_markup", StrOpt(replyKeyboardRemove), "reply_to_message_id");
      LastSetOther(w13, "reply_markup", StrOpt(forceReply), "reply_to_message_id");
      WrittenLastSet(w14, "reply_to_message_id");
    }

    /** The value the calls leave at `allow_sending_without_reply`. */
    lemma PlanAllowSendingWithoutReply()
      ensures HoldsIfSet(OrEmpty(Written(Plan())), "allow_sending_without_reply", BoolOpt(allowSendingWithoutReply))
    {
      var w0 := NoWrites;
      var w1 := Then(w0, "chat_id", IntOpt(chatID));
      var w2 := Then(w1, "text", StrOpt(text));
      var w3 := Then(w2, "message_thread_id", IntOpt(messageThreadID));
      var w4 := Then(w3, "parse_mode", StrOpt(parseMode));
      var w5 := Then(w4, "entities", StrOpt(entities));
      var w6 := Then(w5, "disable_web_page_preview", BoolOpt(disableWebPagePreview));
      var w7 := Then(w6, "disable_notification", BoolOpt(disableNotification));
      var w8 := Then(w7, "protect_content", BoolOpt(protectContent));
      var w9 := Then(w8, "reply_to_message_id", IntOpt(replyToMessageID));
      var w10 := Then(w9, "allow_sending_without_reply", BoolOpt(allowSendingWithoutReply));
      var w11 := Then(w10, "reply_markup", StrOpt(inlineKeyboardMarkup));
      var w12 := Then(w11, "reply_markup", StrOpt(replyKeyboardMarkup));
      var w13 := Then(w12, "reply_markup", StrOpt(replyKeyboardRemove));
      var w14 := Then(w13, "reply_markup", StrOpt(forceReply));
      LastSetOther(w0, "chat_id", IntOpt(chatID), "allow_sending_without_reply");
      LastSetOther(w1, "text", StrOpt(text), "allow_sending_without_reply");
      LastSetOther(w2, "message_thread_id", IntOpt(messageThreadID), "allow_sending_without_reply");
      LastSetOther(w3, "parse_mode", StrOpt(parseMode), "allow_sending_without_reply");
      LastSetOther(w4, "entities", StrOpt(entities), "allow_sending_without_reply");
      LastSetOther(w5, "disable_web_page_preview", BoolOpt(disableWebPagePreview), "allow_sending_without_reply");
      LastSetOther(w6, "disable_notification", BoolOpt(disableNotification), "allow_sending_without_reply");
      LastSetOther(w7, "protect_content", BoolOpt(protectContent), "allow_sending_without_reply");
      LastSetOther(w8, "reply_to_message_id", IntOpt(replyToMessageID), "allow_sending_without_reply");
      LastSetOther(w10, "reply_markup", StrOpt(inlineKeyboardMarkup), "allow_sending_without_reply");
      LastSetOther(w11, "reply_markup", StrOpt(replyKeyboardMarkup), "allow_sending_without_reply");
      LastSetOther(w12, "reply_markup", StrOpt(replyKeyboardRemove), "allow_sending_without_reply");
      LastSetOther(w13, "reply_markup", StrOpt(forceReply), "allow_sending_without_reply");
      WrittenLastSet(w14, "allow_sending_without_reply");
    }

    /** The value the calls leave at `reply_markup`: the last one set. */
    lemma PlanReplyMarkup()
      ensures HoldsIfSet(OrEmpty(Written(Plan())), "reply_markup", Later(Later(Later(StrOpt(inlineKeyboardMarkup), StrOpt(replyKeyboardMarkup)), StrOpt(replyKeyboardRemove)), StrOpt(forceReply)))
    {
      var w0 := NoWrites;
      var w1 := Then(w0, "chat_id", IntOpt(chatID));
      var w2 := Then(w1, "text", StrOpt(text));
      var w3 := Then(w2, "message_thread_id", IntOpt(messageThreadID));
      var w4 := Then(w3, "parse_mode", StrOpt(parseMode));
      var w5 := Then(w4, "entities", StrOpt(entities));
      var w6 := Then(w5, "disable_web_page_preview", BoolOpt(disableWebPagePreview));
      var w7 := Then(w6, "disable_notification", BoolOpt(disableNotification));
      var w8 := Then(w7, "protect_content", BoolOpt(protectContent));
      var w9 := Then(w8, "reply_to_message_id", IntOpt(replyToMessageID));
      var w10 := Then(w9, "allow_sending_without_reply", BoolOpt(allowSendingWithoutReply));
      var w11 := Then(w10, "reply_markup", StrOpt(inlineKeyboardMarkup));
      var w12 := Then(w11, "reply_markup", StrOpt(replyKeyboardMarkup));
      var w13 := Then(w12, "reply_markup", StrOpt(replyKeyboardRemove));
      var w14 := Then(w13, "reply_markup", StrOpt(forceReply));
      LastSetOther(w0, "chat_id", IntOpt(chatID), "reply_markup");
      LastSetOther(w1, "text", StrOpt(text), "reply_markup");
      LastSetOther(w2, "message_thread_id", IntOpt(messageThreadID), "reply_markup");
      LastSetOther(w3, "parse_mode", StrOpt(parseMode), "reply_markup");
      LastSetOther(w4, "entities", StrOpt(entities), "reply_markup");
      LastSetOther(w5, "disable_web_page_preview", BoolOpt(disableWebPagePreview), "reply_markup");
      LastSetOther(w6, "disable_notification", BoolOpt(disableNotification), "reply_markup");
      LastSetOther(w7, "protect_content", BoolOpt(protectContent), "reply_markup");
      LastSetOther(w8, "reply_to_message_id", IntOpt(replyToMessageID), "reply_markup");
      LastSetOther(w9, "allow_sending_without_reply", BoolOpt(allowSendingWithoutReply), "reply_markup");
      LastSetSame(w10, "reply_markup", StrOpt(inlineKeyboardMarkup));
      LastSetSame(w11, "reply_markup", StrOpt(replyKeyboardMarkup));
      LastSetSame(w12, "reply_markup", StrOpt(replyKeyboardRemove));
      LastSetSame(w13, "reply_markup", StrOpt(forceReply));
      WrittenLastSet(w14, "reply_markup");
    }

    /** The calls write no key but these. */
    lemma PlanOnly()
      ensures OrEmpty(Written(Plan())).Keys <= {"chat_id", "text", "message_thread_id", "parse_mode", "entities", "disable_web_page_preview", "disable_notification", "protect_content", "reply_to_message_id", "allow_sending_without_reply", "reply_markup"}
    {
      var w0 := NoWrites;
      var w1 := Then(w0, "chat_id", IntOpt(chatID));
      var w2 := Then(w1, "text", StrOpt(text));
      var w3 := Then(w2, "message_thread_id", IntOpt(messageThreadID));
      var w4 := Then(w3, "parse_mode", StrOpt(parseMode));
      var w5 := Then(w4, "entities", StrOpt(entities));
      var w6 := Then(w5, "disable_web_page_preview", BoolOpt(disableWebPagePreview));
      var w7 := Then(w6, "disable_notification", BoolOpt(disableNotification));
      var w8 := Then(w7, "protect_content", BoolOpt(protectContent));
      var w9 := Then(w8, "reply_to_message_id", IntOpt(replyToMessageID));
      var w10 := Then(w9, "allow_sending_without_reply", BoolOpt(allowSendingWithoutReply));
      var w11 := Then(w10, "reply_markup", StrOpt(inlineKeyboardMarkup));
      var w12 := Then(w11, "reply_markup", StrOpt(replyKeyboardMarkup));
      var w13 := Then(w12, "reply_markup", StrOpt(replyKeyboardRemove));
      var w14 := Then(w13, "reply_markup", StrOpt(forceReply));
      forall j | j !in {"chat_id", "text", "message_thread_id", "parse_mode", "entities", "disable_web_page_preview", "disable_notification", "protect_content", "reply_to_message_id", "allow_sending_without_reply", "reply_markup"}
        ensures j !in OrEmpty(Written(w14))
      {
        LastSetOther(w0, "chat_id", IntOpt(chatID), j);
        LastSetOther(w1, "text", StrOpt(text), j);
        LastSetOther(w2, "message_thread_id", IntOpt(messageThreadID), j);
        LastSetOther(w3, "parse_mode", StrOpt(parseMode), j);
        LastSetOther(w4, "entities", StrOpt(entities), j);
        LastSetOther(w5, "disable_web_page_preview", BoolOpt(disableWebPagePreview), j);
        LastSetOther(w6, "disable_notification", BoolOpt(disableNotification), j);
        LastSetOther(w7, "protect_content", BoolOpt(protectContent), j);
        LastSetOther(w8, "reply_to_message_id", IntOpt(replyToMessageID), j);
        LastSetOther(w9, "allow_sending_without_reply", BoolOpt(allowSendingWithoutReply), j);
        LastSetOther(w10, "reply_markup", StrOpt(inlineKeyboardMarkup), j);
        LastSetOther(w11, "reply_markup", StrOpt(replyKeyboardMarkup), j);
        LastSetOther(w12, "reply_markup", StrOpt(replyKeyboardRemove), j);
        LastSetOther(w13, "reply_markup", StrOpt(forceReply), j);
        WrittenLastSet(w14, j);
      }
    }

    /** The request `Do` builds before it calls the API: the endpoint, and a query made
        by the `setParam` calls of `Plan`. */
    method Assemble() returns (r: Request)
      ensures fresh(r)
      ensures r.Fields() == RequestFields(MethodGet, "/sendMessage", Written(Plan()), None, None, None, "", [])
    {
      r := new Request(MethodGet, "/sendMessage");
      ghost var done := NoWrites;
      var _ := r.SetParamIfSet("chat_id", IntOpt(chatID), done);
      done := Then(done, "chat_id", IntOpt(chatID));
      var _ := r.SetParamIfSet("text", StrOpt(text), done);
      done := Then(done, "text", StrOpt(text));
      var _ := r.SetParamIfSet("message_thread_id", IntOpt(messageThreadID), done);
      done := Then(done, "message_thread_id", IntOpt(messageThreadID));
      var _ := r.SetParamIfSet("parse_mode", StrOpt(parseMode), done);
      done := Then(done, "parse_mode", StrOpt(parseMode));
      var _ := r.SetParamIfSet("entities", StrOpt(entities), done);
      done := Then(done, "entities", StrOpt(entities));
      var _ := r.SetParamIfSet("disable_web_page_preview", BoolOpt(disableWebPagePreview), done);
      done := Then(done, "disable_web_page_preview", BoolOpt(disableWebPagePreview));
      var _ := r.SetParamIfSet("disable_notification", BoolOpt(disableNotification), done);
      done := Then(done, "disable_notification", BoolOpt(disableNotification));
      var _ := r.SetParamIfSet("protect_content", BoolOpt(protectContent), done);
      done := Then(done, "protect_content", BoolOpt(protectContent));
      var _ := r.SetParamIfSet("reply_to_message_id", IntOpt(replyToMessageID), done);
      done := Then(done, "reply_to_message_id", IntOpt(replyToMessageID));
      var _ := r.SetParamIfSet("allow_sending_without_reply", BoolOpt(allowSendingWithoutReply), done);
      done := Then(done, "allow_sending_without_reply", BoolOpt(allowSendingWithoutReply));
      var _ := r.SetParamIfSet("reply_markup", StrOpt(inlineKeyboardMarkup), done);
      done := Then(done, "reply_markup", StrOpt(inlineKeyboardMarkup));
      var _ := r.SetParamIfSet("reply_markup", StrOpt(replyKeyboardMarkup), done);
      done := Then(done, "reply_markup", StrOpt(replyKeyboardMarkup));
      var _ := r.SetParamIfSet("reply_markup", StrOpt(replyKeyboardRemove), done);
      done := Then(done, "reply_markup", StrOpt(replyKeyboardRemove));
      var _ := r.SetParamIfSet("reply_markup", StrOpt(forceReply), done);
      done := Then(done, "reply_markup", StrOpt(forceReply));
      assert done == Plan();
    }

    /** `Do`: Always sets `chat_id`, `text`; sets each of the other keys only when its field is set; then calls the API. */
    method Do(opts: seq<RequestOption>) returns (assembled: RequestFields, res: Option<Bytes>, err: Option<Error>)
      requires chatID.Some? && text.Some?
      ensures assembled.httpMethod == MethodGet && assembled.endpoint == "/sendMessage"
      ensures assembled.form == None && assembled.header == None && assembled.body == None
      ensures assembled.fullURL == "" && assembled.json == []
      ensures Holds(Q(assembled), "chat_id", Int(chatID.value as int))
      ensures Holds(Q(assembled), "text", Str(text.value))
      ensures HoldsIfSet(Q(assembled), "message_thread_id", IntOpt(messageThreadID))
      ensures HoldsIfSet(Q(assembled), "parse_mode", StrOpt(parseMode))
      ensures HoldsIfSet(Q(assembled), "entities", StrOpt(entities))
      ensures HoldsIfSet(Q(assembled), "disable_web_page_preview", BoolOpt(disableWebPagePreview))
      ensures HoldsIfSet(Q(assembled), "disable_notification", BoolOpt(disableNotification))
      ensures HoldsIfSet(Q(assembled), "protect_content", BoolOpt(protectContent))
      ensures HoldsIfSet(Q(assembled), "reply_to_message_id", IntOpt(replyToMessageID))
      ensures HoldsIfSet(Q(assembled), "allow_sending_without_reply", BoolOpt(allowSendingWithoutReply))
      ensures HoldsIfSet(Q(assembled), "reply_markup", Later(Later(Later(StrOpt(inlineKeyboardMarkup), StrOpt(replyKeyboardMarkup)), StrOpt(replyKeyboardRemove)), StrOpt(forceReply)))
      ensures Q(assembled).Keys <= {"chat_id", "text", "message_thread_id", "parse_mode", "entities", "disable_web_page_preview", "disable_notification", "protect_content", "reply_to_message_id", "allow_sending_without_reply", "reply_markup"}
      ensures var o := c.Outcome(assembled, opts);
        err == o.1 && res == (if o.1.Some? then None else o.0)
    {
      var r := Assemble();
      assembled := r.Fields();
      var data, e := c.CallAPI(r, opts);
      PlanOnly();
      PlanChatID();
      PlanText();
      PlanMessageThreadID();
      PlanParseMode();
      PlanEntities();
      PlanDisableWebPagePreview();
      PlanDisableNotification();
      PlanProtectContent();
      PlanReplyToMessageID();
      PlanAllowSendingWithoutReply();
      PlanReplyMarkup();
      if e.Some? {
        return assembled, None, e;
      }
      res, err := data, None;
    }
  }

  /** `ForwardMessageService`: a GET request to `/forwardMessage`. */
  class ForwardMessageService {
    const c: Client
    var chatID: Option<int64>
    var messageThreadID: Option<int64>
    var fromChatID: Option<string>
    var disableNotification: Option<bool>
    var protectContent: Option<bool>
    var messageID: Option<int64>

    /** `NewForwardMessageService`: every field starts out unset. */
    constructor (c: Client)
      ensures this.c == c
      ensures chatID == None && messageThreadID == None && fromChatID == None
      ensures disableNotification == None && protectContent == None && messageID == None
    {
      this.c := c;
      chatID := None;
      messageThreadID := None;
      fromChatID := None;
      disableNotification := None;
      protectContent := None;
      messageID := None;
    }

    /** `ChatID`: stores its argument in `chatID`. */
    method ChatID(chatID: int64) returns (t: ForwardMessageService)
      modifies this`chatID
      ensures this.chatID == Some(chatID) && t == this
    {
      this.chatID := Some(chatID);
      t := this;
    }

    /** `MessageThreadID`: stores its argument in `messageThreadID`. */
    method MessageThreadID(messageThreadID: int64) returns (t: ForwardMessageService)
      modifies this`messageThreadID
      ensures this.messageThreadID == Some(messageThreadID) && t == this
    {
      this.messageThreadID := Some(messageThreadID);
      t := this;
    }

    /** `MessageID`: stores its argument in `messageID`. */
    method MessageID(messageID: int64) returns (t: ForwardMessageService)
      modifies this`messageID
      ensures this.messageID == Some(messageID) && t == this
    {
      this.messageID := Some(messageID);
      t := this;
    }

    /** `FromChatID`: stores its argument in `fromChatID`. */
    method FromChatID(fromChatID: string) returns (t: ForwardMessageService)
      modifies this`fromChatID
      ensures this.fromChatID == Some(fromChatID) && t == this
    {
      this.fromChatID := Some(fromChatID);
      t := this;
    }

    /** `DisableNotification`: stores its argument in `disableNotification`. */
    method DisableNotification(disableNotification: bool) returns (t: ForwardMessageService)
      modifies this`disableNotification
      ensures this.disableNotification == Some(disableNotification) && t == this
    {
      this.disableNotification := Some(disableNotification);
      t := this;
    }

    /** `ProtectContent`: stores its argument in `protectContent`. */
    method ProtectContent(protectContent: bool) returns (t: ForwardMessageService)
      modifies this`protectContent
      ensures this.protectContent == Some(protectContent) && t == this
    {
      this.protectContent := Some(protectContent);
      t := this;
    }

    /** The `setParam` calls `Do` makes, in order; a call that is skipped because its
        field is unset has value `None`. */
    ghost function Plan(): Writes
      reads this
    {
      var w1 := Then(NoWrites, "chat_id", IntOpt(chatID));
      var w2 := Then(w1, "from_chat_id", StrOpt(fromChatID));
      var w3 := Then(w2, "message_id", IntOpt(messageID));
      var w4 := Then(w3, "message_thread_id", IntOpt(messageThreadID));
      var w5 := Then(w4, "disable_notification", BoolOpt(disableNotification));
      var w6 := Then(w5, "protect_content", BoolOpt(protectContent));
      w6
    }

    /** The value the calls leave at `chat_id`. */
    lemma PlanChatID()
      ensures HoldsIfSet(OrEmpty(Written(Plan())), "chat_id", IntOpt(chatID))
    {
      var w0 := NoWrites;
      var w1 := Then(w0, "chat_id", IntOpt(chatID));
      var w2 := Then(w1, "from_chat_id", StrOpt(fromChatID));
      var w3 := Then(w2, "message_id", IntOpt(messageID));
      var w4 := Then(w3, "message_thread_id", IntOpt(messageThreadID));
      var w5 := Then(w4, "disable_notification", BoolOpt(disableNotification));
      var w6 := Then(w5, "protect_content", BoolOpt(protectContent));
      LastSetOther(w1, "from_chat_id", StrOpt(fromChatID), "chat_id");
      LastSetOther(w2, "message_id", IntOpt(messageID), "chat_id");
      LastSetOther(w3, "message_thread_id", IntOpt(messageThreadID), "chat_id");
      LastSetOther(w4, "disable_notification", BoolOpt(disableNotification), "chat_id");
      LastSetOther(w5, "protect_content", BoolOpt(protectContent), "chat_id");
      WrittenLastSet(w6, "chat_id");
    }

    /** The value the calls leave at `from_chat_id`. */
    lemma PlanFromChatID()
      ensures HoldsIfSet(OrEmpty(Written(Plan())), "from_chat_id", StrOpt(fromChatID))
    {
      var w0 := NoWrites;
      var w1 := Then(w0, "chat_id", IntOpt(chatID));
      var w2 := Then(w1, "from_chat_id", StrOpt(fromChatID));
      var w3 := Then(w2, "message_id", IntOpt(messageID));
      var w4 := Then(w3, "message_thread_id", IntOpt(messageThreadID));
      var w5 := Then(w4, "disable_notification", BoolOpt(disableNotification));
      var w6 := Then(w5, "protect_content", BoolOpt(protectContent));
      LastSetOther(w0, "chat_id", IntOpt(chatID), "from_chat_id");
      LastSetOther(w2, "message_id", IntOpt(messageID), "from_chat_id");
      LastSetOther(w3, "message_thread_id", IntOpt(messageThreadID), "from_chat_id");
      LastSetOther(w4, "disable_notification", BoolOpt(disableNotification), "from_chat_id");
      LastSetOther(w5, "protect_content", BoolOpt(protectContent), "from_chat_id");
      WrittenLastSet(w6, "from_chat_id");
    }

    /** The value the calls leave at `message_id`. */
    lemma PlanMessageID()
      ensures HoldsIfSet(OrEmpty(Written(Plan())), "message_id", IntOpt(messageID))
    {
      var w0 := NoWrites;
      var w1 := Then(w0, "chat_id", IntOpt(chatID));
      var w2 := Then(w1, "from_chat_id", StrOpt(fromChatID));
      var w3 := Then(w2, "message_id", IntOpt(messageID));
      var w4 := Then(w3, "message_thread_id", IntOpt(messageThreadID));
      var w5 := Then(w4, "disable_notification", BoolOpt(disableNotification));
      var w6 := Then(w5, "protect_content", BoolOpt(protectContent));
      LastSetOther(w0, "chat_id", IntOpt(chatID), "message_id");
      LastSetOther(w1, "from_chat_id", StrOpt(fromChatID), "message_id");
      LastSetOther(w3, "message_thread_id", IntOpt(messageThreadID), "message_id");
      LastSetOther(w4, "disable_notification", BoolOpt(disableNotification), "message_id");
      LastSetOther(w5, "protect_content", BoolOpt(protectContent), "message_id");
      WrittenLastSet(w6, "message_id");
    }

    /** The value the calls leave at `message_thread_id`. */
    lemma PlanMessageThreadID()
      ensures HoldsIfSet(OrEmpty(Written(Plan())), "message_thread_id", IntOpt(messageThreadID))
    {
      var w0 := NoWrites;
      var w1 := Then(w0, "chat_id", IntOpt(chatID));
      var w2 := Then(w1, "from_chat_id", StrOpt(fromChatID));
      var w3 := Then(w2, "message_id", IntOpt(messageID));
      var w4 := Then(w3, "message_thread_id", IntOpt(messageThreadID));
      var w5 := Then(w4, "disable_notification", BoolOpt(disableNotification));
      var w6 := Then(w5, "protect_content", BoolOpt(protectContent));
      LastSetOther(w0, "chat_id", IntOpt(chatID), "message_thread_id");
      LastSetOther(w1, "from_chat_id", StrOpt(fromChatID), "message_thread_id");
      LastSetOther(w2, "message_id", IntOpt(messageID), "message_thread_id");
      LastSetOther(w4, "disable_notification", BoolOpt(disableNotification), "message_thread_id");
      LastSetOther(w5, "protect_content", BoolOpt(protectContent), "message_thread_id");
      WrittenLastSet(w6, "message_thread_id");
    }

    /** The value the calls leave at `disable_notification`. */
    lemma PlanDisableNotification()
      ensures HoldsIfSet(OrEmpty(Written(Plan())), "disable_notification", BoolOpt(disableNotification))
    {
      var w0 := NoWrites;
      var w1 := Then(w0, "chat_id", IntOpt(chatID));
      var w2 := Then(w1, "from_chat_id", StrOpt(fromChatID));
      var w3 := Then(w2, "message_id", IntOpt(messageID));
      var w4 := Then(w3, "message_thread_id", IntOpt(messageThreadID));
      var w5 := Then(w4, "disable_notification", BoolOpt(disableNotification));
      var w6 := Then(w5, "protect_content", BoolOpt(protectContent));
      LastSetOther(w0, "chat_id", IntOpt(chatID), "disable_notification");
      LastSetOther(w1, "from_chat_id", StrOpt(fromChatID), "disable_notification");
      LastSetOther(w2, "message_id", IntOpt(messageID), "disable_notification");
      LastSetOther(w3, "message_thread_id", IntOpt(messageThreadID), "disable_notification");
      LastSetOther(w5, "protect_content", BoolOpt(protectContent), "disable_notification");
      WrittenLastSet(w6, "disable_notification");
    }

    /** The value the calls leave at `protect_content`. */
    lemma PlanProtectContent()
      ensures HoldsIfSet(OrEmpty(Written(Plan())), "protect_content", BoolOpt(protectContent))
    {
      var w0 := NoWrites;
      var w1 := Then(w0, "chat_id", IntOpt(chatID));
      var w2 := Then(w1, "from_chat_id", StrOpt(fromChatID));
      var w3 := Then(w2, "message_id", IntOpt(messageID));
      var w4 := Then(w3, "message_thread_id", IntOpt(messageThreadID));
      var w5 := Then(w4, "disable_notification", BoolOpt(disableNotification));
      var w6 := Then(w5, "protect_content", BoolOpt(protectContent));
      LastSetOther(w0, "chat_id", IntOpt(chatID), "protect_content");
      LastSetOther(w1, "from_chat_id", StrOpt(fromChatID), "protect_content");
      LastSetOther(w2, "message_id", IntOpt(messageID), "protect_content");
      LastSetOther(w3, "message_thread_id", IntOpt(messageThreadID), "protect_content");
      LastSetOther(w4, "disable_notification", BoolOpt(disableNotification), "protect_content");
      WrittenLastSet(w6, "protect_content");
    }

    /** The calls write no key but these. */
    lemma PlanOnly()
      ensures OrEmpty(Written(Plan())).Keys <= {"chat_id", "from_chat_id", "message_id", "message_thread_id", "disable_notification", "protect_content"}
    {
      var w0 := NoWrites;
      var w1 := Then(w0, "chat_id", IntOpt(chatID));
      var w2 := Then(w1, "from_chat_id", StrOpt(fromChatID));
      var w3 := Then(w2, "message_id", IntOpt(messageID));
      var w4 := Then(w3, "message_thread_id", IntOpt(messageThreadID));
      var w5 := Then(w4, "disable_notification", BoolOpt(disableNotification));
      var w6 := Then(w5, "protect_content", BoolOpt(protectContent));
      forall j | j !in {"chat_id", "from_chat_id", "message_id", "message_thread_id", "disable_notification", "protect_content"}
        ensures j !in OrEmpty(Written(w6))
      {
        LastSetOther(w0, "chat_id", IntOpt(chatID), j);
        LastSetOther(w1, "from_chat_id", StrOpt(fromChatID), j);
        LastSetOther(w2, "message_id", IntOpt(messageID), j);
        LastSetOther(w3, "message_thread_id", IntOpt(messageThreadID), j);
        LastSetOther(w4, "disable_notification", BoolOpt(disableNotification), j);
        LastSetOther(w5, "protect_content", BoolOpt(protectContent), j);
        WrittenLastSet(w6, j);
      }
    }

    /** The request `Do` builds before it calls the API: the endpoint, and a query made
        by the `setParam` calls of `Plan`. */
    method Assemble() returns (r: Request)
      ensures fresh(r)
      ensures r.Fields() == RequestFields(MethodGet, "/forwardMessage", Written(Plan()), None, None, None, "", [])
    {
      r := new Request(MethodGet, "/forwardMessage");
      ghost var done := NoWrites;
      var _ := r.SetParamIfSet("chat_id", IntOpt(chatID), done);
      done := Then(done, "chat_id", IntOpt(chatID));
      var _ := r.SetParamIfSet("from_chat_id", StrOpt(fromChatID), done);
      done := Then(done, "from_chat_id", StrOpt(fromChatID));
      var _ := r.SetParamIfSet("message_id", IntOpt(messageID), done);
      done := Then(done, "message_id", IntOpt(messageID));
      var _ := r.SetParamIfSet("message_thread_id", IntOpt(messageThreadID), done);
      done := Then(done, "message_thread_id", IntOpt(messageThreadID));
      var _ := r.SetParamIfSet("disable_notification", BoolOpt(disableNotification), done);
      done := Then(done, "disable_notification", BoolOpt(disableNotification));
      var _ := r.SetParamIfSet("protect_content", BoolOpt(protectContent), done);
      done := Then(done, "protect_content", BoolOpt(protectContent));
      assert done == Plan();
    }

    /** `Do`: Always sets `chat_id`, `from_chat_id`, `message_id`; sets each of the other keys only when its field is set; then calls the API. */
    method Do(opts: seq<RequestOption>) returns (assembled: RequestFields, res: Option<Bytes>, err: Option<Error>)
      requires chatID.Some? && fromChatID.Some? && messageID.Some?
      ensures assembled.httpMethod == MethodGet && assembled.endpoint == "/forwardMessage"
      ensures assembled.form == None && assembled.header == None && assembled.body == None
      ensures assembled.fullURL == "" && assembled.json == []
      ensures Holds(Q(assembled), "chat_id", Int(chatID.value as int))
      ensures Holds(Q(assembled), "from_chat_id", Str(fromChatID.value))
      ensures Holds(Q(assembled), "message_id", Int(messageID.value as int))
      ensures HoldsIfSet(Q(assembled), "message_thread_id", IntOpt(messageThreadID))
      ensures HoldsIfSet(Q(assembled), "disable_notification", BoolOpt(disableNotification))
      ensures HoldsIfSet(Q(assembled), "protect_content", BoolOpt(protectContent))
      ensures Q(assembled).Keys <= {"chat_id", "from_chat_id", "message_id", "message_thread_id", "disable_notification", "protect_content"}
      ensures var o := c.Outcome(assembled, opts);
        err == o.1 && res == (if o.1.Some? then None else o.0)
    {
      var r := Assemble();
      assembled := r.Fields();
      var data, e := c.CallAPI(r, opts);
      PlanOnly();
      PlanChatID();
      PlanFromChatID();
      PlanMessageID();
      PlanMessageThreadID();
      PlanDisableNotification();
      PlanProtectContent();
      if e.Some? {
        return assembled, None, e;
      }
      res, err := data, None;
    }
  }

  /** `CopyMessageService`: a GET request to `/copyMessage`. */
  class CopyMessageService {
    const c: Client
    var chatID: Option<int64>
    var messageThreadID: Option<int64>
    var fromChatID: Option<string>
    var messageID: Option<int64>
    var caption: Option<string>
    var parseMode: Option<string>
    var captionEntities: Option<string>
    var disableNotification: Option<bool>
    var protectContent: Option<bool>
    var replyToMessageID: Option<int64>
    var allowSendingWithoutReply: Option<bool>
    var inlineKeyboardMarkup: Option<string>
    var replyKeyboardMarkup: Option<string>
    var replyKeyboardRemove: Option<string>
    var forceReply: Option<string>

    /** `NewCopyMessageService`: every field starts out unset. */
    constructor (c: Client)
      ensures this.c == c
      ensures chatID == None && messageThreadID == None && fromChatID == None
      ensures messageID == None && caption == None && parseMode == None
      ensures captionEntities == None && disableNotification == None && protectContent == None
      ensures replyToMessageID == None && allowSendingWithoutReply == None && inlineKeyboardMarkup == None
      ensures replyKeyboardMarkup == None && replyKeyboardRemove == None && forceReply == None
    {
      this.c := c;
      chatID := None;
      messageThreadID := None;
      fromChatID := None;
      messageID := None;
      caption := None;
      parseMode := None;
      captionEntities := None;
      disableNotification := None;
      protectContent := None;
      replyToMessageID := None;
      allowSendingWithoutReply := None;
      inlineKeyboardMarkup := None;
      replyKeyboardMarkup := None;
      replyKeyboardRemove := None;
      forceReply := None;
    }

    /** `ChatID`: stores its argument in `chatID`. */
    method ChatID(chatID: int64) returns (t: CopyMessageService)
      modifies this`chatID
      ensures this.chatID == Some(chatID) && t == this
    {
      this.chatID := Some(chatID);
      t := this;
    }

    /** `MessageThreadID`: stores its argument in `messageThreadID`. */
    method MessageThreadID(messageThreadID: int64) returns (t: CopyMessageService)
      modifies this`messageThreadID
      ensures this.messageThreadID == Some(messageThreadID) && t == this
    {
      this.messageThreadID := Some(messageThreadID);
      t := this;
    }

    /** `ParseMode`: stores its argument in `parseMode`. */
    method ParseMode(parseMode: string) returns (t: CopyMessageService)
      modifies this`parseMode
      ensures this.parseMode == Some(parseMode) && t == this
    {
      this.parseMode := Some(parseMode);
      t := this;
    }

    /** `CaptionEntities`: stores the JSON text of its argument in `captionEntities`. `marshalled` is what
        `jsoniter.Marshal` makes of the argument, `None` when marshalling fails; then
        nothing changes and the result is nil. */
    method CaptionEntities(marshalled: Option<string>) returns (t: CopyMessageService?)
      modifies this`captionEntities
      ensures marshalled.None? ==> t == null && captionEntities == old(captionEntities)
      ensures marshalled.Some? ==> t == this && captionEntities == marshalled
    {
      if marshalled.None? {
        return null;
      }
      captionEntities := marshalled;
      t := this;
    }

    /** `MessageID`: stores its argument in `messageID`. */
    method MessageID(messageID: int64) returns (t: CopyMessageService)
      modifies this`messageID
      ensures this.messageID == Some(messageID) && t == this
    {
      this.messageID := Some(messageID);
      t := this;
    }

    /** `FromChatID`: stores its argument in `fromChatID`. */
    method FromChatID(fromChatID: string) returns (t: CopyMessageService)
      modifies this`fromChatID
      ensures this.fromChatID == Some(fromChatID) && t == this
    {
      this.fromChatID := Some(fromChatID);
      t := this;
    }

    /** `DisableNotification`: stores its argument in `disableNotification`. */
    method DisableNotification(disableNotification: bool) returns (t: CopyMessageService)
      modifies this`disableNotification
      ensures this.disableNotification == Some(disableNotification) && t == this
    {
      this.disableNotification := Some(disableNotification);
      t := this;
    }

    /** `ProtectContent`: stores its argument in `protectContent`. */
    method ProtectContent(protectContent: bool) returns (t: CopyMessageService)
      modifies this`protectContent
      ensures this.protectContent == Some(protectContent) && t == this
    {
      this.protectContent := Some(protectContent);
      t := this;
    }

    /** `ReplyToMessageID`: stores its argument in `replyToMessageID`. */
    method ReplyToMessageID(replyToMessageID: int64) returns (t: CopyMessageService)
      modifies this`replyToMessageID
      ensures this.replyToMessageID == Some(replyToMessageID) && t == this
    {
      this.replyToMessageID := Some(replyToMessageID);
      t := this;
    }

    /** `AllowSendingWithoutReply`: stores its argument in `allowSendingWithoutReply`. */
    method AllowSendingWithoutReply(allowSendingWithoutReply: bool) returns (t: CopyMessageService)
      modifies this`allowSendingWithoutReply
      ensures this.allowSendingWithoutReply == Some(allowSendingWithoutReply) && t == this
    {
      this.allowSendingWithoutReply := Some(allowSendingWithoutReply);
      t := this;
    }

    /** `InlineKeyboardMarkup`: stores the JSON text of its argument in `inlineKeyboardMarkup`. `marshalled` is what
        `jsoniter.Marshal` makes of the argument, `None` when marshalling fails; then
        nothing changes and the result is nil. */
    method InlineKeyboardMarkup(marshalled: Option<string>) returns (t: CopyMessageService?)
      modifies this`inlineKeyboardMarkup
      ensures marshalled.None? ==> t == null && inlineKeyboardMarkup == old(inlineKeyboardMarkup)
      ensures marshalled.Some? ==> t == this && inlineKeyboardMarkup == marshalled
    {
      if marshalled.None? {
        return null;
      }
      inlineKeyboardMarkup := marshalled;
      t := this;
    }

    /** `ReplyKeyboardMarkup`: stores the JSON text of its argument in `replyKeyboardMarkup`. `marshalled` is what
        `jsoniter.Marshal` makes of the argument, `None` when marshalling fails; then
        nothing changes and the result is nil. */
    method ReplyKeyboardMarkup(marshalled: Option<string>) returns (t: CopyMessageService?)
      modifies this`replyKeyboardMarkup
      ensures marshalled.None? ==> t == null && replyKeyboardMarkup == old(replyKeyboardMarkup)
      ensures marshalled.Some? ==> t == this && replyKeyboardMarkup == marshalled
    {
      if marshalled.None? {
        return null;
      }
      replyKeyboardMarkup := marshalled;
      t := this;
    }

    /** `ReplyKeyboardRemove`: stores the JSON text of its argument in `replyKeyboardRemove`. `marshalled` is what
        `jsoniter.Marshal` makes of the argument, `None` when marshalling fails; then
        nothing changes and the result is nil. */
    method ReplyKeyboardRemove(marshalled: Option<string>) returns (t: CopyMessageService?)
      modifies this`replyKeyboardRemove
      ensures marshalled.None? ==> t == null && replyKeyboardRemove == old(replyKeyboardRemove)
      ensures marshalled.Some? ==> t == this && replyKeyboardRemove == marshalled
    {
      if marshalled.None? {
        return null;
      }
      replyKeyboardRemove := marshalled;
      t := this;
    }

    /** `ForceReply`: stores the JSON text of its argument in `forceReply`. `marshalled` is what
        `jsoniter.Marshal` makes of the argument, `None` when marshalling fails; then
        nothing changes and the result is nil. */
    method ForceReply(marshalled: Option<string>) returns (t: CopyMessageService?)
      modifies this`forceReply
      ensures marshalled.None? ==> t == null && forceReply == old(forceReply)
      ensures marshalled.Some? ==> t == this && forceReply == marshalled
    {
      if marshalled.None? {
        return null;
      }
      forceReply := marshalled;
      t := this;
    }

    /** The `setParam` calls `Do` makes, in order; a call that is skipped because its
        field is unset has value `None`. */
    ghost function Plan(): Writes
      reads this
    {
      var w1 := Then(NoWrites, "chat_id", IntOpt(chatID));
      var w2 := Then(w1, "from_chat_id", StrOpt(fromChatID));
      var w3 := Then(w2, "message_id", IntOpt(messageID));
      var w4 := Then(w3, "message_thread_id", IntOpt(messageThreadID));
      var w5 := Then(w4, "parse_mode", StrOpt(parseMode));
      var w6 := Then(w5, "caption_entities", StrOpt(captionEntities));
      var w7 := Then(w6, "disable_notification", BoolOpt(disableNotification));
      var w8 := Then(w7, "protect_content", BoolOpt(protectContent));
      var w9 := Then(w8, "reply_to_message_id", IntOpt(replyToMessageID));
      var w10 := Then(w9, "allow_sending_without_reply", BoolOpt(allowSendingWithoutReply));
      var w11 := Then(w10, "reply_markup", StrOpt(inlineKeyboardMarkup));
      var w12 := Then(w11, "reply_markup", StrOpt(replyKeyboardMarkup));
      var w13 := Then(w12, "reply_markup", StrOpt(replyKeyboardRemove));
      var w14 := Then(w13, "reply_markup", StrOpt(forceReply));
      w14
    }

    /** The value the calls leave at `chat_id`. */
    lemma PlanChatID()
      ensures HoldsIfSet(OrEmpty(Written(Plan())), "chat_id", IntOpt(chatID))
    {
      var w0 := NoWrites;
      var w1 := Then(w0, "chat_id", IntOpt(chatID));
      var w2 := Then(w1, "from_chat_id", StrOpt(fromChatID));
      var w3 := Then(w2, "message_id", IntOpt(messageID));
      var w4 := Then(w3, "message_thread_id", IntOpt(messageThreadID));
      var w5 := Then(w4, "parse_mode", StrOpt(parseMode));
      var w6 := Then(w5, "caption_entities", StrOpt(captionEntities));
      var w7 := Then(w6, "disable_notification", BoolOpt(disableNotification));
      var w8 := Then(w7, "protect_content", BoolOpt(protectContent));
      var w9 := Then(w8, "reply_to_message_id", IntOpt(replyToMessageID));
      var w10 := Then(w9, "allow_sending_without_reply", BoolOpt(allowSendingWithoutReply));
      var w11 := Then(w10, "reply_markup", StrOpt(inlineKeyboardMarkup));
      var w12 := Then(w11, "reply_markup", StrOpt(replyKeyboardMarkup));
      var w13 := Then(w12, "reply_markup", StrOpt(replyKeyboardRemove));
      var w14 := Then(w13, "reply_markup", StrOpt(forceReply));
      LastSetOther(w1, "from_chat_id", StrOpt(fromChatID), "chat_id");
      LastSetOther(w2, "message_id", IntOpt(messageID), "chat_id");
      LastSetOther(w3, "message_thread_id", IntOpt(messageThreadID), "chat_id");
      LastSetOther(w4, "parse_mode", StrOpt(parseMode), "chat_id");
      LastSetOther(w5, "caption_entities", StrOpt(captionEntities), "chat_id");
      LastSetOther(w6, "disable_notification", BoolOpt(disableNotification), "chat_id");
      LastSetOther(w7, "protect_content", BoolOpt(protectContent), "chat_id");
      LastSetOther(w8, "reply_to_message_id", IntOpt(replyToMessageID), "chat_id");
      LastSetOther(w9, "allow_sending_without_reply", BoolOpt(allowSendingWithoutReply), "chat_id");
      LastSetOther(w10, "reply_markup", StrOpt(inlineKeyboardMarkup), "chat_id");
      LastSetOther(w11, "reply_markup", StrOpt(replyKeyboardMarkup), "chat_id");
      LastSetOther(w12, "reply_markup", StrOpt(replyKeyboardRemove), "chat_id");
      LastSetOther(w13, "reply_markup", StrOpt(forceReply), "chat_id");
      WrittenLastSet(w14, "chat_id");
    }

    /** The value the calls leave at `from_chat_id`. */
    lemma PlanFromChatID()
      ensures HoldsIfSet(OrEmpty(Written(Plan())), "from_chat_id", StrOpt(fromChatID))
    {
      var w0 := NoWrites;
      var w1 := Then(w0, "chat_id", IntOpt(chatID));
      var w2 := Then(w1, "from_chat_id", StrOpt(fromChatID));
      var w3 := Then(w2, "message_id", IntOpt(messageID));
      var w4 := Then(w3, "message_thread_id", IntOpt(messageThreadID));
      var w5 := Then(w4, "parse_mode", StrOpt(parseMode));
      var w6 := Then(w5, "caption_entities", StrOpt(captionEntities));
      var w7 := Then(w6, "disable_notification", BoolOpt(disableNotification));
      var w8 := Then(w7, "protect_content", BoolOpt(protectContent));
      var w9 := Then(w8, "reply_to_message_id", IntOpt(replyToMessageID));
      var w10 := Then(w9, "allow_sending_without_reply", BoolOpt(allowSendingWithoutReply));
      var w11 := Then(w10, "reply_markup", StrOpt(inlineKeyboardMarkup));
      var w12 := Then(w11, "reply_markup", StrOpt(replyKeyboardMarkup));
      var w13 := Then(w12, "reply_markup", StrOpt(replyKeyboardRemove));
      var w14 := Then(w13, "reply_markup", StrOpt(forceReply));
      LastSetOther(w0, "chat_id", IntOpt(chatID), "from_chat_id");
      LastSetOther(w2, "message_id", IntOpt(messageID), "from_chat_id");
      LastSetOther(w3, "message_thread_id", IntOpt(messageThreadID), "from_chat_id");
      LastSetOther(w4, "parse_mode", StrOpt(parseMode), "from_chat_id");
      LastSetOther(w5, "caption_entities", StrOpt(captionEntities), "from_chat_id");
      LastSetOther(w6, "disable_notification", BoolOpt(disableNotification), "from_chat_id");
      LastSetOther(w7, "protect_content", BoolOpt(protectContent), "from_chat_id");
      LastSetOther(w8, "reply_to_message_id", IntOpt(replyToMessageID), "from_chat_id");
      LastSetOther(w9, "allow_sending_without_reply", BoolOpt(allowSendingWithoutReply), "from_chat_id");
      LastSetOther(w10, "reply_markup", StrOpt(inlineKeyboardMarkup), "from_chat_id");
      LastSetOther(w11, "reply_markup", StrOpt(replyKeyboardMarkup), "from_chat_id");
      LastSetOther(w12, "reply_markup", StrOpt(replyKeyboardRemove), "from_chat_id");
      LastSetOther(w13, "reply_markup", StrOpt(forceReply), "from_chat_id");
      WrittenLastSet(w14, "from_chat_id");
    }

    /** The value the calls leave at `message_id`. */
    lemma PlanMessageID()
      ensures HoldsIfSet(OrEmpty(Written(Plan())), "message_id", IntOpt(messageID))
    {
      var w0 := NoWrites;
      var w1 := Then(w0, "chat_id", IntOpt(chatID));
      var w2 := Then(w1, "from_chat_id", StrOpt(fromChatID));
      var w3 := Then(w2, "message_id", IntOpt(messageID));
      var w4 := Then(w3, "message_thread_id", IntOpt(messageThreadID));
      var w5 := Then(w4, "parse_mode", StrOpt(parseMode));
      var w6 := Then(w5, "caption_entities", StrOpt(captionEntities));
      var w7 := Then(w6, "disable_notification", BoolOpt(disableNotification));
      var w8 := Then(w7, "protect_content", BoolOpt(protectContent));
      var w9 := Then(w8, "reply_to_message_id", IntOpt(replyToMessageID));
      var w10 := Then(w9, "allow_sending_without_reply", BoolOpt(allowSendingWithoutReply));
      var w11 := Then(w10, "reply_markup", StrOpt(inlineKeyboardMarkup));
      var w12 := Then(w11, "reply_markup", StrOpt(replyKeyboardMarkup));
      var w13 := Then(w12, "reply_markup", StrOpt(replyKeyboardRemove));
      var w14 := Then(w13, "reply_markup", StrOpt(forceReply));
      LastSetOther(w0, "chat_id", IntOpt(chatID), "message_id");
      LastSetOther(w1, "from_chat_id", StrOpt(fromChatID), "message_id");
      LastSetOther(w3, "message_thread_id", IntOpt(messageThreadID), "message_id");
      LastSetOther(w4, "parse_mode", StrOpt(parseMode), "message_id");
      LastSetOther(w5, "caption_entities", StrOpt(captionEntities), "message_id");
      LastSetOther(w6, "disable_notification", BoolOpt(disableNotification), "message_id");
      LastSetOther(w7, "protect_content", BoolOpt(protectContent), "message_id");
      LastSetOther(w8, "reply_to_message_id", IntOpt(replyToMessageID), "message_id");
      LastSetOther(w9, "allow_sending_without_reply", BoolOpt(allowSendingWithoutReply), "message_id");
      LastSetOther(w10, "reply_markup", StrOpt(inlineKeyboardMarkup), "message_id");
      LastSetOther(w11, "reply_markup", StrOpt(replyKeyboardMarkup), "message_id");
      LastSetOther(w12, "reply_markup", StrOpt(replyKeyboardRemove), "message_id");
      LastSetOther(w13, "reply_markup", StrOpt(forceReply), "message_id");
      WrittenLastSet(w14, "message_id");
    }

    /** The value the calls leave at `message_thread_id`. */
    lemma PlanMessageThreadID()
      ensures HoldsIfSet(OrEmpty(Written(Plan())), "message_thread_id", IntOpt(messageThreadID))
    {
      var w0 := NoWrites;
      var w1 := Then(w0, "chat_id", IntOpt(chatID));
      var w2 := Then(w1, "from_chat_id", StrOpt(fromChatID));
      var w3 := Then(w2, "message_id", IntOpt(messageID));
      var w4 := Then(w3, "message_thread_id", IntOpt(messageThreadID));
      var w5 := Then(w4, "parse_mode", StrOpt(parseMode));
      var w6 := Then(w5, "caption_entities", StrOpt(captionEntities));
      var w7 := Then(w6, "disable_notification", BoolOpt(disableNotification));
      var w8 := Then(w7, "protect_content", BoolOpt(protectContent));
      var w9 := Then(w8, "reply_to_message_id", IntOpt(replyToMessageID));
      var w10 := Then(w9, "allow_sending_without_reply", BoolOpt(allowSendingWithoutReply));
      var w11 := Then(w10, "reply_markup", StrOpt(inlineKeyboardMarkup));
      var w12 := Then(w11, "reply_markup", StrOpt(replyKeyboardMarkup));
      var w13 := Then(w12, "reply_markup", StrOpt(replyKeyboardRemove));
      var w14 := Then(w13, "reply_markup", StrOpt(forceReply));
      LastSetOther(w0, "chat_id", IntOpt(chatID), "message_thread_id");
      LastSetOther(w1, "from_chat_id", StrOpt(fromChatID), "message_thread_id");
      LastSetOther(w2, "message_id", IntOpt(messageID), "message_thread_id");
      LastSetOther(w4, "parse_mode", StrOpt(parseMode), "message_thread_id");
      LastSetOther(w5, "caption_entities", StrOpt(captionEntities), "message_thread_id");
      LastSetOther(w6, "disable_notification", BoolOpt(disableNotification), "message_thread_id");
      LastSetOther(w7, "protect_content", BoolOpt(protectContent), "message_thread_id");
      LastSetOther(w8, "reply_to_message_id", IntOpt(replyToMessageID), "message_thread_id");
      LastSetOther(w9, "allow_sending_without_reply", BoolOpt(allowSendingWithoutReply), "message_thread_id");
      LastSetOther(w10, "reply_markup", StrOpt(inlineKeyboardMarkup), "message_thread_id");
      LastSetOther(w11, "reply_markup", StrOpt(replyKeyboardMarkup), "message_thread_id");
      LastSetOther(w12, "reply_markup", StrOpt(replyKeyboardRemove), "message_thread_id");
      LastSetOther(w13, "reply_markup", StrOpt(forceReply), "message_thread_id");
      WrittenLastSet(w14, "message_thread_id");
    }

    /** The value the calls leave at `parse_mode`. */
    lemma PlanParseMode()
      ensures HoldsIfSet(OrEmpty(Written(Plan())), "parse_mode", StrOpt(parseMode))
    {
      var w0 := NoWrites;
      var w1 := Then(w0, "chat_id", IntOpt(chatID));
      var w2 := Then(w1, "from_chat_id", StrOpt(fromChatID));
      var w3 := Then(w2, "message_id", IntOpt(messageID));
      var w4 := Then(w3, "message_thread_id", IntOpt(messageThreadID));
      var w5 := Then(w4, "parse_mode", StrOpt(parseMode));
      var w6 := Then(w5, "caption_entities", StrOpt(captionEntities));
      var w7 := Then(w6, "disable_notification", BoolOpt(disableNotification));
      var w8 := Then(w7, "protect_content", BoolOpt(protectContent));
      var w9 := Then(w8, "reply_to_message_id", IntOpt(replyToMessageID));
      var w10 := Then(w9, "allow_sending_without_reply", BoolOpt(allowSendingWithoutReply));
      var w11 := Then(w10, "reply_markup", StrOpt(inlineKeyboardMarkup));
      var w12 := Then(w11, "reply_markup", StrOpt(replyKeyboardMarkup));
      var w13 := Then(w12, "reply_markup", StrOpt(replyKeyboardRemove));
      var w14 := Then(w13, "reply_markup", StrOpt(forceReply));
      LastSetOther(w0, "chat_id", IntOpt(chatID), "parse_mode");
      LastSetOther(w1, "from_chat_id", StrOpt(fromChatID), "parse_mode");
      LastSetOther(w2, "message_id", IntOpt(messageID), "parse_mode");
      LastSetOther(w3, "message_thread_id", IntOpt(messageThreadID), "parse_mode");
      LastSetOther(w5, "caption_entities", StrOpt(captionEntities), "parse_mode");
      LastSetOther(w6, "disable_notification", BoolOpt(disableNotification), "parse_mode");
      LastSetOther(w7, "protect_content", BoolOpt(protectContent), "parse_mode");
      LastSetOther(w8, "reply_to_message_id", IntOpt(replyToMessageID), "parse_mode");
      LastSetOther(w9, "allow_sending_without_reply", BoolOpt(allowSendingWithoutReply), "parse_mode");
      LastSetOther(w10, "reply_markup", StrOpt(inlineKeyboardMarkup), "parse_mode");
      LastSetOther(w11, "reply_markup", StrOpt(replyKeyboardMarkup), "parse_mode");
      LastSetOther(w12, "reply_markup", StrOpt(replyKeyboardRemove), "parse_mode");
      LastSetOther(w13, "reply_markup", StrOpt(forceReply), "parse_mode");
      WrittenLastSet(w14, "parse_mode");
    }

    /** The value the calls leave at `caption_entities`. */
    lemma PlanCaptionEntities()
      ensures HoldsIfSet(OrEmpty(Written(Plan())), "caption_entities", StrOpt(captionEntities))
    {
      var w0 := NoWrites;
      var w1 := Then(w0, "chat_id", IntOpt(chatID));
      var w2 := Then(w1, "from_chat_id", StrOpt(fromChatID));
      var w3 := Then(w2, "message_id", IntOpt(messageID));
      var w4 := Then(w3, "message_thread_id", IntOpt(messageThreadID));
      var w5 := Then(w4, "parse_mode", StrOpt(parseMode));
      var w6 := Then(w5, "caption_entities", StrOpt(captionEntities));
      var w7 := Then(w6, "disable_notification", BoolOpt(disableNotification));
      var w8 := Then(w7, "protect_content", BoolOpt(protectContent));
      var w9 := Then(w8, "reply_to_message_id", IntOpt(replyToMessageID));
      var w10 := Then(w9, "allow_sending_without_reply", BoolOpt(allowSendingWithoutReply));
      var w11 := Then(w10, "reply_markup", StrOpt(inlineKeyboardMarkup));
      var w12 := Then(w11, "reply_markup", StrOpt(replyKeyboardMarkup));
      var w13 := Then(w12, "reply_markup", StrOpt(replyKeyboardRemove));
      var w14 := Then(w13, "reply_markup", StrOpt(forceReply));
      LastSetOther(w0, "chat_id", IntOpt(chatID), "caption_entities");
      LastSetOther(w1, "from_chat_id", StrOpt(fromChatID), "caption_entities");
      LastSetOther(w2, "message_id", IntOpt(messageID), "caption_entities");
      LastSetOther(w3, "message_thread_id", IntOpt(messageThreadID), "caption_entities");
      LastSetOther(w4, "parse_mode", StrOpt(parseMode), "caption_entities");
      LastSetOther(w6, "disable_notification", BoolOpt(disableNotification), "caption_entities");
      LastSetOther(w7, "protect_content", BoolOpt(protectContent), "caption_entities");
      LastSetOther(w8, "reply_to_message_id", IntOpt(replyToMessageID), "caption_entities");
      LastSetOther(w9, "allow_sending_without_reply", BoolOpt(allowSendingWithoutReply), "caption_entities");
      LastSetOther(w10, "reply_markup", StrOpt(inlineKeyboardMarkup), "caption_entities");
      LastSetOther(w11, "reply_markup", StrOpt(replyKeyboardMarkup), "caption_entities");
      LastSetOther(w12, "reply_markup", StrOpt(replyKeyboardRemove), "caption_entities");
      LastSetOther(w13, "reply_markup", StrOpt(forceReply), "caption_entities");
      WrittenLastSet(w14, "caption_entities");
    }

    /** The value the calls leave at `disable_notification`. */
    lemma PlanDisableNotification()
      ensures HoldsIfSet(OrEmpty(Written(Plan())), "disable_notification", BoolOpt(disableNotification))
    {
      var w0 := NoWrites;
      var w1 := Then(w0, "chat_id", IntOpt(chatID));
      var w2 := Then(w1, "from_chat_id", StrOpt(fromChatID));
      var w3 := Then(w2, "message_id", IntOpt(messageID));
      var w4 := Then(w3, "message_thread_id", IntOpt(messageThreadID));
      var w5 := Then(w4, "parse_mode", StrOpt(parseMode));
      var w6 := Then(w5, "caption_entities", StrOpt(captionEntities));
      var w7 := Then(w6, "disable_notification", BoolOpt(disableNotification));
      var w8 := Then(w7, "protect_content", BoolOpt(protectContent));
      var w9 := Then(w8, "reply_to_message_id", IntOpt(replyToMessageID));
      var w10 := Then(w9, "allow_sending_without_reply", BoolOpt(allowSendingWithoutReply));
      var w11 := Then(w10, "reply_markup", StrOpt(inlineKeyboardMarkup));
      var w12 := Then(w11, "reply_markup", StrOpt(replyKeyboardMarkup));
      var w13 := Then(w12, "reply_markup", StrOpt(replyKeyboardRemove));
      var w14 := Then(w13, "reply_markup", StrOpt(forceReply));
      LastSetOther(w0, "chat_id", IntOpt(chatID), "disable_notification");
      LastSetOther(w1, "from_chat_id", StrOpt(fromChatID), "disable_notification");
      LastSetOther(w2, "message_id", IntOpt(messageID), "disable_notification");
      LastSetOther(w3, "message_thread_id", IntOpt(messageThreadID), "disable_notification");
      LastSetOther(w4, "parse_mode", StrOpt(parseMode), "disable_notification");
      LastSetOther(w5, "caption_entities", StrOpt(captionEntities), "disable_notification");
      LastSetOther(w7, "protect_content", BoolOpt(protectContent), "disable_notification");
      LastSetOther(w8, "reply_to_message_id", IntOpt(replyToMessageID), "disable_notification");
      LastSetOther(w9, "allow_sending_without_reply", BoolOpt(allowSendingWithoutReply), "disable_notification");
      LastSetOther(w10, "reply_markup", StrOpt(inlineKeyboardMarkup), "disable_notification");
      LastSetOther(w11, "reply_markup", StrOpt(replyKeyboardMarkup), "disable_notification");
      LastSetOther(w12, "reply_markup", StrOpt(replyKeyboardRemove), "disable_notification");
      LastSetOther(w13, "reply_markup", StrOpt(forceReply), "disable_notification");
      WrittenLastSet(w14, "disable_notification");
    }

    /** The value the calls leave at `protect_content`. */
    lemma PlanProtectContent()
      ensures HoldsIfSet(OrEmpty(Written(Plan())), "protect_content", BoolOpt(protectContent))
    {
      var w0 := NoWrites;
      var w1 := Then(w0, "chat_id", IntOpt(chatID));
      var w2 := Then(w1, "from_chat_id", StrOpt(fromChatID));
      var w3 := Then(w2, "message_id", IntOpt(messageID));
      var w4 := Then(w3, "message_thread_id", IntOpt(messageThreadID));
      var w5 := Then(w4, "parse_mode", StrOpt(parseMode));
      var w6 := Then(w5, "caption_entities", StrOpt(captionEntities));
      var w7 := Then(w6, "disable_notification", BoolOpt(disableNotification));
      var w8 := Then(w7, "protect_content", BoolOpt(protectContent));
      var w9 := Then(w8, "reply_to_message_id", IntOpt(replyToMessageID));
      var w10 := Then(w9, "allow_sending_without_reply", BoolOpt(allowSendingWithoutReply));
      var w11 := Then(w10, "reply_markup", StrOpt(inlineKeyboardMarkup));
      var w12 := Then(w11, "reply_markup", StrOpt(replyKeyboardMarkup));
      var w13 := Then(w12, "reply_markup", StrOpt(replyKeyboardRemove));
      var w14 := Then(w13, "reply_markup", StrOpt(forceReply));
      LastSetOther(w0, "chat_id", IntOpt(chatID), "protect_content");
      LastSetOther(w1, "from_chat_id", StrOpt(fromChatID), "protect_content");
      LastSetOther(w2, "message_id", IntOpt(messageID), "protect_content");
      LastSetOther(w3, "message_thread_id", IntOpt(messageThreadID), "protect_content");
      LastSetOther(w4, "parse_mode", StrOpt(parseMode), "protect_content");
      LastSetOther(w5, "caption_entities", StrOpt(captionEntities), "protect_content");
      LastSetOther(w6, "disable_notification", BoolOpt(disableNotification), "protect_content");
      LastSetOther(w8, "reply_to_message_id", IntOpt(replyToMessageID), "protect_content");
      LastSetOther(w9, "allow_sending_without_reply", BoolOpt(allowSendingWithoutReply), "protect_content");
      LastSetOther(w10, "reply_markup", StrOpt(inlineKeyboardMarkup), "protect_content");
      LastSetOther(w11, "reply_markup", StrOpt(replyKeyboardMarkup), "protect_content");
      LastSetOther(w12, "reply_markup", StrOpt(replyKeyboardRemove), "protect_content");
      LastSetOther(w13, "reply_markup", StrOpt(forceReply), "protect_content");
      WrittenLastSet(w14, "protect_content");
    }

    /** The value the calls leave at `reply_to_message_id`. */
    lemma PlanReplyToMessageID()
      ensures HoldsIfSet(OrEmpty(Written(Plan())), "reply_to_message_id", IntOpt(replyToMessageID))
    {
      var w0 := NoWrites;
      var w1 := Then(w0, "chat_id", IntOpt(chatID));
      var w2 := Then(w1, "from_chat_id", StrOpt(fromChatID));
      var w3 := Then(w2, "message_id", IntOpt(messageID));
      var w4 := Then(w3, "message_thread_id", IntOpt(messageThreadID));
      var w5 := Then(w4, "parse_mode", StrOpt(parseMode));
      var w6 := Then(w5, "caption_entities", StrOpt(captionEntities));
      var w7 := Then(w6, "disable_notification", BoolOpt(disableNotification));
      var w8 := Then(w7, "protect_content", BoolOpt(protectContent));
      var w9 := Then(w8, "reply_to_message_id", IntOpt(replyToMessageID));
      var w10 := Then(w9, "allow_sending_without_reply", BoolOpt(allowSendingWithoutReply));
      var w11 := Then(w10, "reply_markup", StrOpt(inlineKeyboardMarkup));
      var w12 := Then(w11, "reply_markup", StrOpt(replyKeyboardMarkup));
      var w13 := Then(w12, "reply_markup", StrOpt(replyKeyboardRemove));
      var w14 := Then(w13, "reply_markup", StrOpt(forceReply));
      LastSetOther(w0, "chat_id", IntOpt(chatID), "reply_to_message_id");
      LastSetOther(w1, "from_chat_id", StrOpt(fromChatID), "reply_to_message_id");
      LastSetOther(w2, "message_id", IntOpt(messageID), "reply_to_message_id");
      LastSetOther(w3, "message_thread_id", IntOpt(messageThreadID), "reply_to_message_id");
      LastSetOther(w4, "parse_mode", StrOpt(parseMode), "reply_to_message_id");
      LastSetOther(w5, "caption_entities", StrOpt(captionEntities), "reply_to_message_id");
      LastSetOther(w6, "disable_notification", BoolOpt(disableNotification), "reply_to_message_id");
      LastSetOther(w7, "protect_content", BoolOpt(protectContent), "reply_to_message_id");
      LastSetOther(w9, "allow_sending_without_reply", BoolOpt(allowSendingWithoutReply), "reply_to_message_id");
      LastSetOther(w10, "reply_markup", StrOpt(inlineKeyboardMarkup), "reply_to_message_id");
      LastSetOther(w11, "reply_markup", StrOpt(replyKeyboardMarkup), "reply_to_message_id");
      LastSetOther(w12, "reply_markup", StrOpt(replyKeyboardRemove), "reply_to_message_id");
      LastSetOther(w13, "reply_markup", StrOpt(forceReply), "reply_to_message_id");
      WrittenLastSet(w14, "reply_to_message_id");
    }

    /** The value the calls leave at `allow_sending_without_reply`. */
    lemma PlanAllowSendingWithoutReply()
      ensures HoldsIfSet(OrEmpty(Written(Plan())), "allow_sending_without_reply", BoolOpt(allowSendingWithoutReply))
    {
      var w0 := NoWrites;
      var w1 := Then(w0, "chat_id", IntOpt(chatID));
      var w2 := Then(w1, "from_chat_id", StrOpt(fromChatID));
      var w3 := Then(w2, "message_id", IntOpt(messageID));
      var w4 := Then(w3, "message_thread_id", IntOpt(messageThreadID));
      var w5 := Then(w4, "parse_mode", StrOpt(parseMode));
      var w6 := Then(w5, "caption_entities", StrOpt(captionEntities));
      var w7 := Then(w6, "disable_notification", BoolOpt(disableNotification));
      var w8 := Then(w7, "protect_content", BoolOpt(protectContent));
      var w9 := Then(w8, "reply_to_message_id", IntOpt(replyToMessageID));
      var w10 := Then(w9, "allow_sending_without_reply", BoolOpt(allowSendingWithoutReply));
      var w11 := Then(w10, "reply_markup", StrOpt(inlineKeyboardMarkup));
      var w12 := Then(w11, "reply_markup", StrOpt(replyKeyboardMarkup));
      var w13 := Then(w12, "reply_markup", StrOpt(replyKeyboardRemove));
      var w14 := Then(w13, "reply_markup", StrOpt(forceReply));
      LastSetOther(w0, "chat_id", IntOpt(chatID), "allow_sending_without_reply");
      LastSetOther(w1, "from_chat_id", StrOpt(fromChatID), "allow_sending_without_reply");
      LastSetOther(w2, "message_id", IntOpt(messageID), "allow_sending_without_reply");
      LastSetOther(w3, "message_thread_id", IntOpt(messageThreadID), "allow_sending_without_reply");
      LastSetOther(w4, "parse_mode", StrOpt(parseMode), "allow_sending_without_reply");
      LastSetOther(w5, "caption_entities", StrOpt(captionEntities), "allow_sending_without_reply");
      LastSetOther(w6, "disable_notification", BoolOpt(disableNotification), "allow_sending_without_reply");
      LastSetOther(w7, "protect_content", BoolOpt(protectContent), "allow_sending_without_reply");
      LastSetOther(w8, "reply_to_message_id", IntOpt(replyToMessageID), "allow_sending_without_reply");
      LastSetOther(w10, "reply_markup", StrOpt(inlineKeyboardMarkup), "allow_sending_without_reply");
      LastSetOther(w11, "reply_markup", StrOpt(replyKeyboardMarkup), "allow_sending_without_reply");
      LastSetOther(w12, "reply_markup", StrOpt(replyKeyboardRemove), "allow_sending_without_reply");
      LastSetOther(w13, "reply_markup", StrOpt(forceReply), "allow_sending_without_reply");
      WrittenLastSet(w14, "allow_sending_without_reply");
    }

    /** The value the calls leave at `reply_markup`: the last one set. */
    lemma PlanReplyMarkup()
      ensures HoldsIfSet(OrEmpty(Written(Plan())), "reply_markup", Later(Later(Later(StrOpt(inlineKeyboardMarkup), StrOpt(replyKeyboardMarkup)), StrOpt(replyKeyboardRemove)), StrOpt(forceReply)))
    {
      var w0 := NoWrites;
      var w1 := Then(w0, "chat_id", IntOpt(chatID));
      var w2 := Then(w1, "from_chat_id", StrOpt(fromChatID));
      var w3 := Then(w2, "message_id", IntOpt(messageID));
      var w4 := Then(w3, "message_thread_id", IntOpt(messageThreadID));
      var w5 := Then(w4, "parse_mode", StrOpt(parseMode));
      var w6 := Then(w5, "caption_entities", StrOpt(captionEntities));
      var w7 := Then(w6, "disable_notification", BoolOpt(disableNotification));
      var w8 := Then(w7, "protect_content", BoolOpt(protectContent));
      var w9 := Then(w8, "reply_to_message_id", IntOpt(replyToMessageID));
      var w10 := Then(w9, "allow_sending_without_reply", BoolOpt(allowSendingWithoutReply));
      var w11 := Then(w10, "reply_markup", StrOpt(inlineKeyboardMarkup));
      var w12 := Then(w11, "reply_markup", StrOpt(replyKeyboardMarkup));
      var w13 := Then(w12, "reply_markup", StrOpt(replyKeyboardRemove));
      var w14 := Then(w13, "reply_markup", StrOpt(forceReply));
      LastSetOther(w0, "chat_id", IntOpt(chatID), "reply_markup");
      LastSetOther(w1, "from_chat_id", StrOpt(fromChatID), "reply_markup");
      LastSetOther(w2, "message_id", IntOpt(messageID), "reply_markup");
      LastSetOther(w3, "message_thread_id", IntOpt(messageThreadID), "reply_markup");
      LastSetOther(w4, "parse_mode", StrOpt(parseMode), "reply_markup");
      LastSetOther(w5, "caption_entities", StrOpt(captionEntities), "reply_markup");
      LastSetOther(w6, "disable_notification", BoolOpt(disableNotification), "reply_markup");
      LastSetOther(w7, "protect_content", BoolOpt(protectContent), "reply_markup");
      LastSetOther(w8, "reply_to_message_id", IntOpt(replyToMessageID), "reply_markup");
      LastSetOther(w9, "allow_sending_without_reply", BoolOpt(allowSendingWithoutReply), "reply_markup");
      LastSetSame(w10, "reply_markup", StrOpt(inlineKeyboardMarkup));
      LastSetSame(w11, "reply_markup", StrOpt(replyKeyboardMarkup));
      LastSetSame(w12, "reply_markup", StrOpt(replyKeyboardRemove));
      LastSetSame(w13, "reply_markup", StrOpt(forceReply));
      WrittenLastSet(w14, "reply_markup");
    }

    /** The calls write no key but these. */
    lemma PlanOnly()
      ensures OrEmpty(Written(Plan())).Keys <= {"chat_id", "from_chat_id", "message_id", "message_thread_id", "parse_mode", "caption_entities", "disable_notification", "protect_content", "reply_to_message_id", "allow_sending_without_reply", "reply_markup"}
      ensures "caption" !in OrEmpty(Written(Plan()))
    {
      var w0 := NoWrites;
      var w1 := Then(w0, "chat_id", IntOpt(chatID));
      var w2 := Then(w1, "from_chat_id", StrOpt(fromChatID));
      var w3 := Then(w2, "message_id", IntOpt(messageID));
      var w4 := Then(w3, "message_thread_id", IntOpt(messageThreadID));
      var w5 := Then(w4, "parse_mode", StrOpt(parseMode));
      var w6 := Then(w5, "caption_entities", StrOpt(captionEntities));
      var w7 := Then(w6, "disable_notification", BoolOpt(disableNotification));
      var w8 := Then(w7, "protect_content", BoolOpt(protectContent));
      var w9 := Then(w8, "reply_to_message_id", IntOpt(replyToMessageID));
      var w10 := Then(w9, "allow_sending_without_reply", BoolOpt(allowSendingWithoutReply));
      var w11 := Then(w10, "reply_markup", StrOpt(inlineKeyboardMarkup));
      var w12 := Then(w11, "reply_markup", StrOpt(replyKeyboardMarkup));
      var w13 := Then(w12, "reply_markup", StrOpt(replyKeyboardRemove));
      var w14 := Then(w13, "reply_markup", StrOpt(forceReply));
      forall j | j !in {"chat_id", "from_chat_id", "message_id", "message_thread_id", "parse_mode", "caption_entities", "disable_notification", "protect_content", "reply_to_message_id", "allow_sending_without_reply", "reply_markup"}
        ensures j !in OrEmpty(Written(w14))
      {
        LastSetOther(w0, "chat_id", IntOpt(chatID), j);
        LastSetOther(w1, "from_chat_id", StrOpt(fromChatID), j);
        LastSetOther(w2, "message_id", IntOpt(messageID), j);
        LastSetOther(w3, "message_thread_id", IntOpt(messageThreadID), j);
        LastSetOther(w4, "parse_mode", StrOpt(parseMode), j);
        LastSetOther(w5, "caption_entities", StrOpt(captionEntities), j);
        LastSetOther(w6, "disable_notification", BoolOpt(disableNotification), j);
        LastSetOther(w7, "protect_content", BoolOpt(protectContent), j);
        LastSetOther(w8, "reply_to_message_id", IntOpt(replyToMessageID), j);
        LastSetOther(w9, "allow_sending_without_reply", BoolOpt(allowSendingWithoutReply), j);
        LastSetOther(w10, "reply_markup", StrOpt(inlineKeyboardMarkup), j);
        LastSetOther(w11, "reply_markup", StrOpt(replyKeyboardMarkup), j);
        LastSetOther(w12, "reply_markup", StrOpt(replyKeyboardRemove), j);
        LastSetOther(w13, "reply_markup", StrOpt(forceReply), j);
        WrittenLastSet(w14, j);
      }
    }

    /** The request `Do` builds before it calls the API: the endpoint, and a query made
        by the `setParam` calls of `Plan`. */
    method Assemble() returns (r: Request)
      ensures fresh(r)
      ensures r.Fields() == RequestFields(MethodGet, "/copyMessage", Written(Plan()), None, None, None, "", [])
    {
      r := new Request(MethodGet, "/copyMessage");
      ghost var done := NoWrites;
      var _ := r.SetParamIfSet("chat_id", IntOpt(chatID), done);
      done := Then(done, "chat_id", IntOpt(chatID));
      var _ := r.SetParamIfSet("from_chat_id", StrOpt(fromChatID), done);
      done := Then(done, "from_chat_id", StrOpt(fromChatID));
      var _ := r.SetParamIfSet("message_id", IntOpt(messageID), done);
      done := Then(done, "message_id", IntOpt(messageID));
      var _ := r.SetParamIfSet("message_thread_id", IntOpt(messageThreadID), done);
      done := Then(done, "message_thread_id", IntOpt(messageThreadID));
      var _ := r.SetParamIfSet("parse_mode", StrOpt(parseMode), done);
      done := Then(done, "parse_mode", StrOpt(parseMode));
      var _ := r.SetParamIfSet("caption_entities", StrOpt(captionEntities), done);
      done := Then(done, "caption_entities", StrOpt(captionEntities));
      var _ := r.SetParamIfSet("disable_notification", BoolOpt(disableNotification), done);
      done := Then(done, "disable_notification", BoolOpt(disableNotification));
      var _ := r.SetParamIfSet("protect_content", BoolOpt(protectContent), done);
      done := Then(done, "protect_content", BoolOpt(protectContent));
      var _ := r.SetParamIfSet("reply_to_message_id", IntOpt(replyToMessageID), done);
      done := Then(done, "reply_to_message_id", IntOpt(replyToMessageID));
      var _ := r.SetParamIfSet("allow_sending_without_reply", BoolOpt(allowSendingWithoutReply), done);
      done := Then(done, "allow_sending_without_reply", BoolOpt(allowSendingWithoutReply));
      var _ := r.SetParamIfSet("reply_markup", StrOpt(inlineKeyboardMarkup), done);
      done := Then(done, "reply_markup", StrOpt(inlineKeyboardMarkup));
      var _ := r.SetParamIfSet("reply_markup", StrOpt(replyKeyboardMarkup), done);
      done := Then(done, "reply_markup", StrOpt(replyKeyboardMarkup));
      var _ := r.SetParamIfSet("reply_markup", StrOpt(replyKeyboardRemove), done);
      done := Then(done, "reply_markup", StrOpt(replyKeyboardRemove));
      var _ := r.SetParamIfSet("reply_markup", StrOpt(forceReply), done);
      done := Then(done, "reply_markup", StrOpt(forceReply));
      assert done == Plan();
    }

    /** `Do`: Always sets `chat_id`, `from_chat_id`, `message_id`; sets each of the other keys only when its field is set; then calls the API. */
    method Do(opts: seq<RequestOption>) returns (assembled: RequestFields, res: Option<Bytes>, err: Option<Error>)
      requires chatID.Some? && fromChatID.Some? && messageID.Some?
      ensures assembled.httpMethod == MethodGet && assembled.endpoint == "/copyMessage"
      ensures assembled.form == None && assembled.header == None && assembled.body == None
      ensures assembled.fullURL == "" && assembled.json == []
      ensures Holds(Q(assembled), "chat_id", Int(chatID.value as int))
      ensures Holds(Q(assembled), "from_chat_id", Str(fromChatID.value))
      ensures Holds(Q(assembled), "message_id", Int(messageID.value as int))
      ensures HoldsIfSet(Q(assembled), "message_thread_id", IntOpt(messageThreadID))
      ensures HoldsIfSet(Q(assembled), "parse_mode", StrOpt(parseMode))
      ensures HoldsIfSet(Q(assembled), "caption_entities", StrOpt(captionEntities))
      ensures HoldsIfSet(Q(assembled), "disable_notification", BoolOpt(disableNotification))
      ensures HoldsIfSet(Q(assembled), "protect_content", BoolOpt(protectContent))
      ensures HoldsIfSet(Q(assembled), "reply_to_message_id", IntOpt(replyToMessageID))
      ensures HoldsIfSet(Q(assembled), "allow_sending_without_reply", BoolOpt(allowSendingWithoutReply))
      ensures HoldsIfSet(Q(assembled), "reply_markup", Later(Later(Later(StrOpt(inlineKeyboardMarkup), StrOpt(replyKeyboardMarkup)), StrOpt(replyKeyboardRemove)), StrOpt(forceReply)))
      ensures Q(assembled).Keys <= {"chat_id", "from_chat_id", "message_id", "message_thread_id", "parse_mode", "caption_entities", "disable_notification", "protect_content", "reply_to_message_id", "allow_sending_without_reply", "reply_markup"}
      ensures "caption" !in Q(assembled)
      ensures var o := c.Outcome(assembled, opts);
        err == o.1 && res == (if o.1.Some? then None else o.0)
    {
      var r := Assemble();
      assembled := r.Fields();
      var data, e := c.CallAPI(r, opts);
      PlanOnly();
      PlanChatID();
      PlanFromChatID();
      PlanMessageID();
      PlanMessageThreadID();
      PlanParseMode();
      PlanCaptionEntities();
      PlanDisableNotification();
      PlanProtectContent();
      PlanReplyToMessageID();
      PlanAllowSendingWithoutReply();
      PlanReplyMarkup();
      if e.Some? {
        return assembled, None, e;
      }
      res, err := data, None;
    }
  }

  /** `SendPhotoService`: a GET request to `/sendPhoto`. */
  class SendPhotoService {
    const c: Client
    var chatID: Option<int64>
    var messageThreadID: Option<int64>
    var photo: Option<InputFile>
    var photoString: Option<string>
    var caption: Option<string>
    var parseMode: Option<string>
    var captionEntities: Option<string>
    var disableNotification: Option<bool>
    var protectContent: Option<bool>
    var replyToMessageID: Option<int64>
    var allowSendingWithoutReply: Option<bool>
    var inlineKeyboardMarkup: Option<string>
    var replyKeyboardMarkup: Option<string>
    var replyKeyboardRemove: Option<string>
    var forceReply: Option<string>

    /** `NewSendPhotoService`: every field starts out unset. */
    constructor (c: Client)
      ensures this.c == c
      ensures chatID == None && messageThreadID == None && photo == None
      ensures photoString == None && caption == None && parseMode == None
      ensures captionEntities == None && disableNotification == None && protectContent == None
      ensures replyToMessageID == None && allowSendingWithoutReply == None && inlineKeyboardMarkup == None
      ensures replyKeyboardMarkup == None && replyKeyboardRemove == None && forceReply == None
    {
      this.c := c;
      chatID := None;
      messageThreadID := None;
      photo := None;
      photoString := None;
      caption := None;
      parseMode := None;
      captionEntities := None;
      disableNotification := None;
      protectContent := None;
      replyToMessageID := None;
      allowSendingWithoutReply := None;
      inlineKeyboardMarkup := None;
      replyKeyboardMarkup := None;
      replyKeyboardRemove := None;
      forceReply := None;
    }

    /** `ChatID`: stores its argument in `chatID`. */
    method ChatID(chatID: int64) returns (t: SendPhotoService)
      modifies this`chatID
      ensures this.chatID == Some(chatID) && t == this
    {
      this.chatID := Some(chatID);
      t := this;
    }

    /** `MessageThreadID`: stores its argument in `messageThreadID`. */
    method MessageThreadID(messageThreadID: int64) returns (t: SendPhotoService)
      modifies this`messageThreadID
      ensures this.messageThreadID == Some(messageThreadID) && t == this
    {
      this.messageThreadID := Some(messageThreadID);
      t := this;
    }

    /** `ParseMode`: stores its argument in `parseMode`. */
    method ParseMode(parseMode: string) returns (t: SendPhotoService)
      modifies this`parseMode
      ensures this.parseMode == Some(parseMode) && t == this
    {
      this.parseMode := Some(parseMode);
      t := this;
    }

    /** `CaptionEntities`: stores the JSON text of its argument in `captionEntities`. `marshalled` is what
        `jsoniter.Marshal` makes of the argument, `None` when marshalling fails; then
        nothing changes and the result is nil. */
    method CaptionEntities(marshalled: Option<string>) returns (t: SendPhotoService?)
      modifies this`captionEntities
      ensures marshalled.None? ==> t == null && captionEntities == old(captionEntities)
      ensures marshalled.Some? ==> t == this && captionEntities == marshalled
    {
      if marshalled.None? {
        return null;
      }
      captionEntities := marshalled;
      t := this;
    }

    /** `Photo`: stores its argument in `photo`. */
    method Photo(photo: InputFile) returns (t: SendPhotoService)
      modifies this`photo
      ensures this.photo == Some(photo) && t == this
    {
      this.photo := Some(photo);
      t := this;
    }

    /** `PhotoString`: stores its argument in `photoString`. */
    method PhotoString(photoString: string) returns (t: SendPhotoService)
      modifies this`photoString
      ensures this.photoString == Some(photoString) && t == this
    {
      this.photoString := Some(photoString);
      t := this;
    }

    /** `DisableNotification`: stores its argument in `disableNotification`. */
    method DisableNotification(disableNotification: bool) returns (t: SendPhotoService)
      modifies this`disableNotification
      ensures this.disableNotification == Some(disableNotification) && t == this
    {
      this.disableNotification := Some(disableNotification);
      t := this;
    }

    /** `ProtectContent`: stores its argument in `protectContent`. */
    method ProtectContent(protectContent: bool) returns (t: SendPhotoService)
      modifies this`protectContent
      ensures this.protectContent == Some(protectContent) && t == this
    {
      this.protectContent := Some(protectContent);
      t := this;
    }

    /** `ReplyToMessageID`: stores its argument in `replyToMessageID`. */
    method ReplyToMessageID(replyToMessageID: int64) returns (t: SendPhotoService)
      modifies this`replyToMessageID
      ensures this.replyToMessageID == Some(replyToMessageID) && t == this
    {
      this.replyToMessageID := Some(replyToMessageID);
      t := this;
    }

    /** `AllowSendingWithoutReply`: stores its argument in `allowSendingWithoutReply`. */
    method AllowSendingWithoutReply(allowSendingWithoutReply: bool) returns (t: SendPhotoService)
      modifies this`allowSendingWithoutReply
      ensures this.allowSendingWithoutReply == Some(allowSendingWithoutReply) && t == this
    {
      this.allowSendingWithoutReply := Some(allowSendingWithoutReply);
      t := this;
    }

    /** `InlineKeyboardMarkup`: stores the JSON text of its argument in `inlineKeyboardMarkup`. `marshalled` is what
        `jsoniter.Marshal` makes of the argument, `None` when marshalling fails; then
        nothing changes and the result is nil. */
    method InlineKeyboardMarkup(marshalled: Option<string>) returns (t: SendPhotoService?)
      modifies this`inlineKeyboardMarkup
      ensures marshalled.None? ==> t == null && inlineKeyboardMarkup == old(inlineKeyboardMarkup)
      ensures marshalled.Some? ==> t == this && inlineKeyboardMarkup == marshalled
    {
      if marshalled.None? {
        return null;
      }
      inlineKeyboardMarkup := marshalled;
      t := this;
    }

    /** `ReplyKeyboardMarkup`: stores the JSON text of its argument in `replyKeyboardMarkup`. `marshalled` is what
        `jsoniter.Marshal` makes of the argument, `None` when marshalling fails; then
        nothing changes and the result is nil. */
    method ReplyKeyboardMarkup(marshalled: Option<string>) returns (t: SendPhotoService?)
      modifies this`replyKeyboardMarkup
      ensures marshalled.None? ==> t == null && replyKeyboardMarkup == old(replyKeyboardMarkup)
      ensures marshalled.Some? ==> t == this && replyKeyboardMarkup == marshalled
    {
      if marshalled.None? {
        return null;
      }
      replyKeyboardMarkup := marshalled;
      t := this;
    }

    /** `ReplyKeyboardRemove`: stores the JSON text of its argument in `replyKeyboardRemove`. `marshalled` is what
        `jsoniter.Marshal` makes of the argument, `None` when marshalling fails; then
        nothing changes and the result is nil. */
    method ReplyKeyboardRemove(marshalled: Option<string>) returns (t: SendPhotoService?)
      modifies this`replyKeyboardRemove
      ensures marshalled.None? ==> t == null && replyKeyboardRemove == old(replyKeyboardRemove)
      ensures marshalled.Some? ==> t == this && replyKeyboardRemove == marshalled
    {
      if marshalled.None? {
        return null;
      }
      replyKeyboardRemove := marshalled;
      t := this;
    }

    /** `ForceReply`: stores the JSON text of its argument in `forceReply`. `marshalled` is what
        `jsoniter.Marshal` makes of the argument, `None` when marshalling fails; then
        nothing changes and the result is nil. */
    method ForceReply(marshalled: Option<string>) returns (t: SendPhotoService?)
      modifies this`forceReply
      ensures marshalled.None? ==> t == null && forceReply == old(forceReply)
      ensures marshalled.Some? ==> t == this && forceReply == marshalled
    {
      if marshalled.None? {
        return null;
      }
      forceReply := marshalled;
      t := this;
    }

    /** The `setParam` calls `Do` makes, in order; a call that is skipped because its
        field is unset has value `None`. */
    ghost function Plan(): Writes
      reads this
    {
      var w1 := Then(NoWrites, "chat_id", IntOpt(chatID));
      var w2 := Then(w1, "photo", FileOpt(photo));
      var w3 := Then(w2, "photo", StrOpt(photoString));
      var w4 := Then(w3, "message_thread_id", IntOpt(messageThreadID));
      var w5 := Then(w4, "parse_mode", StrOpt(parseMode));
      var w6 := Then(w5, "caption_entities", StrOpt(captionEntities));
      var w7 := Then(w6, "disable_notification", BoolOpt(disableNotification));
      var w8 := Then(w7, "protect_content", BoolOpt(protectContent));
      var w9 := Then(w8, "reply_to_message_id", IntOpt(replyToMessageID));
      var w10 := Then(w9, "allow_sending_without_reply", BoolOpt(allowSendingWithoutReply));
      var w11 := Then(w10, "reply_markup", StrOpt(inlineKeyboardMarkup));
      var w12 := Then(w11, "reply_markup", StrOpt(replyKeyboardMarkup));
      var w13 := Then(w12, "reply_markup", StrOpt(replyKeyboardRemove));
      var w14 := Then(w13, "reply_markup", StrOpt(forceReply));
      w14
    }

    /** The value the calls leave at `chat_id`. */
    lemma PlanChatID()
      ensures HoldsIfSet(OrEmpty(Written(Plan())), "chat_id", IntOpt(chatID))
    {
      var w0 := NoWrites;
      var w1 := Then(w0, "chat_id", IntOpt(chatID));
      var w2 := Then(w1, "photo", FileOpt(photo));
      var w3 := Then(w2, "photo", StrOpt(photoString));
      var w4 := Then(w3, "message_thread_id", IntOpt(messageThreadID));
      var w5 := Then(w4, "parse_mode", StrOpt(parseMode));
      var w6 := Then(w5, "caption_entities", StrOpt(captionEntities));
      var w7 := Then(w6, "disable_notification", BoolOpt(disableNotification));
      var w8 := Then(w7, "protect_content", BoolOpt(protectContent));
      var w9 := Then(w8, "reply_to_message_id", IntOpt(replyToMessageID));
      var w10 := Then(w9, "allow_sending_without_reply", BoolOpt(allowSendingWithoutReply));
      var w11 := Then(w10, "reply_markup", StrOpt(inlineKeyboardMarkup));
      var w12 := Then(w11, "reply_markup", StrOpt(replyKeyboardMarkup));
      var w13 := Then(w12, "reply_markup", StrOpt(replyKeyboardRemove));
      var w14 := Then(w13, "reply_markup", StrOpt(forceReply));
      LastSetOther(w1, "photo", FileOpt(photo), "chat_id");
      LastSetOther(w2, "photo", StrOpt(photoString), "chat_id");
      LastSetOther(w3, "message_thread_id", IntOpt(messageThreadID), "chat_id");
      LastSetOther(w4, "parse_mode", StrOpt(parseMode), "chat_id");
      LastSetOther(w5, "caption_entities", StrOpt(captionEntities), "chat_id");
      LastSetOther(w6, "disable_notification", BoolOpt(disableNotification), "chat_id");
      LastSetOther(w7, "protect_content", BoolOpt(protectContent), "chat_id");
      LastSetOther(w8, "reply_to_message_id", IntOpt(replyToMessageID), "chat_id");
      LastSetOther(w9, "allow_sending_without_reply", BoolOpt(allowSendingWithoutReply), "chat_id");
      LastSetOther(w10, "reply_markup", StrOpt(inlineKeyboardMarkup), "chat_id");
      LastSetOther(w11, "reply_markup", StrOpt(replyKeyboardMarkup), "chat_id");
      LastSetOther(w12, "reply_markup", StrOpt(replyKeyboardRemove), "chat_id");
      LastSetOther(w13, "reply_markup", StrOpt(forceReply), "chat_id");
      WrittenLastSet(w14, "chat_id");
    }

    /** The value the calls leave at `photo`: the last one set. */
    lemma PlanPhoto()
      ensures HoldsIfSet(OrEmpty(Written(Plan())), "photo", Later(FileOpt(photo), StrOpt(photoString)))
    {
      var w0 := NoWrites;
      var w1 := Then(w0, "chat_id", IntOpt(chatID));
      var w2 := Then(w1, "photo", FileOpt(photo));
      var w3 := Then(w2, "photo", StrOpt(photoString));
      var w4 := Then(w3, "message_thread_id", IntOpt(messageThreadID));
      var w5 := Then(w4, "parse_mode", StrOpt(parseMode));
      var w6 := Then(w5, "caption_entities", StrOpt(captionEntities));
      var w7 := Then(w6, "disable_notification", BoolOpt(disableNotification));
      var w8 := Then(w7, "protect_content", BoolOpt(protectContent));
      var w9 := Then(w8, "reply_to_message_id", IntOpt(replyToMessageID));
      var w10 := Then(w9, "allow_sending_without_reply", BoolOpt(allowSendingWithoutReply));
      var w11 := Then(w10, "reply_markup", StrOpt(inlineKeyboardMarkup));
      var w12 := Then(w11, "reply_markup", StrOpt(replyKeyboardMarkup));
      var w13 := Then(w12, "reply_markup", StrOpt(replyKeyboardRemove));
      var w14 := Then(w13, "reply_markup", StrOpt(forceReply));
      LastSetOther(w0, "chat_id", IntOpt(chatID), "photo");
      LastSetSame(w1, "photo", FileOpt(photo));
      LastSetSame(w2, "photo", StrOpt(photoString));
      LastSetOther(w3, "message_thread_id", IntOpt(messageThreadID), "photo");
      LastSetOther(w4, "parse_mode", StrOpt(parseMode), "photo");
      LastSetOther(w5, "caption_entities", StrOpt(captionEntities), "photo");
      LastSetOther(w6, "disable_notification", BoolOpt(disableNotification), "photo");
      LastSetOther(w7, "protect_content", BoolOpt(protectContent), "photo");
      LastSetOther(w8, "reply_to_message_id", IntOpt(replyToMessageID), "photo");
      LastSetOther(w9, "allow_sending_without_reply", BoolOpt(allowSendingWithoutReply), "photo");
      LastSetOther(w10, "reply_markup", StrOpt(inlineKeyboardMarkup), "photo");
      LastSetOther(w11, "reply_markup", StrOpt(replyKeyboardMarkup), "photo");
      LastSetOther(w12, "reply_markup", StrOpt(replyKeyboardRemove), "photo");
      LastSetOther(w13, "reply_markup", StrOpt(forceReply), "photo");
      WrittenLastSet(w14, "photo");
    }

    /** The value the calls leave at `message_thread_id`. */
    lemma PlanMessageThreadID()
      ensures HoldsIfSet(OrEmpty(Written(Plan())), "message_thread_id", IntOpt(messageThreadID))
    {
      var w0 := NoWrites;
      var w1 := Then(w0, "chat_id", IntOpt(chatID));
      var w2 := Then(w1, "photo", FileOpt(photo));
      var w3 := Then(w2, "photo", StrOpt(photoString));
      var w4 := Then(w3, "message_thread_id", IntOpt(messageThreadID));
      var w5 := Then(w4, "parse_mode", StrOpt(parseMode));
      var w6 := Then(w5, "caption_entities", StrOpt(captionEntities));
      var w7 := Then(w6, "disable_notification", BoolOpt(disableNotification));
      var w8 := Then(w7, "protect_content", BoolOpt(protectContent));
      var w9 := Then(w8, "reply_to_message_id", IntOpt(replyToMessageID));
      var w10 := Then(w9, "allow_sending_without_reply", BoolOpt(allowSendingWithoutReply));
      var w11 := Then(w10, "reply_markup", StrOpt(inlineKeyboardMarkup));
      var w12 := Then(w11, "reply_markup", StrOpt(replyKeyboardMarkup));
      var w13 := Then(w12, "reply_markup", StrOpt(replyKeyboardRemove));
      var w14 := Then(w13, "reply_markup", StrOpt(forceReply));
      LastSetOther(w0, "chat_id", IntOpt(chatID), "message_thread_id");
      LastSetOther(w1, "photo", FileOpt(photo), "message_thread_id");
      LastSetOther(w2, "photo", StrOpt(photoString), "message_thread_id");
      LastSetOther(w4, "parse_mode", StrOpt(parseMode), "message_thread_id");
      LastSetOther(w5, "caption_entities", StrOpt(captionEntities), "message_thread_id");
      LastSetOther(w6, "disable_notification", BoolOpt(disableNotification), "message_thread_id");
      LastSetOther(w7, "protect_content", BoolOpt(protectContent), "message_thread_id");
      LastSetOther(w8, "reply_to_message_id", IntOpt(replyToMessageID), "message_thread_id");
      LastSetOther(w9, "allow_sending_without_reply", BoolOpt(allowSendingWithoutReply), "message_thread_id");
      LastSetOther(w10, "reply_markup", StrOpt(inlineKeyboardMarkup), "message_thread_id");
      LastSetOther(w11, "reply_markup", StrOpt(replyKeyboardMarkup), "message_thread_id");
      LastSetOther(w12, "reply_markup", StrOpt(replyKeyboardRemove), "message_thread_id");
      LastSetOther(w13, "reply_markup", StrOpt(forceReply), "message_thread_id");
      WrittenLastSet(w14, "message_thread_id");
    }

    /** The value the calls leave at `parse_mode`. */
    lemma PlanParseMode()
      ensures HoldsIfSet(OrEmpty(Written(Plan())), "parse_mode", StrOpt(parseMode))
    {
      var w0 := NoWrites;
      var w1 := Then(w0, "chat_id", IntOpt(chatID));
      var w2 := Then(w1, "photo", FileOpt(photo));
      var w3 := Then(w2, "photo", StrOpt(photoString));
      var w4 := Then(w3, "message_thread_id", IntOpt(messageThreadID));
      var w5 := Then(w4, "parse_mode", StrOpt(parseMode));
      var w6 := Then(w5, "caption_entities", StrOpt(captionEntities));
      var w7 := Then(w6, "disable_notification", BoolOpt(disableNotification));
      var w8 := Then(w7, "protect_content", BoolOpt(protectContent));
      var w9 := Then(w8, "reply_to_message_id", IntOpt(replyToMessageID));
      var w10 := Then(w9, "allow_sending_without_reply", BoolOpt(allowSendingWithoutReply));
      var w11 := Then(w10, "reply_markup", StrOpt(inlineKeyboardMarkup));
      var w12 := Then(w11, "reply_markup", StrOpt(replyKeyboardMarkup));
      var w13 := Then(w12, "reply_markup", StrOpt(replyKeyboardRemove));
      var w14 := Then(w13, "reply_markup", StrOpt(forceReply));
      LastSetOther(w0, "chat_id", IntOpt(chatID), "parse_mode");
      LastSetOther(w1, "photo", FileOpt(photo), "parse_mode");
      LastSetOther(w2, "photo", StrOpt(photoString), "parse_mode");
      LastSetOther(w3, "message_thread_id", IntOpt(messageThreadID), "parse_mode");
      LastSetOther(w5, "caption_entities", StrOpt(captionEntities), "parse_mode");
      LastSetOther(w6, "disable_notification", BoolOpt(disableNotification), "parse_mode");
      LastSetOther(w7, "protect_content", BoolOpt(protectContent), "parse_mode");
      LastSetOther(w8, "reply_to_message_id", IntOpt(replyToMessageID), "parse_mode");
      LastSetOther(w9, "allow_sending_without_reply", BoolOpt(allowSendingWithoutReply), "parse_mode");
      LastSetOther(w10, "reply_markup", StrOpt(inlineKeyboardMarkup), "parse_mode");
      LastSetOther(w11, "reply_markup", StrOpt(replyKeyboardMarkup), "parse_mode");
      LastSetOther(w12, "reply_markup", StrOpt(replyKeyboardRemove), "parse_mode");
      LastSetOther(w13, "reply_markup", StrOpt(forceReply), "parse_mode");
      WrittenLastSet(w14, "parse_mode");
    }

    /** The value the calls leave at `caption_entities`. */
    lemma PlanCaptionEntities()
      ensures HoldsIfSet(OrEmpty(Written(Plan())), "caption_entities", StrOpt(captionEntities))
    {
      var w0 := NoWrites;
      var w1 := Then(w0, "chat_id", IntOpt(chatID));
      var w2 := Then(w1, "photo", FileOpt(photo));
      var w3 := Then(w2, "photo", StrOpt(photoString));
      var w4 := Then(w3, "message_thread_id", IntOpt(messageThreadID));
      var w5 := Then(w4, "parse_mode", StrOpt(parseMode));
      var w6 := Then(w5, "caption_entities", StrOpt(captionEntities));
      var w7 := Then(w6, "disable_notification", BoolOpt(disableNotification));
      var w8 := Then(w7, "protect_content", BoolOpt(protectContent));
      var w9 := Then(w8, "reply_to_message_id", IntOpt(replyToMessageID));
      var w10 := Then(w9, "allow_sending_without_reply", BoolOpt(allowSendingWithoutReply));
      var w11 := Then(w10, "reply_markup", StrOpt(inlineKeyboardMarkup));
      var w12 := Then(w11, "reply_markup", StrOpt(replyKeyboardMarkup));
      var w13 := Then(w12, "reply_markup", StrOpt(replyKeyboardRemove));
      var w14 := Then(w13, "reply_markup", StrOpt(forceReply));
      LastSetOther(w0, "chat_id", IntOpt(chatID), "caption_entities");
      LastSetOther(w1, "photo", FileOpt(photo), "caption_entities");
      LastSetOther(w2, "photo", StrOpt(photoString), "caption_entities");
      LastSetOther(w3, "message_thread_id", IntOpt(messageThreadID), "caption_entities");
      LastSetOther(w4, "parse_mode", StrOpt(parseMode), "caption_entities");
      LastSetOther(w6, "disable_notification", BoolOpt(disableNotification), "caption_entities");
      LastSetOther(w7, "protect_content", BoolOpt(protectContent), "caption_entities");
      LastSetOther(w8, "reply_to_message_id", IntOpt(replyToMessageID), "caption_entities");
      LastSetOther(w9, "allow_sending_without_reply", BoolOpt(allowSendingWithoutReply), "caption_entities");
      LastSetOther(w10, "reply_markup", StrOpt(inlineKeyboardMarkup), "caption_entities");
      LastSetOther(w11, "reply_markup", StrOpt(replyKeyboardMarkup), "caption_entities");
      LastSetOther(w12, "reply_markup", StrOpt(replyKeyboardRemove), "caption_entities");
      LastSetOther(w13, "reply_markup", StrOpt(forceReply), "caption_entities");
      WrittenLastSet(w14, "caption_entities");
    }

    /** The value the calls leave at `disable_notification`. */
    lemma PlanDisableNotification()
      ensures HoldsIfSet(OrEmpty(Written(Plan())), "disable_notification", BoolOpt(disableNotification))
    {
      var w0 := NoWrites;
      var w1 := Then(w0, "chat_id", IntOpt(chatID));
      var w2 := Then(w1, "photo", FileOpt(photo));
      var w3 := Then(w2, "photo", StrOpt(photoString));
      var w4 := Then(w3, "message_thread_id", IntOpt(messageThreadID));
      var w5 := Then(w4, "parse_mode", StrOpt(parseMode));
      var w6 := Then(w5, "caption_entities", StrOpt(captionEntities));
      var w7 := Then(w6, "disable_notification", BoolOpt(disableNotification));
      var w8 := Then(w7, "protect_content", BoolOpt(protectContent));
      var w9 := Then(w8, "reply_to_message_id", IntOpt(replyToMessageID));
      var w10 := Then(w9, "allow_sending_without_reply", BoolOpt(allowSendingWithoutReply));
      var w11 := Then(w10, "reply_markup", StrOpt(inlineKeyboardMarkup));
      var w12 := Then(w11, "reply_markup", StrOpt(replyKeyboardMarkup));
      var w13 := Then(w12, "reply_markup", StrOpt(replyKeyboardRemove));
      var w14 := Then(w13, "reply_markup", StrOpt(forceReply));
      LastSetOther(w0, "chat_id", IntOpt(chatID), "disable_notification");
      LastSetOther(w1, "photo", FileOpt(photo), "disable_notification");
      LastSetOther(w2, "photo", StrOpt(photoString), "disable_notification");
      LastSetOther(w3, "message_thread_id", IntOpt(messageThreadID), "disable_notification");
      LastSetOther(w4, "parse_mode", StrOpt(parseMode), "disable_notification");
      LastSetOther(w5, "caption_entities", StrOpt(captionEntities), "disable_notification");
      LastSetOther(w7, "protect_content", BoolOpt(protectContent), "disable_notification");
      LastSetOther(w8, "reply_to_message_id", IntOpt(replyToMessageID), "disable_notification");
      LastSetOther(w9, "allow_sending_without_reply", BoolOpt(allowSendingWithoutReply), "disable_notification");
      LastSetOther(w10, "reply_markup", StrOpt(inlineKeyboardMarkup), "disable_notification");
      LastSetOther(w11, "reply_markup", StrOpt(replyKeyboardMarkup), "disable_notification");
      LastSetOther(w12, "reply_markup", StrOpt(replyKeyboardRemove), "disable_notification");
      LastSetOther(w13, "reply_markup", StrOpt(forceReply), "disable_notification");
      WrittenLastSet(w14, "disable_notification");
    }

    /** The value the calls leave at `protect_content`. */
    lemma PlanProtectContent()
      ensures HoldsIfSet(OrEmpty(Written(Plan())), "protect_content", BoolOpt(protectContent))
    {
      var w0 := NoWrites;
      var w1 := Then(w0, "chat_id", IntOpt(chatID));
      var w2 := Then(w1, "photo", FileOpt(photo));
      var w3 := Then(w2, "photo", StrOpt(photoString));
      var w4 := Then(w3, "message_thread_id", IntOpt(messageThreadID));
      var w5 := Then(w4, "parse_mode", StrOpt(parseMode));
      var w6 := Then(w5, "caption_entities", StrOpt(captionEntities));
      var w7 := Then(w6, "disable_notification", BoolOpt(disableNotification));
      var w8 := Then(w7, "protect_content", BoolOpt(protectContent));
      var w9 := Then(w8, "reply_to_message_id", IntOpt(replyToMessageID));
      var w10 := Then(w9, "allow_sending_without_reply", BoolOpt(allowSendingWithoutReply));
      var w11 := Then(w10, "reply_markup", StrOpt(inlineKeyboardMarkup));
      var w12 := Then(w11, "reply_markup", StrOpt(replyKeyboardMarkup));
      var w13 := Then(w12, "reply_markup", StrOpt(replyKeyboardRemove));
      var w14 := Then(w13, "reply_markup", StrOpt(forceReply));
      LastSetOther(w0, "chat_id", IntOpt(chatID), "protect_content");
      LastSetOther(w1, "photo", FileOpt(photo), "protect_content");
      LastSetOther(w2, "photo", StrOpt(photoString), "protect_content");
      LastSetOther(w3, "message_thread_id", IntOpt(messageThreadID), "protect_content");
      LastSetOther(w4, "parse_mode", StrOpt(parseMode), "protect_content");
      LastSetOther(w5, "caption_entities", StrOpt(captionEntities), "protect_content");
      LastSetOther(w6, "disable_notification", BoolOpt(disableNotification), "protect_content");
      LastSetOther(w8, "reply_to_message_id", IntOpt(replyToMessageID), "protect_content");
      LastSetOther(w9, "allow_sending_without_reply", BoolOpt(allowSendingWithoutReply), "protect_content");
      LastSetOther(w10, "reply_markup", StrOpt(inlineKeyboardMarkup), "protect_content");
      LastSetOther(w11, "reply_markup", StrOpt(replyKeyboardMarkup), "protect_content");
      LastSetOther(w12, "reply_markup", StrOpt(replyKeyboardRemove), "protect_content");
      LastSetOther(w13, "reply_markup", StrOpt(forceReply), "protect_content");
      WrittenLastSet(w14, "protect_content");
    }

    /** The value the calls leave at `reply_to_message_id`. */
    lemma PlanReplyToMessageID()
      ensures HoldsIfSet(OrEmpty(Written(Plan())), "reply_to_message_id", IntOpt(replyToMessageID))
    {
      var w0 := NoWrites;
      var w1 := Then(w0, "chat_id", IntOpt(chatID));
      var w2 := Then(w1, "photo", FileOpt(photo));
      var w3 := Then(w2, "photo", StrOpt(photoString));
      var w4 := Then(w3, "message_thread_id", IntOpt(messageThreadID));
      var w5 := Then(w4, "parse_mode", StrOpt(parseMode));
      var w6 := Then(w5, "caption_entities", StrOpt(captionEntities));
      var w7 := Then(w6, "disable_notification", BoolOpt(disableNotification));
      var w8 := Then(w7, "protect_content", BoolOpt(protectContent));
      var w9 := Then(w8, "reply_to_message_id", IntOpt(replyToMessageID));
      var w10 := Then(w9, "allow_sending_without_reply", BoolOpt(allowSendingWithoutReply));
      var w11 := Then(w10, "reply_markup", StrOpt(inlineKeyboardMarkup));
      var w12 := Then(w11, "reply_markup", StrOpt(replyKeyboardMarkup));
      var w13 := Then(w12, "reply_markup", StrOpt(replyKeyboardRemove));
      var w14 := Then(w13, "reply_markup", StrOpt(forceReply));
      LastSetOther(w0, "chat_id", IntOpt(chatID), "reply_to_message_id");
      LastSetOther(w1, "photo", FileOpt(photo), "reply_to_message_id");
      LastSetOther(w2, "photo", StrOpt(photoString), "reply_to_message_id");
      LastSetOther(w3, "message_thread_id", IntOpt(messageThreadID), "reply_to_message_id");
      LastSetOther(w4, "parse_mode", StrOpt(parseMode), "reply_to_message_id");
      LastSetOther(w5, "caption_entities", StrOpt(captionEntities), "reply_to_message_id");
      LastSetOther(w6, "disable_notification", BoolOpt(disableNotification), "reply_to_message_id");
      LastSetOther(w7, "protect_content", BoolOpt(protectContent), "reply_to_message_id");
      LastSetOther(w9, "allow_sending_without_reply", BoolOpt(allowSendingWithoutReply), "reply_to_message_id");
      LastSetOther(w10, "reply_markup", StrOpt(inlineKeyboardMarkup), "reply_to_message_id");
      LastSetOther(w11, "reply_markup", StrOpt(replyKeyboardMarkup), "reply_to_message_id");
      LastSetOther(w12, "reply_markup", StrOpt(replyKeyboardRemove), "reply_to_message_id");
      LastSetOther(w13, "reply_markup", StrOpt(forceReply), "reply_to_message_id");
      WrittenLastSet(w14, "reply_to_message_id");
    }

    /** The value the calls leave at `allow_sending_without_reply`. */
    lemma PlanAllowSendingWithoutReply()
      ensures HoldsIfSet(OrEmpty(Written(Plan())), "allow_sending_without_reply", BoolOpt(allowSendingWithoutReply))
    {
      var w0 := NoWrites;
      var w1 := Then(w0, "chat_id", IntOpt(chatID));
      var w2 := Then(w1, "photo", FileOpt(photo));
      var w3 := Then(w2, "photo", StrOpt(photoString));
      var w4 := Then(w3, "message_thread_id", IntOpt(messageThreadID));
      var w5 := Then(w4, "parse_mode", StrOpt(parseMode));
      var w6 := Then(w5, "caption_entities", StrOpt(captionEntities));
      var w7 := Then(w6, "disable_notification", BoolOpt(disableNotification));
      var w8 := Then(w7, "protect_content", BoolOpt(protectContent));
      var w9 := Then(w8, "reply_to_message_id", IntOpt(replyToMessageID));
      var w10 := Then(w9, "allow_sending_without_reply", BoolOpt(allowSendingWithoutReply));
      var w11 := Then(w10, "reply_markup", StrOpt(inlineKeyboardMarkup));
      var w12 := Then(w11, "reply_markup", StrOpt(replyKeyboardMarkup));
      var w13 := Then(w12, "reply_markup", StrOpt(replyKeyboardRemove));
      var w14 := Then(w13, "reply_markup", StrOpt(forceReply));
      LastSetOther(w0, "chat_id", IntOpt(chatID), "allow_sending_without_reply");
      LastSetOther(w1, "photo", FileOpt(photo), "allow_sending_without_reply");
      LastSetOther(w2, "photo", StrOpt(photoString), "allow_sending_without_reply");
      LastSetOther(w3, "message_thread_id", IntOpt(messageThreadID), "allow_sending_without_reply");
      LastSetOther(w4, "parse_mode", StrOpt(parseMode), "allow_sending_without_reply");
      LastSetOther(w5, "caption_entities", StrOpt(captionEntities), "allow_sending_without_reply");
      LastSetOther(w6, "disable_notification", BoolOpt(disableNotification), "allow_sending_without_reply");
      LastSetOther(w7, "protect_content", BoolOpt(protectContent), "allow_sending_without_reply");
      LastSetOther(w8, "reply_to_message_id", IntOpt(replyToMessageID), "allow_sending_without_reply");
      LastSetOther(w10, "reply_markup", StrOpt(inlineKeyboardMarkup), "allow_sending_without_reply");
      LastSetOther(w11, "reply_markup", StrOpt(replyKeyboardMarkup), "allow_sending_without_reply");
      LastSetOther(w12, "reply_markup", StrOpt(replyKeyboardRemove), "allow_sending_without_reply");
      LastSetOther(w13, "reply_markup", StrOpt(forceReply), "allow_sending_without_reply");
      WrittenLastSet(w14, "allow_sending_without_reply");
    }

    /** The value the calls leave at `reply_markup`: the last one set. */
    lemma PlanReplyMarkup()
      ensures HoldsIfSet(OrEmpty(Written(Plan())), "reply_markup", Later(Later(Later(StrOpt(inlineKeyboardMarkup), StrOpt(replyKeyboardMarkup)), StrOpt(replyKeyboardRemove)), StrOpt(forceReply)))
    {
      var w0 := NoWrites;
      var w1 := Then(w0, "chat_id", IntOpt(chatID));
      var w2 := Then(w1, "photo", FileOpt(photo));
      var w3 := Then(w2, "photo", StrOpt(photoString));
      var w4 := Then(w3, "message_thread_id", IntOpt(messageThreadID));
      var w5 := Then(w4, "parse_mode", StrOpt(parseMode));
      var w6 := Then(w5, "caption_entities", StrOpt(captionEntities));
      var w7 := Then(w6, "disable_notification", BoolOpt(disableNotification));
      var w8 := Then(w7, "protect_content", BoolOpt(protectContent));
      var w9 := Then(w8, "reply_to_message_id", IntOpt(replyToMessageID));
      var w10 := Then(w9, "allow_sending_without_reply", BoolOpt(allowSendingWithoutReply));
      var w11 := Then(w10, "reply_markup", StrOpt(inlineKeyboardMarkup));
      var w12 := Then(w11, "reply_markup", StrOpt(replyKeyboardMarkup));
      var w13 := Then(w12, "reply_markup", StrOpt(replyKeyboardRemove));
      var w14 := Then(w13, "reply_markup", StrOpt(forceReply));
      LastSetOther(w0, "chat_id", IntOpt(chatID), "reply_markup");
      LastSetOther(w1, "photo", FileOpt(photo), "reply_markup");
      LastSetOther(w2, "photo", StrOpt(photoString), "reply_markup");
      LastSetOther(w3, "message_thread_id", IntOpt(messageThreadID), "reply_markup");
      LastSetOther(w4, "parse_mode", StrOpt(parseMode), "reply_markup");
      LastSetOther(w5, "caption_entities", StrOpt(captionEntities), "reply_markup");
      LastSetOther(w6, "disable_notification", BoolOpt(disableNotification), "reply_markup");
      LastSetOther(w7, "protect_content", BoolOpt(protectContent), "reply_markup");
      LastSetOther(w8, "reply_to_message_id", IntOpt(replyToMessageID), "reply_markup");
      LastSetOther(w9, "allow_sending_without_reply", BoolOpt(allowSendingWithoutReply), "reply_markup");
      LastSetSame(w10, "reply_markup", StrOpt(inlineKeyboardMarkup));
      LastSetSame(w11, "reply_markup", StrOpt(replyKeyboardMarkup));
      LastSetSame(w12, "reply_markup", StrOpt(replyKeyboardRemove));
      LastSetSame(w13, "reply_markup", StrOpt(forceReply));
      WrittenLastSet(w14, "reply_markup");
    }

    /** The calls write no key but these. */
    lemma PlanOnly()
      ensures OrEmpty(Written(Plan())).Keys <= {"chat_id", "photo", "message_thread_id", "parse_mode", "caption_entities", "disable_notification", "protect_content", "reply_to_message_id", "allow_sending_without_reply", "reply_markup"}
      ensures "caption" !in OrEmpty(Written(Plan()))
    {
      var w0 := NoWrites;
      var w1 := Then(w0, "chat_id", IntOpt(chatID));
      var w2 := Then(w1, "photo", FileOpt(photo));
      var w3 := Then(w2, "photo", StrOpt(photoString));
      var w4 := Then(w3, "message_thread_id", IntOpt(messageThreadID));
      var w5 := Then(w4, "parse_mode", StrOpt(parseMode));
      var w6 := Then(w5, "caption_entities", StrOpt(captionEntities));
      var w7 := Then(w6, "disable_notification", BoolOpt(disableNotification));
      var w8 := Then(w7, "protect_content", BoolOpt(protectContent));
      var w9 := Then(w8, "reply_to_message_id", IntOpt(replyToMessageID));
      var w10 := Then(w9, "allow_sending_without_reply", BoolOpt(allowSendingWithoutReply));
      var w11 := Then(w10, "reply_markup", StrOpt(inlineKeyboardMarkup));
      var w12 := Then(w11, "reply_markup", StrOpt(replyKeyboardMarkup));
      var w13 := Then(w12, "reply_markup", StrOpt(replyKeyboardRemove));
      var w14 := Then(w13, "reply_markup", StrOpt(forceReply));
      forall j | j !in {"chat_id", "photo", "message_thread_id", "parse_mode", "caption_entities", "disable_notification", "protect_content", "reply_to_message_id", "allow_sending_without_reply", "reply_markup"}
        ensures j !in OrEmpty(Written(w14))
      {
        LastSetOther(w0, "chat_id", IntOpt(chatID), j);
        LastSetOther(w1, "photo", FileOpt(photo), j);
        LastSetOther(w2, "photo", StrOpt(photoString), j);
        LastSetOther(w3, "message_thread_id", IntOpt(messageThreadID), j);
        LastSetOther(w4, "parse_mode", StrOpt(parseMode), j);
        LastSetOther(w5, "caption_entities", StrOpt(captionEntities), j);
        LastSetOther(w6, "disable_notification", BoolOpt(disableNotification), j);
        LastSetOther(w7, "protect_content", BoolOpt(protectContent), j);
        LastSetOther(w8, "reply_to_message_id", IntOpt(replyToMessageID), j);
        LastSetOther(w9, "allow_sending_without_reply", BoolOpt(allowSendingWithoutReply), j);
        LastSetOther(w10, "reply_markup", StrOpt(inlineKeyboardMarkup), j);
        LastSetOther(w11, "reply_markup", StrOpt(replyKeyboardMarkup), j);
        LastSetOther(w12, "reply_markup", StrOpt(replyKeyboardRemove), j);
        LastSetOther(w13, "reply_markup", StrOpt(forceReply), j);
        WrittenLastSet(w14, j);
      }
    }

    /** The request `Do` builds before it calls the API: the endpoint, and a query made
        by the `setParam` calls of `Plan`. */
    method Assemble() returns (r: Request)
      ensures fresh(r)
      ensures r.Fields() == RequestFields(MethodGet, "/sendPhoto", Written(Plan()), None, None, None, "", [])
    {
      r := new Request(MethodGet, "/sendPhoto");
      ghost var done := NoWrites;
      var _ := r.SetParamIfSet("chat_id", IntOpt(chatID), done);
      done := Then(done, "chat_id", IntOpt(chatID));
      var _ := r.SetParamIfSet("photo", FileOpt(photo), done);
      done := Then(done, "photo", FileOpt(photo));
      var _ := r.SetParamIfSet("photo", StrOpt(photoString), done);
      done := Then(done, "photo", StrOpt(photoString));
      var _ := r.SetParamIfSet("message_thread_id", IntOpt(messageThreadID), done);
      done := Then(done, "message_thread_id", IntOpt(messageThreadID));
      var _ := r.SetParamIfSet("parse_mode", StrOpt(parseMode), done);
      done := Then(done, "parse_mode", StrOpt(parseMode));
      var _ := r.SetParamIfSet("caption_entities", StrOpt(captionEntities), done);
      done := Then(done, "caption_entities", StrOpt(captionEntities));
      var _ := r.SetParamIfSet("disable_notification", BoolOpt(disableNotification), done);
      done := Then(done, "disable_notification", BoolOpt(disableNotification));
      var _ := r.SetParamIfSet("protect_content", BoolOpt(protectContent), done);
      done := Then(done, "protect_content", BoolOpt(protectContent));
      var _ := r.SetParamIfSet("reply_to_message_id", IntOpt(replyToMessageID), done);
      done := Then(done, "reply_to_message_id", IntOpt(replyToMessageID));
      var _ := r.SetParamIfSet("allow_sending_without_reply", BoolOpt(allowSendingWithoutReply), done);
      done := Then(done, "allow_sending_without_reply", BoolOpt(allowSendingWithoutReply));
      var _ := r.SetParamIfSet("reply_markup", StrOpt(inlineKeyboardMarkup), done);
      done := Then(done, "reply_markup", StrOpt(inlineKeyboardMarkup));
      var _ := r.SetParamIfSet("reply_markup", StrOpt(replyKeyboardMarkup), done);
      done := Then(done, "reply_markup", StrOpt(replyKeyboardMarkup));
      var _ := r.SetParamIfSet("reply_markup", StrOpt(replyKeyboardRemove), done);
      done := Then(done, "reply_markup", StrOpt(replyKeyboardRemove));
      var _ := r.SetParamIfSet("reply_markup", StrOpt(forceReply), done);
      done := Then(done, "reply_markup", StrOpt(forceReply));
      assert done == Plan();
    }

    /** `Do`: Always sets `chat_id`; sets each of the other keys only when its field is set; then calls the API. */
    method Do(opts: seq<RequestOption>) returns (assembled: RequestFields, res: Option<Bytes>, err: Option<Error>)
      requires chatID.Some?
      ensures assembled.httpMethod == MethodGet && assembled.endpoint == "/sendPhoto"
      ensures assembled.form == None && assembled.header == None && assembled.body == None
      ensures assembled.fullURL == "" && assembled.json == []
      ensures Holds(Q(assembled), "chat_id", Int(chatID.value as int))
      ensures HoldsIfSet(Q(assembled), "photo", Later(FileOpt(photo), StrOpt(photoString)))
      ensures HoldsIfSet(Q(assembled), "message_thread_id", IntOpt(messageThreadID))
      ensures HoldsIfSet(Q(assembled), "parse_mode", StrOpt(parseMode))
      ensures HoldsIfSet(Q(assembled), "caption_entities", StrOpt(captionEntities))
      ensures HoldsIfSet(Q(assembled), "disable_notification", BoolOpt(disableNotification))
      ensures HoldsIfSet(Q(assembled), "protect_content", BoolOpt(protectContent))
      ensures HoldsIfSet(Q(assembled), "reply_to_message_id", IntOpt(replyToMessageID))
      ensures HoldsIfSet(Q(assembled), "allow_sending_without_reply", BoolOpt(allowSendingWithoutReply))
      ensures HoldsIfSet(Q(assembled), "reply_markup", Later(Later(Later(StrOpt(inlineKeyboardMarkup), StrOpt(replyKeyboardMarkup)), StrOpt(replyKeyboardRemove)), StrOpt(forceReply)))
      ensures Q(assembled).Keys <= {"chat_id", "photo", "message_thread_id", "parse_mode", "caption_entities", "disable_notification", "protect_content", "reply_to_message_id", "allow_sending_without_reply", "reply_markup"}
      ensures "caption" !in Q(assembled)
      ensures var o := c.Outcome(assembled, opts);
        err == o.1 && res == (if o.1.Some? then None else o.0)
    {
      var r := Assemble();
      assembled := r.Fields();
      var data, e := c.CallAPI(r, opts);
      PlanOnly();
      PlanChatID();
      PlanPhoto();
      PlanMessageThreadID();
      PlanParseMode();
      PlanCaptionEntities();
      PlanDisableNotification();
      PlanProtectContent();
      PlanReplyToMessageID();
      PlanAllowSendingWithoutReply();
      PlanReplyMarkup();
      if e.Some? {
        return assembled, None, e;
      }
      res, err := data, None;
    }
  }

  /** `SendAudioService`: a GET request to `/sendAudio`. */
  class SendAudioService {
    const c: Client
    var chatID: Option<int64>
    var messageThreadID: Option<int64>
    var audio: Option<InputFile>
    var audioString: Option<string>
    var caption: Option<string>
    var parseMode: Option<string>
    var captionEntities: Option<string>
    var duration: Option<int64>
    var performer: Option<string>
    var title: Option<string>
    var thumbnail: Option<InputFile>
    var thumbnailString: Option<string>
    var disableNotification: Option<bool>
    var protectContent: Option<bool>
    var replyToMessageID: Option<int64>
    var allowSendingWithoutReply: Option<bool>
    var inlineKeyboardMarkup: Option<string>
    var replyKeyboardMarkup: Option<string>
    var replyKeyboardRemove: Option<string>
    var forceReply: Option<string>

    /** `NewSendAudioService`: every field starts out unset. */
    constructor (c: Client)
      ensures this.c == c
      ensures chatID == None && messageThreadID == None && audio == None
      ensures audioString == None && caption == None && parseMode == None
      ensures captionEntities == None && duration == None && performer == None
      ensures title == None && thumbnail == None && thumbnailString == None
      ensures disableNotification == None && protectContent == None && replyToMessageID == None
      ensures allowSendingWithoutReply == None && inlineKeyboardMarkup == None && replyKeyboardMarkup == None
      ensures replyKeyboardRemove == None && forceReply == None
    {
      this.c := c;
      chatID := None;
      messageThreadID := None;
      audio := None;
      audioString := None;
      caption := None;
      parseMode := None;
      captionEntities := None;
      duration := None;
      performer := None;
      title := None;
      thumbnail := None;
      thumbnailString := None;
      disableNotification := None;
      protectContent := None;
      replyToMessageID := None;
      allowSendingWithoutReply := None;
      inlineKeyboardMarkup := None;
      replyKeyboardMarkup := None;
      replyKeyboardRemove := None;
      forceReply := None;
    }

    /** `ChatID`: stores its argument in `chatID`. */
    method ChatID(chatID: int64) returns (t: SendAudioService)
      modifies this`chatID
      ensures this.chatID == Some(chatID) && t == this
    {
      this.chatID := Some(chatID);
      t := this;
    }

    /** `MessageThreadID`: stores its argument in `messageThreadID`. */
    method MessageThreadID(messageThreadID: int64) returns (t: SendAudioService)
      modifies this`messageThreadID
      ensures this.messageThreadID == Some(messageThreadID) && t == this
    {
      this.messageThreadID := Some(messageThreadID);
      t := this;
    }

    /** `ParseMode`: stores its argument in `parseMode`. */
    method ParseMode(parseMode: string) returns (t: SendAudioService)
      modifies this`parseMode
      ensures this.parseMode == Some(parseMode) && t == this
    {
      this.parseMode := Some(parseMode);
      t := this;
    }

    /** `CaptionEntities`: stores the JSON text of its argument in `captionEntities`. `marshalled` is what
        `jsoniter.Marshal` makes of the argument, `None` when marshalling fails; then
        nothing changes and the result is nil. */
    method CaptionEntities(marshalled: Option<string>) returns (t: SendAudioService?)
      modifies this`captionEntities
      ensures marshalled.None? ==> t == null && captionEntities == old(captionEntities)
      ensures marshalled.Some? ==> t == this && captionEntities == marshalled
    {
      if marshalled.None? {
        return null;
      }
      captionEntities := marshalled;
      t := this;
    }

    /** `Audio`: stores its argument in `audio`. */
    method Audio(audio: InputFile) returns (t: SendAudioService)
      modifies this`audio
      ensures this.audio == Some(audio) && t == this
    {
      this.audio := Some(audio);
      t := this;
    }

    /** `AudioString`: stores its argument in `audioString`. */
    method AudioString(audioString: string) returns (t: SendAudioService)
      modifies this`audioString
      ensures this.audioString == Some(audioString) && t == this
    {
      this.audioString := Some(audioString);
      t := this;
    }

    /** `Duration`: stores its argument in `duration`. */
    method Duration(duration: int64) returns (t: SendAudioService)
      modifies this`duration
      ensures this.duration == Some(duration) && t == this
    {
      this.duration := Some(duration);
      t := this;
    }

    /** `Performer`: stores its argument in `performer`. */
    method Performer(performer: string) returns (t: SendAudioService)
      modifies this`performer
      ensures this.performer == Some(performer) && t == this
    {
      this.performer := Some(performer);
      t := this;
    }

    /** `Title`: stores its argument in `title`. */
    method Title(title: string) returns (t: SendAudioService)
      modifies this`title
      ensures this.title == Some(title) && t == this
    {
      this.title := Some(title);
      t := this;
    }

    /** `Thumbnail`: stores its argument in `thumbnail`. */
    method Thumbnail(thumbnail: InputFile) returns (t: SendAudioService)
      modifies this`thumbnail
      ensures this.thumbnail == Some(thumbnail) && t == this
    {
      this.thumbnail := Some(thumbnail);
      t := this;
    }

    /** `ThumbnailString`: stores its argument in `thumbnailString`. */
    method ThumbnailString(thumbnailString: string) returns (t: SendAudioService)
      modifies this`thumbnailString
      ensures this.thumbnailString == Some(thumbnailString) && t == this
    {
      this.thumbnailString := Some(thumbnailString);
      t := this;
    }

    /** `DisableNotification`: stores its argument in `disableNotification`. */
    method DisableNotification(disableNotification: bool) returns (t: SendAudioService)
      modifies this`disableNotification
      ensures this.disableNotification == Some(disableNotification) && t == this
    {
      this.disableNotification := Some(disableNotification);
      t := this;
    }

    /** `ProtectContent`: stores its argument in `protectContent`. */
    method ProtectContent(protectContent: bool) returns (t: SendAudioService)
      modifies this`protectContent
      ensures this.protectContent == Some(protectContent) && t == this
    {
      this.protectContent := Some(protectContent);
      t := this;
    }

    /** `ReplyToMessageID`: stores its argument in `replyToMessageID`. */
    method ReplyToMessageID(replyToMessageID: int64) returns (t: SendAudioService)
      modifies this`replyToMessageID
      ensures this.replyToMessageID == Some(replyToMessageID) && t == this
    {
      this.replyToMessageID := Some(replyToMessageID);
      t := this;
    }

    /** `AllowSendingWithoutReply`: stores its argument in `allowSendingWithoutReply`. */
    method AllowSendingWithoutReply(allowSendingWithoutReply: bool) returns (t: SendAudioService)
      modifies this`allowSendingWithoutReply
      ensures this.allowSendingWithoutReply == Some(allowSendingWithoutReply) && t == this
    {
      this.allowSendingWithoutReply := Some(allowSendingWithoutReply);
      t := this;
    }

    /** `InlineKeyboardMarkup`: stores the JSON text of its argument in `inlineKeyboardMarkup`. `marshalled` is what
        `jsoniter.Marshal` makes of the argument, `None` when marshalling fails; then
        nothing changes and the result is nil. */
    method InlineKeyboardMarkup(marshalled: Option<string>) returns (t: SendAudioService?)
      modifies this`inlineKeyboardMarkup
      ensures marshalled.None? ==> t == null && inlineKeyboardMarkup == old(inlineKeyboardMarkup)
      ensures marshalled.Some? ==> t == this && inlineKeyboardMarkup == marshalled
    {
      if marshalled.None? {
        return null;
      }
      inlineKeyboardMarkup := marshalled;
      t := this;
    }

    /** `ReplyKeyboardMarkup`: stores the JSON text of its argument in `replyKeyboardMarkup`. `marshalled` is what
        `jsoniter.Marshal` makes of the argument, `None` when marshalling fails; then
        nothing changes and the result is nil. */
    method ReplyKeyboardMarkup(marshalled: Option<string>) returns (t: SendAudioService?)
      modifies this`replyKeyboardMarkup
      ensures marshalled.None? ==> t == null && replyKeyboardMarkup == old(replyKeyboardMarkup)
      ensures marshalled.Some? ==> t == this && replyKeyboardMarkup == marshalled
    {
      if marshalled.None? {
        return null;
      }
      replyKeyboardMarkup := marshalled;
      t := this;
    }

    /** `ReplyKeyboardRemove`: stores the JSON text of its argument in `replyKeyboardRemove`. `marshalled` is what
        `jsoniter.Marshal` makes of the argument, `None` when marshalling fails; then
        nothing changes and the result is nil. */
    method ReplyKeyboardRemove(marshalled: Option<string>) returns (t: SendAudioService?)
      modifies this`replyKeyboardRemove
      ensures marshalled.None? ==> t == null && replyKeyboardRemove == old(replyKeyboardRemove)
      ensures marshalled.Some? ==> t == this && replyKeyboardRemove == marshalled
    {
      if marshalled.None? {
        return null;
      }
      replyKeyboardRemove := marshalled;
      t := this;
    }

    /** `ForceReply`: stores the JSON text of its argument in `forceReply`. `marshalled` is what
        `jsoniter.Marshal` makes of the argument, `None` when marshalling fails; then
        nothing changes and the result is nil. */
    method ForceReply(marshalled: Option<string>) returns (t: SendAudioService?)
      modifies this`forceReply
      ensures marshalled.None? ==> t == null && forceReply == old(forceReply)
      ensures marshalled.Some? ==> t == this && forceReply == marshalled
    {
      if marshalled.None? {
        return null;
      }
      forceReply := marshalled;
      t := this;
    }

    /** The `setParam` calls `Do` makes, in order; a call that is skipped because its
        field is unset has value `None`. */
    ghost function Plan(): Writes
      reads this
    {
      var w1 := Then(NoWrites, "chat_id", IntOpt(chatID));
      var w2 := Then(w1, "audio", FileOpt(audio));
      var w3 := Then(w2, "audio", StrOpt(audioString));
      var w4 := Then(w3, "message_thread_id", IntOpt(messageThreadID));
      var w5 := Then(w4, "parse_mode", StrOpt(parseMode));
      var w6 := Then(w5, "caption_entities", StrOpt(captionEntities));
      var w7 := Then(w6, "duration", IntOpt(duration));
      var w8 := Then(w7, "performer", StrOpt(performer));
      var w9 := Then(w8, "title", StrOpt(title));
      var w10 := Then(w9, "thumbnail", FileOpt(thumbnail));
      var w11 := Then(w10, "thumbnail", StrOpt(thumbnailString));
      var w12 := Then(w11, "disable_notification", BoolOpt(disableNotification));
      var w13 := Then(w12, "protect_content", BoolOpt(protectContent));
      var w14 := Then(w13, "reply_to_message_id", IntOpt(replyToMessageID));
      var w15 := Then(w14, "allow_sending_without_reply", BoolOpt(allowSendingWithoutReply));
      var w16 := Then(w15, "reply_markup", StrOpt(inlineKeyboardMarkup));
      var w17 := Then(w16, "reply_markup", StrOpt(replyKeyboardMarkup));
      var w18 := Then(w17, "reply_markup", StrOpt(replyKeyboardRemove));
      var w19 := Then(w18, "reply_markup", StrOpt(forceReply));
      w19
    }

    /** The value the calls leave at `chat_id`. */
    lemma PlanChatID()
      ensures HoldsIfSet(OrEmpty(Written(Plan())), "chat_id", IntOpt(chatID))
    {
      var w0 := NoWrites;
      var w1 := Then(w0, "chat_id", IntOpt(chatID));
      var w2 := Then(w1, "audio", FileOpt(audio));
      var w3 := Then(w2, "audio", StrOpt(audioString));
      var w4 := Then(w3, "message_thread_id", IntOpt(messageThreadID));
      var w5 := Then(w4, "parse_mode", StrOpt(parseMode));
      var w6 := Then(w5, "caption_entities", StrOpt(captionEntities));
      var w7 := Then(w6, "duration", IntOpt(duration));
      var w8 := Then(w7, "performer", StrOpt(performer));
      var w9 := Then(w8, "title", StrOpt(title));
      var w10 := Then(w9, "thumbnail", FileOpt(thumbnail));
      var w11 := Then(w10, "thumbnail", StrOpt(thumbnailString));
      var w12 := Then(w11, "disable_notification", BoolOpt(disableNotification));
      var w13 := Then(w12, "protect_content", BoolOpt(protectContent));
      var w14 := Then(w13, "reply_to_message_id", IntOpt(replyToMessageID));
      var w15 := Then(w14, "allow_sending_without_reply", BoolOpt(allowSendingWithoutReply));
      var w16 := Then(w15, "reply_markup", StrOpt(inlineKeyboardMarkup));
      var w17 := Then(w16, "reply_markup", StrOpt(replyKeyboardMarkup));
      var w18 := Then(w17, "reply_markup", StrOpt(replyKeyboardRemove));
      var w19 := Then(w18, "reply_markup", StrOpt(forceReply));
      LastSetOther(w1, "audio", FileOpt(audio), "chat_id");
      LastSetOther(w2, "audio", StrOpt(audioString), "chat_id");
      LastSetOther(w3, "message_thread_id", IntOpt(messageThreadID), "chat_id");
      LastSetOther(w4, "parse_mode", StrOpt(parseMode), "chat_id");
      LastSetOther(w5, "caption_entities", StrOpt(captionEntities), "chat_id");
      LastSetOther(w6, "duration", IntOpt(duration), "chat_id");
      LastSetOther(w7, "performer", StrOpt(performer), "chat_id");
      LastSetOther(w8, "title", StrOpt(title), "chat_id");
      LastSetOther(w9, "thumbnail", FileOpt(thumbnail), "chat_id");
      LastSetOther(w10, "thumbnail", StrOpt(thumbnailString), "chat_id");
      LastSetOther(w11, "disable_notification", BoolOpt(disableNotification), "chat_id");
      LastSetOther(w12, "protect_content", BoolOpt(protectContent), "chat_id");
      LastSetOther(w13, "reply_to_message_id", IntOpt(replyToMessageID), "chat_id");
      LastSetOther(w14, "allow_sending_without_reply", BoolOpt(allowSendingWithoutReply), "chat_id");
      LastSetOther(w15, "reply_markup", StrOpt(inlineKeyboardMarkup), "chat_id");
      LastSetOther(w16, "reply_markup", StrOpt(replyKeyboardMarkup), "chat_id");
      LastSetOther(w17, "reply_markup", StrOpt(replyKeyboardRemove), "chat_id");
      LastSetOther(w18, "reply_markup", StrOpt(forceReply), "chat_id");
      WrittenLastSet(w19, "chat_id");
    }

    /** The value the calls leave at `audio`: the last one set. */
    lemma PlanAudio()
      ensures HoldsIfSet(OrEmpty(Written(Plan())), "audio", Later(FileOpt(audio), StrOpt(audioString)))
    {
      var w0 := NoWrites;
      var w1 := Then(w0, "chat_id", IntOpt(chatID));
      var w2 := Then(w1, "audio", FileOpt(audio));
      var w3 := Then(w2, "audio", StrOpt(audioString));
      var w4 := Then(w3, "message_thread_id", IntOpt(messageThreadID));
      var w5 := Then(w4, "parse_mode", StrOpt(parseMode));
      var w6 := Then(w5, "caption_entities", StrOpt(captionEntities));
      var w7 := Then(w6, "duration", IntOpt(duration));
      var w8 := Then(w7, "performer", StrOpt(performer));
      var w9 := Then(w8, "title", StrOpt(title));
      var w10 := Then(w9, "thumbnail", FileOpt(thumbnail));
      var w11 := Then(w10, "thumbnail", StrOpt(thumbnailString));
      var w12 := Then(w11, "disable_notification", BoolOpt(disableNotification));
      var w13 := Then(w12, "protect_content", BoolOpt(protectContent));
      var w14 := Then(w13, "reply_to_message_id", IntOpt(replyToMessageID));
      var w15 := Then(w14, "allow_sending_without_reply", BoolOpt(allowSendingWithoutReply));
      var w16 := Then(w15, "reply_markup", StrOpt(inlineKeyboardMarkup));
      var w17 := Then(w16, "reply_markup", StrOpt(replyKeyboardMarkup));
      var w18 := Then(w17, "reply_markup", StrOpt(replyKeyboardRemove));
      var w19 := Then(w18, "reply_markup", StrOpt(forceReply));
      LastSetOther(w0, "chat_id", IntOpt(chatID), "audio");
      LastSetSame(w1, "audio", FileOpt(audio));
      LastSetSame(w2, "audio", StrOpt(audioString));
      LastSetOther(w3, "message_thread_id", IntOpt(messageThreadID), "audio");
      LastSetOther(w4, "parse_mode", StrOpt(parseMode), "audio");
      LastSetOther(w5, "caption_entities", StrOpt(captionEntities), "audio");
      LastSetOther(w6, "duration", IntOpt(duration), "audio");
      LastSetOther(w7, "performer", StrOpt(performer), "audio");
      LastSetOther(w8, "title", StrOpt(title), "audio");
      LastSetOther(w9, "thumbnail", FileOpt(thumbnail), "audio");
      LastSetOther(w10, "thumbnail", StrOpt(thumbnailString), "audio");
      LastSetOther(w11, "disable_notification", BoolOpt(disableNotification), "audio");
      LastSetOther(w12, "protect_content", BoolOpt(protectContent), "audio");
      LastSetOther(w13, "reply_to_message_id", IntOpt(replyToMessageID), "audio");
      LastSetOther(w14, "allow_sending_without_reply", BoolOpt(allowSendingWithoutReply), "audio");
      LastSetOther(w15, "reply_markup", StrOpt(inlineKeyboardMarkup), "audio");
      LastSetOther(w16, "reply_markup", StrOpt(replyKeyboardMarkup), "audio");
      LastSetOther(w17, "reply_markup", StrOpt(replyKeyboardRemove), "audio");
      LastSetOther(w18, "reply_markup", StrOpt(forceReply), "audio");
      WrittenLastSet(w19, "audio");
    }

    /** The value the calls leave at `message_thread_id`. */
    lemma PlanMessageThreadID()
      ensures HoldsIfSet(OrEmpty(Written(Plan())), "message_thread_id", IntOpt(messageThreadID))
    {
      var w0 := NoWrites;
      var w1 := Then(w0, "chat_id", IntOpt(chatID));
      var w2 := Then(w1, "audio", FileOpt(audio));
      var w3 := Then(w2, "audio", StrOpt(audioString));
      var w4 := Then(w3, "message_thread_id", IntOpt(messageThreadID));
      var w5 := Then(w4, "parse_mode", StrOpt(parseMode));
      var w6 := Then(w5, "caption_entities", StrOpt(captionEntities));
      var w7 := Then(w6, "duration", IntOpt(duration));
      var w8 := Then(w7, "performer", StrOpt(performer));
      var w9 := Then(w8, "title", StrOpt(title));
      var w10 := Then(w9, "thumbnail", FileOpt(thumbnail));
      var w11 := Then(w10, "thumbnail", StrOpt(thumbnailString));
      var w12 := Then(w11, "disable_notification", BoolOpt(disableNotification));
      var w13 := Then(w12, "protect_content", BoolOpt(protectContent));
      var w14 := Then(w13, "reply_to_message_id", IntOpt(replyToMessageID));
      var w15 := Then(w14, "allow_sending_without_reply", BoolOpt(allowSendingWithoutReply));
      var w16 := Then(w15, "reply_markup", StrOpt(inlineKeyboardMarkup));
      var w17 := Then(w16, "reply_markup", StrOpt(replyKeyboardMarkup));
      var w18 := Then(w17, "reply_markup", StrOpt(replyKeyboardRemove));
      var w19 := Then(w18, "reply_markup", StrOpt(forceReply));
      LastSetOther(w0, "chat_id", IntOpt(chatID), "message_thread_id");
      LastSetOther(w1, "audio", FileOpt(audio), "message_thread_id");
      LastSetOther(w2, "audio", StrOpt(audioString), "message_thread_id");
      LastSetOther(w4, "parse_mode", StrOpt(parseMode), "message_thread_id");
      LastSetOther(w5, "caption_entities", StrOpt(captionEntities), "message_thread_id");
      LastSetOther(w6, "duration", IntOpt(duration), "message_thread_id");
      LastSetOther(w7, "performer", StrOpt(performer), "message_thread_id");
      LastSetOther(w8, "title", StrOpt(title), "message_thread_id");
      LastSetOther(w9, "thumbnail", FileOpt(thumbnail), "message_thread_id");
      LastSetOther(w10, "thumbnail", StrOpt(thumbnailString), "message_thread_id");
      LastSetOther(w11, "disable_notification", BoolOpt(disableNotification), "message_thread_id");
      LastSetOther(w12, "protect_content", BoolOpt(protectContent), "message_thread_id");
      LastSetOther(w13, "reply_to_message_id", IntOpt(replyToMessageID), "message_thread_id");
      LastSetOther(w14, "allow_sending_without_reply", BoolOpt(allowSendingWithoutReply), "message_thread_id");
      LastSetOther(w15, "reply_markup", StrOpt(inlineKeyboardMarkup), "message_thread_id");
      LastSetOther(w16, "reply_markup", StrOpt(replyKeyboardMarkup), "message_thread_id");
      LastSetOther(w17, "reply_markup", StrOpt(replyKeyboardRemove), "message_thread_id");
      LastSetOther(w18, "reply_markup", StrOpt(forceReply), "message_thread_id");
      WrittenLastSet(w19, "message_thread_id");
    }

    /** The value the calls leave at `parse_mode`. */
    lemma PlanParseMode()
      ensures HoldsIfSet(OrEmpty(Written(Plan())), "parse_mode", StrOpt(parseMode))
    {
      var w0 := NoWrites;
      var w1 := Then(w0, "chat_id", IntOpt(chatID));
      var w2 := Then(w1, "audio", FileOpt(audio));
      var w3 := Then(w2, "audio", StrOpt(audioString));
      var w4 := Then(w3, "message_thread_id", IntOpt(messageThreadID));
      var w5 := Then(w4, "parse_mode", StrOpt(parseMode));
      var w6 := Then(w5, "caption_entities", StrOpt(captionEntities));
      var w7 := Then(w6, "duration", IntOpt(duration));
      var w8 := Then(w7, "performer", StrOpt(performer));
      var w9 := Then(w8, "title", StrOpt(title));
      var w10 := Then(w9, "thumbnail", FileOpt(thumbnail));
      var w11 := Then(w10, "thumbnail", StrOpt(thumbnailString));
      var w12 := Then(w11, "disable_notification", BoolOpt(disableNotification));
      var w13 := Then(w12, "protect_content", BoolOpt(protectContent));
      var w14 := Then(w13, "reply_to_message_id", IntOpt(replyToMessageID));
      var w15 := Then(w14, "allow_sending_without_reply", BoolOpt(allowSendingWithoutReply));
      var w16 := Then(w15, "reply_markup", StrOpt(inlineKeyboardMarkup));
      var w17 := Then(w16, "reply_markup", StrOpt(replyKeyboardMarkup));
      var w18 := Then(w17, "reply_markup", StrOpt(replyKeyboardRemove));
      var w19 := Then(w18, "reply_markup", StrOpt(forceReply));
      LastSetOther(w0, "chat_id", IntOpt(chatID), "parse_mode");
      LastSetOther(w1, "audio", FileOpt(audio), "parse_mode");
      LastSetOther(w2, "audio", StrOpt(audioString), "parse_mode");
      LastSetOther(w3, "message_thread_id", IntOpt(messageThreadID), "parse_mode");
      LastSetOther(w5, "caption_entities", StrOpt(captionEntities), "parse_mode");
      LastSetOther(w6, "duration", IntOpt(duration), "parse_mode");
      LastSetOther(w7, "performer", StrOpt(performer), "parse_mode");
      LastSetOther(w8, "title", StrOpt(title), "parse_mode");
      LastSetOther(w9, "thumbnail", FileOpt(thumbnail), "parse_mode");
      LastSetOther(w10, "thumbnail", StrOpt(thumbnailString), "parse_mode");
      LastSetOther(w11, "disable_notification", BoolOpt(disableNotification), "parse_mode");
      LastSetOther(w12, "protect_content", BoolOpt(protectContent), "parse_mode");
      LastSetOther(w13, "reply_to_message_id", IntOpt(replyToMessageID), "parse_mode");
      LastSetOther(w14, "allow_sending_without_reply", BoolOpt(allowSendingWithoutReply), "parse_mode");
      LastSetOther(w15, "reply_markup", StrOpt(inlineKeyboardMarkup), "parse_mode");
      LastSetOther(w16, "reply_markup", StrOpt(replyKeyboardMarkup), "parse_mode");
      LastSetOther(w17, "reply_markup", StrOpt(replyKeyboardRemove), "parse_mode");
      LastSetOther(w18, "reply_markup", StrOpt(forceReply), "parse_mode");
      WrittenLastSet(w19, "parse_mode");
    }

    /** The value the calls leave at `caption_entities`. */
    lemma PlanCaptionEntities()
      ensures HoldsIfSet(OrEmpty(Written(Plan())), "caption_entities", StrOpt(captionEntities))
    {
      var w0 := NoWrites;
      var w1 := Then(w0, "chat_id", IntOpt(chatID));
      var w2 := Then(w1, "audio", FileOpt(audio));
      var w3 := Then(w2, "audio", StrOpt(audioString));
      var w4 := Then(w3, "message_thread_id", IntOpt(messageThreadID));
      var w5 := Then(w4, "parse_mode", StrOpt(parseMode));
      var w6 := Then(w5, "caption_entities", StrOpt(captionEntities));
      var w7 := Then(w6, "duration", IntOpt(duration));
      var w8 := Then(w7, "performer", StrOpt(performer));
      var w9 := Then(w8, "title", StrOpt(title));
      var w10 := Then(w9, "thumbnail", FileOpt(thumbnail));
      var w11 := Then(w10, "thumbnail", StrOpt(thumbnailString));
      var w12 := Then(w11, "disable_notification", BoolOpt(disableNotification));
      var w13 := Then(w12, "protect_content", BoolOpt(protectContent));
      var w14 := Then(w13, "reply_to_message_id", IntOpt(replyToMessageID));
      var w15 := Then(w14, "allow_sending_without_reply", BoolOpt(allowSendingWithoutReply));
      var w16 := Then(w15, "reply_markup", StrOpt(inlineKeyboardMarkup));
      var w17 := Then(w16, "reply_markup", StrOpt(replyKeyboardMarkup));
      var w18 := Then(w17, "reply_markup", StrOpt(replyKeyboardRemove));
      var w19 := Then(w18, "reply_markup", StrOpt(forceReply));
      LastSetOther(w0, "chat_id", IntOpt(chatID), "caption_entities");
      LastSetOther(w1, "audio", FileOpt(audio), "caption_entities");
      LastSetOther(w2, "audio", StrOpt(audioString), "caption_entities");
      LastSetOther(w3, "message_thread_id", IntOpt(messageThreadID), "caption_entities");
      LastSetOther(w4, "parse_mode", StrOpt(parseMode), "caption_entities");
      LastSetOther(w6, "duration", IntOpt(duration), "caption_entities");
      LastSetOther(w7, "performer", StrOpt(performer), "caption_entities");
      LastSetOther(w8, "title", StrOpt(title), "caption_entities");
      LastSetOther(w9, "thumbnail", FileOpt(thumbnail), "caption_entities");
      LastSetOther(w10, "thumbnail", StrOpt(thumbnailString), "caption_entities");
      LastSetOther(w11, "disable_notification", BoolOpt(disableNotification), "caption_entities");
      LastSetOther(w12, "protect_content", BoolOpt(protectContent), "caption_entities");
      LastSetOther(w13, "reply_to_message_id", IntOpt(replyToMessageID), "caption_entities");
      LastSetOther(w14, "allow_sending_without_reply", BoolOpt(allowSendingWithoutReply), "caption_entities");
      LastSetOther(w15, "reply_markup", StrOpt(inlineKeyboardMarkup), "caption_entities");
      LastSetOther(w16, "reply_markup", StrOpt(replyKeyboardMarkup), "caption_entities");
      LastSetOther(w17, "reply_markup", StrOpt(replyKeyboardRemove), "caption_entities");
      LastSetOther(w18, "reply_markup", StrOpt(forceReply), "caption_entities");
      WrittenLastSet(w19, "caption_entities");
    }

    /** The value the calls leave at `duration`. */
    lemma PlanDuration()
      ensures HoldsIfSet(OrEmpty(Written(Plan())), "duration", IntOpt(duration))
    {
      var w0 := NoWrites;
      var w1 := Then(w0, "chat_id", IntOpt(chatID));
      var w2 := Then(w1, "audio", FileOpt(audio));
      var w3 := Then(w2, "audio", StrOpt(audioString));
      var w4 := Then(w3, "message_thread_id", IntOpt(messageThreadID));
      var w5 := Then(w4, "parse_mode", StrOpt(parseMode));
      var w6 := Then(w5, "caption_entities", StrOpt(captionEntities));
      var w7 := Then(w6, "duration", IntOpt(duration));
      var w8 := Then(w7, "performer", StrOpt(performer));
      var w9 := Then(w8, "title", StrOpt(title));
      var w10 := Then(w9, "thumbnail", FileOpt(thumbnail));
      var w11 := Then(w10, "thumbnail", StrOpt(thumbnailString));
      var w12 := Then(w11, "disable_notification", BoolOpt(disableNotification));
      var w13 := Then(w12, "protect_content", BoolOpt(protectContent));
      var w14 := Then(w13, "reply_to_message_id", IntOpt(replyToMessageID));
      var w15 := Then(w14, "allow_sending_without_reply", BoolOpt(allowSendingWithoutReply));
      var w16 := Then(w15, "reply_markup", StrOpt(inlineKeyboardMarkup));
      var w17 := Then(w16, "reply_markup", StrOpt(replyKeyboardMarkup));
      var w18 := Then(w17, "reply_markup", StrOpt(replyKeyboardRemove));
      var w19 := Then(w18, "reply_markup", StrOpt(forceReply));
      LastSetOther(w0, "chat_id", IntOpt(chatID), "duration");
      LastSetOther(w1, "audio", FileOpt(audio), "duration");
      LastSetOther(w2, "audio", StrOpt(audioString), "duration");
      LastSetOther(w3, "message_thread_id", IntOpt(messageThreadID), "duration");
      LastSetOther(w4, "parse_mode", StrOpt(parseMode), "duration");
      LastSetOther(w5, "caption_entities", StrOpt(captionEntities), "duration");
      LastSetOther(w7, "performer", StrOpt(performer), "duration");
      LastSetOther(w8, "title", StrOpt(title), "duration");
      LastSetOther(w9, "thumbnail", FileOpt(thumbnail), "duration");
      LastSetOther(w10, "thumbnail", StrOpt(thumbnailString), "duration");
      LastSetOther(w11, "disable_notification", BoolOpt(disableNotification), "duration");
      LastSetOther(w12, "protect_content", BoolOpt(protectContent), "duration");
      LastSetOther(w13, "reply_to_message_id", IntOpt(replyToMessageID), "duration");
      LastSetOther(w14, "allow_sending_without_reply", BoolOpt(allowSendingWithoutReply), "duration");
      LastSetOther(w15, "reply_markup", StrOpt(inlineKeyboardMarkup), "duration");
      LastSetOther(w16, "reply_markup", StrOpt(replyKeyboardMarkup), "duration");
      LastSetOther(w17, "reply_markup", StrOpt(replyKeyboardRemove), "duration");
      LastSetOther(w18, "reply_markup", StrOpt(forceReply), "duration");
      WrittenLastSet(w19, "duration");
    }

    /** The value the calls leave at `performer`. */
    lemma PlanPerformer()
      ensures HoldsIfSet(OrEmpty(Written(Plan())), "performer", StrOpt(performer))
    {
      var w0 := NoWrites;
      var w1 := Then(w0, "chat_id", IntOpt(chatID));
      var w2 := Then(w1, "audio", FileOpt(audio));
      var w3 := Then(w2, "audio", StrOpt(audioString));
      var w4 := Then(w3, "message_thread_id", IntOpt(messageThreadID));
      var w5 := Then(w4, "parse_mode", StrOpt(parseMode));
      var w6 := Then(w5, "caption_entities", StrOpt(captionEntities));
      var w7 := Then(w6, "duration", IntOpt(duration));
      var w8 := Then(w7, "performer", StrOpt(performer));
      var w9 := Then(w8, "title", StrOpt(title));
      var w10 := Then(w9, "thumbnail", FileOpt(thumbnail));
      var w11 := Then(w10, "thumbnail", StrOpt(thumbnailString));
      var w12 := Then(w11, "disable_notification", BoolOpt(disableNotification));
      var w13 := Then(w12, "protect_content", BoolOpt(protectContent));
      var w14 := Then(w13, "reply_to_message_id", IntOpt(replyToMessageID));
      var w15 := Then(w14, "allow_sending_without_reply", BoolOpt(allowSendingWithoutReply));
      var w16 := Then(w15, "reply_markup", StrOpt(inlineKeyboardMarkup));
      var w17 := Then(w16, "reply_markup", StrOpt(replyKeyboardMarkup));
      var w18 := Then(w17, "reply_markup", StrOpt(replyKeyboardRemove));
      var w19 := Then(w18, "reply_markup", StrOpt(forceReply));
      LastSetOther(w0, "chat_id", IntOpt(chatID), "performer");
      LastSetOther(w1, "audio", FileOpt(audio), "performer");
      LastSetOther(w2, "audio", StrOpt(audioString), "performer");
      LastSetOther(w3, "message_thread_id", IntOpt(messageThreadID), "performer");
      LastSetOther(w4, "parse_mode", StrOpt(parseMode), "performer");
      LastSetOther(w5, "caption_entities", StrOpt(captionEntities), "performer");
      LastSetOther(w6, "duration", IntOpt(duration), "performer");
      LastSetOther(w8, "title", StrOpt(title), "performer");
      LastSetOther(w9, "thumbnail", FileOpt(thumbnail), "performer");
      LastSetOther(w10, "thumbnail", StrOpt(thumbnailString), "performer");
      LastSetOther(w11, "disable_notification", BoolOpt(disableNotification), "performer");
      LastSetOther(w12, "protect_content", BoolOpt(protectContent), "performer");
      LastSetOther(w13, "reply_to_message_id", IntOpt(replyToMessageID), "performer");
      LastSetOther(w14, "allow_sending_without_reply", BoolOpt(allowSendingWithoutReply), "performer");
      LastSetOther(w15, "reply_markup", StrOpt(inlineKeyboardMarkup), "performer");
      LastSetOther(w16, "reply_markup", StrOpt(replyKeyboardMarkup), "performer");
      LastSetOther(w17, "reply_markup", StrOpt(replyKeyboardRemove), "performer");
      LastSetOther(w18, "reply_markup", StrOpt(forceReply), "performer");
      WrittenLastSet(w19, "performer");
    }

    /** The value the calls leave at `title`. */
    lemma PlanTitle()
      ensures HoldsIfSet(OrEmpty(Written(Plan())), "title", StrOpt(title))
    {
      var w0 := NoWrites;
      var w1 := Then(w0, "chat_id", IntOpt(chatID));
      var w2 := Then(w1, "audio", FileOpt(audio));
      var w3 := Then(w2, "audio", StrOpt(audioString));
      var w4 := Then(w3, "message_thread_id", IntOpt(messageThreadID));
      var w5 := Then(w4, "parse_mode", StrOpt(parseMode));
      var w6 := Then(w5, "caption_entities", StrOpt(captionEntities));
      var w7 := Then(w6, "duration", IntOpt(duration));
      var w8 := Then(w7, "performer", StrOpt(performer));
      var w9 := Then(w8, "title", StrOpt(title));
      var w10 := Then(w9, "thumbnail", FileOpt(thumbnail));
      var w11 := Then(w10, "thumbnail", StrOpt(thumbnailString));
      var w12 := Then(w11, "disable_notification", BoolOpt(disableNotification));
      var w13 := Then(w12, "protect_content", BoolOpt(protectContent));
      var w14 := Then(w13, "reply_to_message_id", IntOpt(replyToMessageID));
      var w15 := Then(w14, "allow_sending_without_reply", BoolOpt(allowSendingWithoutReply));
      var w16 := Then(w15, "reply_markup", StrOpt(inlineKeyboardMarkup));
      var w17 := Then(w16, "reply_markup", StrOpt(replyKeyboardMarkup));
      var w18 := Then(w17, "reply_markup", StrOpt(replyKeyboardRemove));
      var w19 := Then(w18, "reply_markup", StrOpt(forceReply));
      LastSetOther(w0, "chat_id", IntOpt(chatID), "title");
      LastSetOther(w1, "audio", FileOpt(audio), "title");
      LastSetOther(w2, "audio", StrOpt(audioString), "title");
      LastSetOther(w3, "message_thread_id", IntOpt(messageThreadID), "title");
      LastSetOther(w4, "parse_mode", StrOpt(parseMode), "title");
      LastSetOther(w5, "caption_entities", StrOpt(captionEntities), "title");
      LastSetOther(w6, "duration", IntOpt(duration), "title");
      LastSetOther(w7, "performer", StrOpt(performer), "title");
      LastSetOther(w9, "thumbnail", FileOpt(thumbnail), "title");
      LastSetOther(w10, "thumbnail", StrOpt(thumbnailString), "title");
      LastSetOther(w11, "disable_notification", BoolOpt(disableNotification), "title");
      LastSetOther(w12, "protect_content", BoolOpt(protectContent), "title");
      LastSetOther(w13, "reply_to_message_id", IntOpt(replyToMessageID), "title");
      LastSetOther(w14, "allow_sending_without_reply", BoolOpt(allowSendingWithoutReply), "title");
      LastSetOther(w15, "reply_markup", StrOpt(inlineKeyboardMarkup), "title");
      LastSetOther(w16, "reply_markup", StrOpt(replyKeyboardMarkup), "title");
      LastSetOther(w17, "reply_markup", StrOpt(replyKeyboardRemove), "title");
      LastSetOther(w18, "reply_markup", StrOpt(forceReply), "title");
      WrittenLastSet(w19, "title");
    }

    /** The value the calls leave at `thumbnail`: the last one set. */
    lemma PlanThumbnail()
      ensures HoldsIfSet(OrEmpty(Written(Plan())), "thumbnail", Later(FileOpt(thumbnail), StrOpt(thumbnailString)))
    {
      var w0 := NoWrites;
      var w1 := Then(w0, "chat_id", IntOpt(chatID));
      var w2 := Then(w1, "audio", FileOpt(audio));
      var w3 := Then(w2, "audio", StrOpt(audioString));
      var w4 := Then(w3, "message_thread_id", IntOpt(messageThreadID));
      var w5 := Then(w4, "parse_mode", StrOpt(parseMode));
      var w6 := Then(w5, "caption_entities", StrOpt(captionEntities));
      var w7 := Then(w6, "duration", IntOpt(duration));
      var w8 := Then(w7, "performer", StrOpt(performer));
      var w9 := Then(w8, "title", StrOpt(title));
      var w10 := Then(w9, "thumbnail", FileOpt(thumbnail));
      var w11 := Then(w10, "thumbnail", StrOpt(thumbnailString));
      var w12 := Then(w11, "disable_notification", BoolOpt(disableNotification));
      var w13 := Then(w12, "protect_content", BoolOpt(protectContent));
      var w14 := Then(w13, "reply_to_message_id", IntOpt(replyToMessageID));
      var w15 := Then(w14, "allow_sending_without_reply", BoolOpt(allowSendingWithoutReply));
      var w16 := Then(w15, "reply_markup", StrOpt(inlineKeyboardMarkup));
      var w17 := Then(w16, "reply_markup", StrOpt(replyKeyboardMarkup));
      var w18 := Then(w17, "reply_markup", StrOpt(replyKeyboardRemove));
      var w19 := Then(w18, "reply_markup", StrOpt(forceReply));
      LastSetOther(w0, "chat_id", IntOpt(chatID), "thumbnail");
      LastSetOther(w1, "audio", FileOpt(audio), "thumbnail");
      LastSetOther(w2, "audio", StrOpt(audioString), "thumbnail");
      LastSetOther(w3, "message_thread_id", IntOpt(messageThreadID), "thumbnail");
      LastSetOther(w4, "parse_mode", StrOpt(parseMode), "thumbnail");
      LastSetOther(w5, "caption_entities", StrOpt(captionEntities), "thumbnail");
      LastSetOther(w6, "duration", IntOpt(duration), "thumbnail");
      LastSetOther(w7, "performer", StrOpt(performer), "thumbnail");
      LastSetOther(w8, "title", StrOpt(title), "thumbnail");
      LastSetSame(w9, "thumbnail", FileOpt(thumbnail));
      LastSetSame(w10, "thumbnail", StrOpt(thumbnailString));
      LastSetOther(w11, "disable_notification", BoolOpt(disableNotification), "thumbnail");
      LastSetOther(w12, "protect_content", BoolOpt(protectContent), "thumbnail");
      LastSetOther(w13, "reply_to_message_id", IntOpt(replyToMessageID), "thumbnail");
      LastSetOther(w14, "allow_sending_without_reply", BoolOpt(allowSendingWithoutReply), "thumbnail");
      LastSetOther(w15, "reply_markup", StrOpt(inlineKeyboardMarkup), "thumbnail");
      LastSetOther(w16, "reply_markup", StrOpt(replyKeyboardMarkup), "thumbnail");
      LastSetOther(w17, "reply_markup", StrOpt(replyKeyboardRemove), "thumbnail");
      LastSetOther(w18, "reply_markup", StrOpt(forceReply), "thumbnail");
      WrittenLastSet(w19, "thumbnail");
    }

    /** The value the calls leave at `disable_notification`. */
    lemma PlanDisableNotification()
      ensures HoldsIfSet(OrEmpty(Written(Plan())), "disable_notification", BoolOpt(disableNotification))
    {
      var w0 := NoWrites;
      var w1 := Then(w0, "chat_id", IntOpt(chatID));
      var w2 := Then(w1, "audio", FileOpt(audio));
      var w3 := Then(w2, "audio", StrOpt(audioString));
      var w4 := Then(w3, "message_thread_id", IntOpt(messageThreadID));
      var w5 := Then(w4, "parse_mode", StrOpt(parseMode));
      var w6 := Then(w5, "caption_entities", StrOpt(captionEntities));
      var w7 := Then(w6, "duration", IntOpt(duration));
      var w8 := Then(w7, "performer", StrOpt(performer));
      var w9 := Then(w8, "title", StrOpt(title));
      var w10 := Then(w9, "thumbnail", FileOpt(thumbnail));
      var w11 := Then(w10, "thumbnail", StrOpt(thumbnailString));
      var w12 := Then(w11, "disable_notification", BoolOpt(disableNotification));
      var w13 := Then(w12, "protect_content", BoolOpt(protectContent));
      var w14 := Then(w13, "reply_to_message_id", IntOpt(replyToMessageID));
      var w15 := Then(w14, "allow_sending_without_reply", BoolOpt(allowSendingWithoutReply));
      var w16 := Then(w15, "reply_markup", StrOpt(inlineKeyboardMarkup));
      var w17 := Then(w16, "reply_markup", StrOpt(replyKeyboardMarkup));
      var w18 := Then(w17, "reply_markup", StrOpt(replyKeyboardRemove));
      var w19 := Then(w18, "reply_markup", StrOpt(forceReply));
      LastSetOther(w0, "chat_id", IntOpt(chatID), "disable_notification");
      LastSetOther(w1, "audio", FileOpt(audio), "disable_notification");
      LastSetOther(w2, "audio", StrOpt(audioString), "disable_notification");
      LastSetOther(w3, "message_thread_id", IntOpt(messageThreadID), "disable_notification");
      LastSetOther(w4, "parse_mode", StrOpt(parseMode), "disable_notification");
      LastSetOther(w5, "caption_entities", StrOpt(captionEntities), "disable_notification");
      LastSetOther(w6, "duration", IntOpt(duration), "disable_notification");
      LastSetOther(w7, "performer", StrOpt(performer), "disable_notification");
      LastSetOther(w8, "title", StrOpt(title), "disable_notification");
      LastSetOther(w9, "thumbnail", FileOpt(thumbnail), "disable_notification");
      LastSetOther(w10, "thumbnail", StrOpt(thumbnailString), "disable_notification");
      LastSetOther(w12, "protect_content", BoolOpt(protectContent), "disable_notification");
      LastSetOther(w13, "reply_to_message_id", IntOpt(replyToMessageID), "disable_notification");
      LastSetOther(w14, "allow_sending_without_reply", BoolOpt(allowSendingWithoutReply), "disable_notification");
      LastSetOther(w15, "reply_markup", StrOpt(inlineKeyboardMarkup), "disable_notification");
      LastSetOther(w16, "reply_markup", StrOpt(replyKeyboardMarkup), "disable_notification");
      LastSetOther(w17, "reply_markup", StrOpt(replyKeyboardRemove), "disable_notification");
      LastSetOther(w18, "reply_markup", StrOpt(forceReply), "disable_notification");
      WrittenLastSet(w19, "disable_notification");
    }

    /** The value the calls leave at `protect_content`. */
    lemma PlanProtectContent()
      ensures HoldsIfSet(OrEmpty(Written(Plan())), "protect_content", BoolOpt(protectContent))
    {
      var w0 := NoWrites;
      var w1 := Then(w0, "chat_id", IntOpt(chatID));
      var w2 := Then(w1, "audio", FileOpt(audio));
      var w3 := Then(w2, "audio", StrOpt(audioString));
      var w4 := Then(w3, "message_thread_id", IntOpt(messageThreadID));
      var w5 := Then(w4, "parse_mode", StrOpt(parseMode));
      var w6 := Then(w5, "caption_entities", StrOpt(captionEntities));
      var w7 := Then(w6, "duration", IntOpt(duration));
      var w8 := Then(w7, "performer", StrOpt(performer));
      var w9 := Then(w8, "title", StrOpt(title));
      var w10 := Then(w9, "thumbnail", FileOpt(thumbnail));
      var w11 := Then(w10, "thumbnail", StrOpt(thumbnailString));
      var w12 := Then(w11, "disable_notification", BoolOpt(disableNotification));
      var w13 := Then(w12, "protect_content", BoolOpt(protectContent));
      var w14 := Then(w13, "reply_to_message_id", IntOpt(replyToMessageID));
      var w15 := Then(w14, "allow_sending_without_reply", BoolOpt(allowSendingWithoutReply));
      var w16 := Then(w15, "reply_markup", StrOpt(inlineKeyboardMarkup));
      var w17 := Then(w16, "reply_markup", StrOpt(replyKeyboardMarkup));
      var w18 := Then(w17, "reply_markup", StrOpt(replyKeyboardRemove));
      var w19 := Then(w18, "reply_markup", StrOpt(forceReply));
      LastSetOther(w0, "chat_id", IntOpt(chatID), "protect_content");
      LastSetOther(w1, "audio", FileOpt(audio), "protect_content");
      LastSetOther(w2, "audio", StrOpt(audioString), "protect_content");
      LastSetOther(w3, "message_thread_id", IntOpt(messageThreadID), "protect_content");
      LastSetOther(w4, "parse_mode", StrOpt(parseMode), "protect_content");
      LastSetOther(w5, "caption_entities", StrOpt(captionEntities), "protect_content");
      LastSetOther(w6, "duration", IntOpt(duration), "protect_content");
      LastSetOther(w7, "performer", StrOpt(performer), "protect_content");
      LastSetOther(w8, "title", StrOpt(title), "protect_content");
      LastSetOther(w9, "thumbnail", FileOpt(thumbnail), "protect_content");
      LastSetOther(w10, "thumbnail", StrOpt(thumbnailString), "protect_content");
      LastSetOther(w11, "disable_notification", BoolOpt(disableNotification), "protect_content");
      LastSetOther(w13, "reply_to_message_id", IntOpt(replyToMessageID), "protect_content");
      LastSetOther(w14, "allow_sending_without_reply", BoolOpt(allowSendingWithoutReply), "protect_content");
      LastSetOther(w15, "reply_markup", StrOpt(inlineKeyboardMarkup), "protect_content");
      LastSetOther(w16, "reply_markup", StrOpt(replyKeyboardMarkup), "protect_content");
      LastSetOther(w17, "reply_markup", StrOpt(replyKeyboardRemove), "protect_content");
      LastSetOther(w18, "reply_markup", StrOpt(forceReply), "protect_content");
      WrittenLastSet(w19, "protect_content");
    }

    /** The value the calls leave at `reply_to_message_id`. */
    lemma PlanReplyToMessageID()
      ensures HoldsIfSet(OrEmpty(Written(Plan())), "reply_to_message_id", IntOpt(replyToMessageID))
    {
      var w0 := NoWrites;
      var w1 := Then(w0, "chat_id", IntOpt(chatID));
      var w2 := Then(w1, "audio", FileOpt(audio));
      var w3 := Then(w2, "audio", StrOpt(audioString));
      var w4 := Then(w3, "message_thread_id", IntOpt(messageThreadID));
      var w5 := Then(w4, "parse_mode", StrOpt(parseMode));
      var w6 := Then(w5, "caption_entities", StrOpt(captionEntities));
      var w7 := Then(w6, "duration", IntOpt(duration));
      var w8 := Then(w7, "performer", StrOpt(performer));
      var w9 := Then(w8, "title", StrOpt(title));
      var w10 := Then(w9, "thumbnail", FileOpt(thumbnail));
      var w11 := Then(w10, "thumbnail", StrOpt(thumbnailString));
      var w12 := Then(w11, "disable_notification", BoolOpt(disableNotification));
      var w13 := Then(w12, "protect_content", BoolOpt(protectContent));
      var w14 := Then(w13, "reply_to_message_id", IntOpt(replyToMessageID));
      var w15 := Then(w14, "allow_sending_without_reply", BoolOpt(allowSendingWithoutReply));
      var w16 := Then(w15, "reply_markup", StrOpt(inlineKeyboardMarkup));
      var w17 := Then(w16, "reply_markup", StrOpt(replyKeyboardMarkup));
      var w18 := Then(w17, "reply_markup", StrOpt(replyKeyboardRemove));
      var w19 := Then(w18, "reply_markup", StrOpt(forceReply));
      LastSetOther(w0, "chat_id", IntOpt(chatID), "reply_to_message_id");
      LastSetOther(w1, "audio", FileOpt(audio), "reply_to_message_id");
      LastSetOther(w2, "audio", StrOpt(audioString), "reply_to_message_id");
      LastSetOther(w3, "message_thread_id", IntOpt(messageThreadID), "reply_to_message_id");
      LastSetOther(w4, "parse_mode", StrOpt(parseMode), "reply_to_message_id");
      LastSetOther(w5, "caption_entities", StrOpt(captionEntities), "reply_to_message_id");
      LastSetOther(w6, "duration", IntOpt(duration), "reply_to_message_id");
      LastSetOther(w7, "performer", StrOpt(performer), "reply_to_message_id");
      LastSetOther(w8, "title", StrOpt(title), "reply_to_message_id");
      LastSetOther(w9, "thumbnail", FileOpt(thumbnail), "reply_to_message_id");
      LastSetOther(w10, "thumbnail", StrOpt(thumbnailString), "reply_to_message_id");
      LastSetOther(w11, "disable_notification", BoolOpt(disableNotification), "reply_to_message_id");
      LastSetOther(w12, "protect_content", BoolOpt(protectContent), "reply_to_message_id");
      LastSetOther(w14, "allow_sending_without_reply", BoolOpt(allowSendingWithoutReply), "reply_to_message_id");
      LastSetOther(w15, "reply_markup", StrOpt(inlineKeyboardMarkup), "reply_to_message_id");
      LastSetOther(w16, "reply_markup", StrOpt(replyKeyboardMarkup), "reply_to_message_id");
      LastSetOther(w17, "reply_markup", StrOpt(replyKeyboardRemove), "reply_to_message_id");
      LastSetOther(w18, "reply_markup", StrOpt(forceReply), "reply_to_message_id");
      WrittenLastSet(w19, "reply_to_message_id");
    }

    /** The value the calls leave at `allow_sending_without_reply`. */
    lemma PlanAllowSendingWithoutReply()
      ensures HoldsIfSet(OrEmpty(Written(Plan())), "allow_sending_without_reply", BoolOpt(allowSendingWithoutReply))
    {
      var w0 := NoWrites;
      var w1 := Then(w0, "chat_id", IntOpt(chatID));
      var w2 := Then(w1, "audio", FileOpt(audio));
      var w3 := Then(w2, "audio", StrOpt(audioString));
      var w4 := Then(w3, "message_thread_id", IntOpt(messageThreadID));
      var w5 := Then(w4, "parse_mode", StrOpt(parseMode));
      var w6 := Then(w5, "caption_entities", StrOpt(captionEntities));
      var w7 := Then(w6, "duration", IntOpt(duration));
      var w8 := Then(w7, "performer", StrOpt(performer));
      var w9 := Then(w8, "title", StrOpt(title));
      var w10 := Then(w9, "thumbnail", FileOpt(thumbnail));
      var w11 := Then(w10, "thumbnail", StrOpt(thumbnailString));
      var w12 := Then(w11, "disable_notification", BoolOpt(disableNotification));
      var w13 := Then(w12, "protect_content", BoolOpt(protectContent));
      var w14 := Then(w13, "reply_to_message_id", IntOpt(replyToMessageID));
      var w15 := Then(w14, "allow_sending_without_reply", BoolOpt(allowSendingWithoutReply));
      var w16 := Then(w15, "reply_markup", StrOpt(inlineKeyboardMarkup));
      var w17 := Then(w16, "reply_markup", StrOpt(replyKeyboardMarkup));
      var w18 := Then(w17, "reply_markup", StrOpt(replyKeyboardRemove));
      var w19 := Then(w18, "reply_markup", StrOpt(forceReply));
      LastSetOther(w0, "chat_id", IntOpt(chatID), "allow_sending_without_reply");
      LastSetOther(w1, "audio", FileOpt(audio), "allow_sending_without_reply");
      LastSetOther(w2, "audio", StrOpt(audioString), "allow_sending_without_reply");
      LastSetOther(w3, "message_thread_id", IntOpt(messageThreadID), "allow_sending_without_reply");
      LastSetOther(w4, "parse_mode", StrOpt(parseMode), "allow_sending_without_reply");
      LastSetOther(w5, "caption_entities", StrOpt(captionEntities), "allow_sending_without_reply");
      LastSetOther(w6, "duration", IntOpt(duration), "allow_sending_without_reply");
      LastSetOther(w7, "performer", StrOpt(performer), "allow_sending_without_reply");
      LastSetOther(w8, "title", StrOpt(title), "allow_sending_without_reply");
      LastSetOther(w9, "thumbnail", FileOpt(thumbnail), "allow_sending_without_reply");
      LastSetOther(w10, "thumbnail", StrOpt(thumbnailString), "allow_sending_without_reply");
      LastSetOther(w11, "disable_notification", BoolOpt(disableNotification), "allow_sending_without_reply");
      LastSetOther(w12, "protect_content", BoolOpt(protectContent), "allow_sending_without_reply");
      LastSetOther(w13, "reply_to_message_id", IntOpt(replyToMessageID), "allow_sending_without_reply");
      LastSetOther(w15, "reply_markup", StrOpt(inlineKeyboardMarkup), "allow_sending_without_reply");
      LastSetOther(w16, "reply_markup", StrOpt(replyKeyboardMarkup), "allow_sending_without_reply");
      LastSetOther(w17, "reply_markup", StrOpt(replyKeyboardRemove), "allow_sending_without_reply");
      LastSetOther(w18, "reply_markup", StrOpt(forceReply), "allow_sending_without_reply");
      WrittenLastSet(w19, "allow_sending_without_reply");
    }

    /** The value the calls leave at `reply_markup`: the last one set. */
    lemma PlanReplyMarkup()
      ensures HoldsIfSet(OrEmpty(Written(Plan())), "reply_markup", Later(Later(Later(StrOpt(inlineKeyboardMarkup), StrOpt(replyKeyboardMarkup)), StrOpt(replyKeyboardRemove)), StrOpt(forceReply)))
    {
      var w0 := NoWrites;
      var w1 := Then(w0, "chat_id", IntOpt(chatID));
      var w2 := Then(w1, "audio", FileOpt(audio));
      var w3 := Then(w2, "audio", StrOpt(audioString));
      var w4 := Then(w3, "message_thread_id", IntOpt(messageThreadID));
      var w5 := Then(w4, "parse_mode", StrOpt(parseMode));
      var w6 := Then(w5, "caption_entities", StrOpt(captionEntities));
      var w7 := Then(w6, "duration", IntOpt(duration));
      var w8 := Then(w7, "performer", StrOpt(performer));
      var w9 := Then(w8, "title", StrOpt(title));
      var w10 := Then(w9, "thumbnail", FileOpt(thumbnail));
      var w11 := Then(w10, "thumbnail", StrOpt(thumbnailString));
      var w12 := Then(w11, "disable_notification", BoolOpt(disableNotification));
      var w13 := Then(w12, "protect_content", BoolOpt(protectContent));
      var w14 := Then(w13, "reply_to_message_id", IntOpt(replyToMessageID));
      var w15 := Then(w14, "allow_sending_without_reply", BoolOpt(allowSendingWithoutReply));
      var w16 := Then(w15, "reply_markup", StrOpt(inlineKeyboardMarkup));
      var w17 := Then(w16, "reply_markup", StrOpt(replyKeyboardMarkup));
      var w18 := Then(w17, "reply_markup", StrOpt(replyKeyboardRemove));
      var w19 := Then(w18, "reply_markup", StrOpt(forceReply));
      LastSetOther(w0, "chat_id", IntOpt(chatID), "reply_markup");
      LastSetOther(w1, "audio", FileOpt(audio), "reply_markup");
      LastSetOther(w2, "audio", StrOpt(audioString), "reply_markup");
      LastSetOther(w3, "message_thread_id", IntOpt(messageThreadID), "reply_markup");
      LastSetOther(w4, "parse_mode", StrOpt(parseMode), "reply_markup");
      LastSetOther(w5, "caption_entities", StrOpt(captionEntities), "reply_markup");
      LastSetOther(w6, "duration", IntOpt(duration), "reply_markup");
      LastSetOther(w7, "performer", StrOpt(performer), "reply_markup");
      LastSetOther(w8, "title", StrOpt(title), "reply_markup");
      LastSetOther(w9, "thumbnail", FileOpt(thumbnail), "reply_markup");
      LastSetOther(w10, "thumbnail", StrOpt(thumbnailString), "reply_markup");
      LastSetOther(w11, "disable_notification", BoolOpt(disableNotification), "reply_markup");
      LastSetOther(w12, "protect_content", BoolOpt(protectContent), "reply_markup");
      LastSetOther(w13, "reply_to_message_id", IntOpt(replyToMessageID), "reply_markup");
      LastSetOther(w14, "allow_sending_without_reply", BoolOpt(allowSendingWithoutReply), "reply_markup");
      LastSetSame(w15, "reply_markup", StrOpt(inlineKeyboardMarkup));
      LastSetSame(w16, "reply_markup", StrOpt(replyKeyboardMarkup));
      LastSetSame(w17, "reply_markup", StrOpt(replyKeyboardRemove));
      LastSetSame(w18, "reply_markup", StrOpt(forceReply));
      WrittenLastSet(w19, "reply_markup");
    }

    /** The calls write no key but these. */
    lemma PlanOnly()
      ensures OrEmpty(Written(Plan())).Keys <= {"chat_id", "audio", "message_thread_id", "parse_mode", "caption_entities", "duration", "performer", "title", "thumbnail", "disable_notification", "protect_content", "reply_to_message_id", "allow_sending_without_reply", "reply_markup"}
      ensures "caption" !in OrEmpty(Written(Plan()))
    {
      var w0 := NoWrites;
      var w1 := Then(w0, "chat_id", IntOpt(chatID));
      var w2 := Then(w1, "audio", FileOpt(audio));
      var w3 := Then(w2, "audio", StrOpt(audioString));
      var w4 := Then(w3, "message_thread_id", IntOpt(messageThreadID));
      var w5 := Then(w4, "parse_mode", StrOpt(parseMode));
      var w6 := Then(w5, "caption_entities", StrOpt(captionEntities));
      var w7 := Then(w6, "duration", IntOpt(duration));
      var w8 := Then(w7, "performer", StrOpt(performer));
      var w9 := Then(w8, "title", StrOpt(title));
      var w10 := Then(w9, "thumbnail", FileOpt(thumbnail));
      var w11 := Then(w10, "thumbnail", StrOpt(thumbnailString));
      var w12 := Then(w11, "disable_notification", BoolOpt(disableNotification));
      var w13 := Then(w12, "protect_content", BoolOpt(protectContent));
      var w14 := Then(w13, "reply_to_message_id", IntOpt(replyToMessageID));
      var w15 := Then(w14, "allow_sending_without_reply", BoolOpt(allowSendingWithoutReply));
      var w16 := Then(w15, "reply_markup", StrOpt(inlineKeyboardMarkup));
      var w17 := Then(w16, "reply_markup", StrOpt(replyKeyboardMarkup));
      var w18 := Then(w17, "reply_markup", StrOpt(replyKeyboardRemove));
      var w19 := Then(w18, "reply_markup", StrOpt(forceReply));
      forall j | j !in {"chat_id", "audio", "message_thread_id", "parse_mode", "caption_entities", "duration", "performer", "title", "thumbnail", "disable_notification", "protect_content", "reply_to_message_id", "allow_sending_without_reply", "reply_markup"}
        ensures j !in OrEmpty(Written(w19))
      {
        LastSetOther(w0, "chat_id", IntOpt(chatID), j);
        LastSetOther(w1, "audio", FileOpt(audio), j);
        LastSetOther(w2, "audio", StrOpt(audioString), j);
        LastSetOther(w3, "message_thread_id", IntOpt(messageThreadID), j);
        LastSetOther(w4, "parse_mode", StrOpt(parseMode), j);
        LastSetOther(w5, "caption_entities", StrOpt(captionEntities), j);
        LastSetOther(w6, "duration", IntOpt(duration), j);
        LastSetOther(w7, "performer", StrOpt(performer), j);
        LastSetOther(w8, "title", StrOpt(title), j);
        LastSetOther(w9, "thumbnail", FileOpt(thumbnail), j);
        LastSetOther(w10, "thumbnail", StrOpt(thumbnailString), j);
        LastSetOther(w11, "disable_notification", BoolOpt(disableNotification), j);
        LastSetOther(w12, "protect_content", BoolOpt(protectContent), j);
        LastSetOther(w13, "reply_to_message_id", IntOpt(replyToMessageID), j);
        LastSetOther(w14, "allow_sending_without_reply", BoolOpt(allowSendingWithoutReply), j);
        LastSetOther(w15, "reply_markup", StrOpt(inlineKeyboardMarkup), j);
        LastSetOther(w16, "reply_markup", StrOpt(replyKeyboardMarkup), j);
        LastSetOther(w17, "reply_markup", StrOpt(replyKeyboardRemove), j);
        LastSetOther(w18, "reply_markup", StrOpt(forceReply), j);
        WrittenLastSet(w19, j);
      }
    }

    /** The request `Do` builds before it calls the API: the endpoint, and a query made
        by the `setParam` calls of `Plan`. */
    method Assemble() returns (r: Request)
      ensures fresh(r)
      ensures r.Fields() == RequestFields(MethodGet, "/sendAudio", Written(Plan()), None, None, None, "", [])
    {
      r := new Request(MethodGet, "/sendAudio");
      ghost var done := NoWrites;
      var _ := r.SetParamIfSet("chat_id", IntOpt(chatID), done);
      done := Then(done, "chat_id", IntOpt(chatID));
      var _ := r.SetParamIfSet("audio", FileOpt(audio), done);
      done := Then(done, "audio", FileOpt(audio));
      var _ := r.SetParamIfSet("audio", StrOpt(audioString), done);
      done := Then(done, "audio", StrOpt(audioString));
      var _ := r.SetParamIfSet("message_thread_id", IntOpt(messageThreadID), done);
      done := Then(done, "message_thread_id", IntOpt(messageThreadID));
      var _ := r.SetParamIfSet("parse_mode", StrOpt(parseMode), done);
      done := Then(done, "parse_mode", StrOpt(parseMode));
      var _ := r.SetParamIfSet("caption_entities", StrOpt(captionEntities), done);
      done := Then(done, "caption_entities", StrOpt(captionEntities));
      var _ := r.SetParamIfSet("duration", IntOpt(duration), done);
      done := Then(done, "duration", IntOpt(duration));
      var _ := r.SetParamIfSet("performer", StrOpt(performer), done);
      done := Then(done, "performer", StrOpt(performer));
      var _ := r.SetParamIfSet("title", StrOpt(title), done);
      done := Then(done, "title", StrOpt(title));
      var _ := r.SetParamIfSet("thumbnail", FileOpt(thumbnail), done);
      done := Then(done, "thumbnail", FileOpt(thumbnail));
      var _ := r.SetParamIfSet("thumbnail", StrOpt(thumbnailString), done);
      done := Then(done, "thumbnail", StrOpt(thumbnailString));
      var _ := r.SetParamIfSet("disable_notification", BoolOpt(disableNotification), done);
      done := Then(done, "disable_notification", BoolOpt(disableNotification));
      var _ := r.SetParamIfSet("protect_content", BoolOpt(protectContent), done);
      done := Then(done, "protect_content", BoolOpt(protectContent));
      var _ := r.SetParamIfSet("reply_to_message_id", IntOpt(replyToMessageID), done);
      done := Then(done, "reply_to_message_id", IntOpt(replyToMessageID));
      var _ := r.SetParamIfSet("allow_sending_without_reply", BoolOpt(allowSendingWithoutReply), done);
      done := Then(done, "allow_sending_without_reply", BoolOpt(allowSendingWithoutReply));
      var _ := r.SetParamIfSet("reply_markup", StrOpt(inlineKeyboardMarkup), done);
      done := Then(done, "reply_markup", StrOpt(inlineKeyboardMarkup));
      var _ := r.SetParamIfSet("reply_markup", StrOpt(replyKeyboardMarkup), done);
      done := Then(done, "reply_markup", StrOpt(replyKeyboardMarkup));
      var _ := r.SetParamIfSet("reply_markup", StrOpt(replyKeyboardRemove), done);
      done := Then(done, "reply_markup", StrOpt(replyKeyboardRemove));
      var _ := r.SetParamIfSet("reply_markup", StrOpt(forceReply), done);
      done := Then(done, "reply_markup", StrOpt(forceReply));
      assert done == Plan();
    }

    /** `Do`: Always sets `chat_id`; sets each of the other keys only when its field is set; then calls the API. */
    method Do(opts: seq<RequestOption>) returns (assembled: RequestFields, res: Option<Bytes>, err: Option<Error>)
      requires chatID.Some?
      ensures assembled.httpMethod == MethodGet && assembled.endpoint == "/sendAudio"
      ensures assembled.form == None && assembled.header == None && assembled.body == None
      ensures assembled.fullURL == "" && assembled.json == []
      ensures Holds(Q(assembled), "chat_id", Int(chatID.value as int))
      ensures HoldsIfSet(Q(assembled), "audio", Later(FileOpt(audio), StrOpt(audioString)))
      ensures HoldsIfSet(Q(assembled), "message_thread_id", IntOpt(messageThreadID))
      ensures HoldsIfSet(Q(assembled), "parse_mode", StrOpt(parseMode))
      ensures HoldsIfSet(Q(assembled), "caption_entities", StrOpt(captionEntities))
      ensures HoldsIfSet(Q(assembled), "duration", IntOpt(duration))
      ensures HoldsIfSet(Q(assembled), "performer", StrOpt(performer))
      ensures HoldsIfSet(Q(assembled), "title", StrOpt(title))
      ensures HoldsIfSet(Q(assembled), "thumbnail", Later(FileOpt(thumbnail), StrOpt(thumbnailString)))
      ensures HoldsIfSet(Q(assembled), "disable_notification", BoolOpt(disableNotification))
      ensures HoldsIfSet(Q(assembled), "protect_content", BoolOpt(protectContent))
      ensures HoldsIfSet(Q(assembled), "reply_to_message_id", IntOpt(replyToMessageID))
      ensures HoldsIfSet(Q(assembled), "allow_sending_without_reply", BoolOpt(allowSendingWithoutReply))
      ensures HoldsIfSet(Q(assembled), "reply_markup", Later(Later(Later(StrOpt(inlineKeyboardMarkup), StrOpt(replyKeyboardMarkup)), StrOpt(replyKeyboardRemove)), StrOpt(forceReply)))
      ensures Q(assembled).Keys <= {"chat_id", "audio", "message_thread_id", "parse_mode", "caption_entities", "duration", "performer", "title", "thumbnail", "disable_notification", "protect_content", "reply_to_message_id", "allow_sending_without_reply", "reply_markup"}
      ensures "caption" !in Q(assembled)
      ensures var o := c.Outcome(assembled, opts);
        err == o.1 && res == (if o.1.Some? then None else o.0)
    {
      var r := Assemble();
      assembled := r.Fields();
      var data, e := c.CallAPI(r, opts);
      PlanOnly();
      PlanChatID();
      PlanAudio();
      PlanMessageThreadID();
      PlanParseMode();
      PlanCaptionEntities();
      PlanDuration();
      PlanPerformer();
      PlanTitle();
      PlanThumbnail();
      PlanDisableNotification();
      PlanProtectContent();
      PlanReplyToMessageID();
      PlanAllowSendingWithoutReply();
      PlanReplyMarkup();
      if e.Some? {
        return assembled, None, e;
      }
      res, err := data, None;
    }
  }

  /** `SendDocumentService`: a GET request to `/sendDocument`. */
  class SendDocumentService {
    const c: Client
    var chatID: Option<int64>
    var messageThreadID: Option<int64>
    var document: Option<InputFile>
    var documentString: Option<string>
    var thumbnail: Option<InputFile>
    var thumbnailString: Option<string>
    var caption: Option<string>
    var parseMode: Option<string>
    var captionEntities: Option<string>
    var disableNotification: Option<bool>
    var protectContent: Option<bool>
    var replyToMessageID: Option<int64>
    var allowSendingWithoutReply: Option<bool>
    var inlineKeyboardMarkup: Option<string>
    var replyKeyboardMarkup: Option<string>
    var replyKeyboardRemove: Option<string>
    var forceReply: Option<string>

    /** `NewSendDocumentService`: every field starts out unset. */
    constructor (c: Client)
      ensures this.c == c
      ensures chatID == None && messageThreadID == None && document == None
      ensures documentString == None && thumbnail == None && thumbnailString == None
      ensures caption == None && parseMode == None && captionEntities == None
      ensures disableNotification == None && protectContent == None && replyToMessageID == None
      ensures allowSendingWithoutReply == None && inlineKeyboardMarkup == None && replyKeyboardMarkup == None
      ensures replyKeyboardRemove == None && forceReply == None
    {
      this.c := c;
      chatID := None;
      messageThreadID := None;
      document := None;
      documentString := None;
      thumbnail := None;
      thumbnailString := None;
      caption := None;
      parseMode := None;
      captionEntities := None;
      disableNotification := None;
      protectContent := None;
      replyToMessageID := None;
      allowSendingWithoutReply := None;
      inlineKeyboardMarkup := None;
      replyKeyboardMarkup := None;
      replyKeyboardRemove := None;
      forceReply := None;
    }

    /** `ChatID`: stores its argument in `chatID`. */
    method ChatID(chatID: int64) returns (t: SendDocumentService)
      modifies this`chatID
      ensures this.chatID == Some(chatID) && t == this
    {
      this.chatID := Some(chatID);
      t := this;
    }

    /** `MessageThreadID`: stores its argument in `messageThreadID`. */
    method MessageThreadID(messageThreadID: int64) returns (t: SendDocumentService)
      modifies this`messageThreadID
      ensures this.messageThreadID == Some(messageThreadID) && t == this
    {
      this.messageThreadID := Some(messageThreadID);
      t := this;
    }

    /** `ParseMode`: stores its argument in `parseMode`. */
    method ParseMode(parseMode: string) returns (t: SendDocumentService)
      modifies this`parseMode
      ensures this.parseMode == Some(parseMode) && t == this
    {
      this.parseMode := Some(parseMode);
      t := this;
    }

    /** `CaptionEntities`: stores the JSON text of its argument in `captionEntities`. `marshalled` is what
        `jsoniter.Marshal` makes of the argument, `None` when marshalling fails; then
        nothing changes and the result is nil. */
    method CaptionEntities(marshalled: Option<string>) returns (t: SendDocumentService?)
      modifies this`captionEntities
      ensures marshalled.None? ==> t == null && captionEntities == old(captionEntities)
      ensures marshalled.Some? ==> t == this && captionEntities == marshalled
    {
      if marshalled.None? {
        return null;
      }
      captionEntities := marshalled;
      t := this;
    }

    /** `Document`: stores its argument in `document`. */
    method Document(document: InputFile) returns (t: SendDocumentService)
      modifies this`document
      ensures this.document == Some(document) && t == this
    {
      this.document := Some(document);
      t := this;
    }

    /** `DocumentString`: stores its argument in `documentString`. */
    method DocumentString(documentString: string) returns (t: SendDocumentService)
      modifies this`documentString
      ensures this.documentString == Some(documentString) && t == this
    {
      this.documentString := Some(documentString);
      t := this;
    }

    /** `Thumbnail`: stores its argument in `thumbnail`. */
    method Thumbnail(thumbnail: InputFile) returns (t: SendDocumentService)
      modifies this`thumbnail
      ensures this.thumbnail == Some(thumbnail) && t == this
    {
      this.thumbnail := Some(thumbnail);
      t := this;
    }

    /** `ThumbnailString`: stores its argument in `thumbnailString`. */
    method ThumbnailString(thumbnailString: string) returns (t: SendDocumentService)
      modifies this`thumbnailString
      ensures this.thumbnailString == Some(thumbnailString) && t == this
    {
      this.thumbnailString := Some(thumbnailString);
      t := this;
    }

    /** `DisableNotification`: stores its argument in `disableNotification`. */
    method DisableNotification(disableNotification: bool) returns (t: SendDocumentService)
      modifies this`disableNotification
      ensures this.disableNotification == Some(disableNotification) && t == this
    {
      this.disableNotification := Some(disableNotification);
      t := this;
    }

    /** `ProtectContent`: stores its argument in `protectContent`. */
    method ProtectContent(protectContent: bool) returns (t: SendDocumentService)
      modifies this`protectContent
      ensures this.protectContent == Some(protectContent) && t == this
    {
      this.protectContent := Some(protectContent);
      t := this;
    }

    /** `ReplyToMessageID`: stores its argument in `replyToMessageID`. */
    method ReplyToMessageID(replyToMessageID: int64) returns (t: SendDocumentService)
      modifies this`replyToMessageID
      ensures this.replyToMessageID == Some(replyToMessageID) && t == this
    {
      this.replyToMessageID := Some(replyToMessageID);
      t := this;
    }

    /** `AllowSendingWithoutReply`: stores its argument in `allowSendingWithoutReply`. */
    method AllowSendingWithoutReply(allowSendingWithoutReply: bool) returns (t: SendDocumentService)
      modifies this`allowSendingWithoutReply
      ensures this.allowSendingWithoutReply == Some(allowSendingWithoutReply) && t == this
    {
      this.allowSendingWithoutReply := Some(allowSendingWithoutReply);
      t := this;
    }

    /** `InlineKeyboardMarkup`: stores the JSON text of its argument in `inlineKeyboardMarkup`. `marshalled` is what
        `jsoniter.Marshal` makes of the argument, `None` when marshalling fails; then
        nothing changes and the result is nil. */
    method InlineKeyboardMarkup(marshalled: Option<string>) returns (t: SendDocumentService?)
      modifies this`inlineKeyboardMarkup
      ensures marshalled.None? ==> t == null && inlineKeyboardMarkup == old(inlineKeyboardMarkup)
      ensures marshalled.Some? ==> t == this && inlineKeyboardMarkup == marshalled
    {
      if marshalled.None? {
        return null;
      }
      inlineKeyboardMarkup := marshalled;
      t := this;
    }

    /** `ReplyKeyboardMarkup`: stores the JSON text of its argument in `replyKeyboardMarkup`. `marshalled` is what
        `jsoniter.Marshal` makes of the argument, `None` when marshalling fails; then
        nothing changes and the result is nil. */
    method ReplyKeyboardMarkup(marshalled: Option<string>) returns (t: SendDocumentService?)
      modifies this`replyKeyboardMarkup
      ensures marshalled.None? ==> t == null && replyKeyboardMarkup == old(replyKeyboardMarkup)
      ensures marshalled.Some? ==> t == this && replyKeyboardMarkup == marshalled
    {
      if marshalled.None? {
        return null;
      }
      replyKeyboardMarkup := marshalled;
      t := this;
    }

    /** `ReplyKeyboardRemove`: stores the JSON text of its argument in `replyKeyboardRemove`. `marshalled` is what
        `jsoniter.Marshal` makes of the argument, `None` when marshalling fails; then
        nothing changes and the result is nil. */
    method ReplyKeyboardRemove(marshalled: Option<string>) returns (t: SendDocumentService?)
      modifies this`replyKeyboardRemove
      ensures marshalled.None? ==> t == null && replyKeyboardRemove == old(replyKeyboardRemove)
      ensures marshalled.Some? ==> t == this && replyKeyboardRemove == marshalled
    {
      if marshalled.None? {
        return null;
      }
      replyKeyboardRemove := marshalled;
      t := this;
    }

    /** `ForceReply`: stores the JSON text of its argument in `forceReply`. `marshalled` is what
        `jsoniter.Marshal` makes of the argument, `None` when marshalling fails; then
        nothing changes and the result is nil. */
    method ForceReply(marshalled: Option<string>) returns (t: SendDocumentService?)
      modifies this`forceReply
      ensures marshalled.None? ==> t == null && forceReply == old(forceReply)
      ensures marshalled.Some? ==> t == this && forceReply == marshalled
    {
      if marshalled.None? {
        return null;
      }
      forceReply := marshalled;
      t := this;
    }

    /** The `setParam` calls `Do` makes, in order; a call that is skipped because its
        field is unset has value `None`. */
    ghost function Plan(): Writes
      reads this
    {
      var w1 := Then(NoWrites, "chat_id", IntOpt(chatID));
      var w2 := Then(w1, "document", FileOpt(document));
      var w3 := Then(w2, "document", StrOpt(documentString));
      var w4 := Then(w3, "message_thread_id", IntOpt(messageThreadID));
      var w5 := Then(w4, "parse_mode", StrOpt(parseMode));
      var w6 := Then(w5, "caption_entities", StrOpt(captionEntities));
      var w7 := Then(w6, "caption", StrOpt(caption));
      var w8 := Then(w7, "disable_notification", BoolOpt(disableNotification));
      var w9 := Then(w8, "protect_content", BoolOpt(protectContent));
      var w10 := Then(w9, "reply_to_message_id", IntOpt(replyToMessageID));
      var w11 := Then(w10, "allow_sending_without_reply", BoolOpt(allowSendingWithoutReply));
      var w12 := Then(w11, "reply_markup", StrOpt(inlineKeyboardMarkup));
      var w13 := Then(w12, "reply_markup", StrOpt(replyKeyboardMarkup));
      var w14 := Then(w13, "reply_markup", StrOpt(replyKeyboardRemove));
      var w15 := Then(w14, "reply_markup", StrOpt(forceReply));
      w15
    }

    /** The value the calls leave at `chat_id`. */
    lemma PlanChatID()
      ensures HoldsIfSet(OrEmpty(Written(Plan())), "chat_id", IntOpt(chatID))
    {
      var w0 := NoWrites;
      var w1 := Then(w0, "chat_id", IntOpt(chatID));
      var w2 := Then(w1, "document", FileOpt(document));
      var w3 := Then(w2, "document", StrOpt(documentString));
      var w4 := Then(w3, "message_thread_id", IntOpt(messageThreadID));
      var w5 := Then(w4, "parse_mode", StrOpt(parseMode));
      var w6 := Then(w5, "caption_entities", StrOpt(captionEntities));
      var w7 := Then(w6, "caption", StrOpt(caption));
      var w8 := Then(w7, "disable_notification", BoolOpt(disableNotification));
      var w9 := Then(w8, "protect_content", BoolOpt(protectContent));
      var w10 := Then(w9, "reply_to_message_id", IntOpt(replyToMessageID));
      var w11 := Then(w10, "allow_sending_without_reply", BoolOpt(allowSendingWithoutReply));
      var w12 := Then(w11, "reply_markup", StrOpt(inlineKeyboardMarkup));
      var w13 := Then(w12, "reply_markup", StrOpt(replyKeyboardMarkup));
      var w14 := Then(w13, "reply_markup", StrOpt(replyKeyboardRemove));
      var w15 := Then(w14, "reply_markup", StrOpt(forceReply));
      LastSetOther(w1, "document", FileOpt(document), "chat_id");
      LastSetOther(w2, "document", StrOpt(documentString), "chat_id");
      LastSetOther(w3, "message_thread_id", IntOpt(messageThreadID), "chat_id");
      LastSetOther(w4, "parse_mode", StrOpt(parseMode), "chat_id");
      LastSetOther(w5, "caption_entities", StrOpt(captionEntities), "chat_id");
      LastSetOther(w6, "caption", StrOpt(caption), "chat_id");
      LastSetOther(w7, "disable_notification", BoolOpt(disableNotification), "chat_id");
      LastSetOther(w8, "protect_content", BoolOpt(protectContent), "chat_id");
      LastSetOther(w9, "reply_to_message_id", IntOpt(replyToMessageID), "chat_id");
      LastSetOther(w10, "allow_sending_without_reply", BoolOpt(allowSendingWithoutReply), "chat_id");
      LastSetOther(w11, "reply_markup", StrOpt(inlineKeyboardMarkup), "chat_id");
      LastSetOther(w12, "reply_markup", StrOpt(replyKeyboardMarkup), "chat_id");
      LastSetOther(w13, "reply_markup", StrOpt(replyKeyboardRemove), "chat_id");
      LastSetOther(w14, "reply_markup", StrOpt(forceReply), "chat_id");
      WrittenLastSet(w15, "chat_id");
    }

    /** The value the calls leave at `document`: the last one set. */
    lemma PlanDocument()
      ensures HoldsIfSet(OrEmpty(Written(Plan())), "document", Later(FileOpt(document), StrOpt(documentString)))
    {
      var w0 := NoWrites;
      var w1 := Then(w0, "chat_id", IntOpt(chatID));
      var w2 := Then(w1, "document", FileOpt(document));
      var w3 := Then(w2, "document", StrOpt(documentString));
      var w4 := Then(w3, "message_thread_id", IntOpt(messageThreadID));
      var w5 := Then(w4, "parse_mode", StrOpt(parseMode));
      var w6 := Then(w5, "caption_entities", StrOpt(captionEntities));
      var w7 := Then(w6, "caption", StrOpt(caption));
      var w8 := Then(w7, "disable_notification", BoolOpt(disableNotification));
      var w9 := Then(w8, "protect_content", BoolOpt(protectContent));
      var w10 := Then(w9, "reply_to_message_id", IntOpt(replyToMessageID));
      var w11 := Then(w10, "allow_sending_without_reply", BoolOpt(allowSendingWithoutReply));
      var w12 := Then(w11, "reply_markup", StrOpt(inlineKeyboardMarkup));
      var w13 := Then(w12, "reply_markup", StrOpt(replyKeyboardMarkup));
      var w14 := Then(w13, "reply_markup", StrOpt(replyKeyboardRemove));
      var w15 := Then(w14, "reply_markup", StrOpt(forceReply));
      LastSetOther(w0, "chat_id", IntOpt(chatID), "document");
      LastSetSame(w1, "document", FileOpt(document));
      LastSetSame(w2, "document", StrOpt(documentString));
      LastSetOther(w3, "message_thread_id", IntOpt(messageThreadID), "document");
      LastSetOther(w4, "parse_mode", StrOpt(parseMode), "document");
      LastSetOther(w5, "caption_entities", StrOpt(captionEntities), "document");
      LastSetOther(w6, "caption", StrOpt(caption), "document");
      LastSetOther(w7, "disable_notification", BoolOpt(disableNotification), "document");
      LastSetOther(w8, "protect_content", BoolOpt(protectContent), "document");
      LastSetOther(w9, "reply_to_message_id", IntOpt(replyToMessageID), "document");
      LastSetOther(w10, "allow_sending_without_reply", BoolOpt(allowSendingWithoutReply), "document");
      LastSetOther(w11, "reply_markup", StrOpt(inlineKeyboardMarkup), "document");
      LastSetOther(w12, "reply_markup", StrOpt(replyKeyboardMarkup), "document");
      LastSetOther(w13, "reply_markup", StrOpt(replyKeyboardRemove), "document");
      LastSetOther(w14, "reply_markup", StrOpt(forceReply), "document");
      WrittenLastSet(w15, "document");
    }

    /** The value the calls leave at `message_thread_id`. */
    lemma PlanMessageThreadID()
      ensures HoldsIfSet(OrEmpty(Written(Plan())), "message_thread_id", IntOpt(messageThreadID))
    {
      var w0 := NoWrites;
      var w1 := Then(w0, "chat_id", IntOpt(chatID));
      var w2 := Then(w1, "document", FileOpt(document));
      var w3 := Then(w2, "document", StrOpt(documentString));
      var w4 := Then(w3, "message_thread_id", IntOpt(messageThreadID));
      var w5 := Then(w4, "parse_mode", StrOpt(parseMode));
      var w6 := Then(w5, "caption_entities", StrOpt(captionEntities));
      var w7 := Then(w6, "caption", StrOpt(caption));
      var w8 := Then(w7, "disable_notification", BoolOpt(disableNotification));
      var w9 := Then(w8, "protect_content", BoolOpt(protectContent));
      var w10 := Then(w9, "reply_to_message_id", IntOpt(replyToMessageID));
      var w11 := Then(w10, "allow_sending_without_reply", BoolOpt(allowSendingWithoutReply));
      var w12 := Then(w11, "reply_markup", StrOpt(inlineKeyboardMarkup));
      var w13 := Then(w12, "reply_markup", StrOpt(replyKeyboardMarkup));
      var w14 := Then(w13, "reply_markup", StrOpt(replyKeyboardRemove));
      var w15 := Then(w14, "reply_markup", StrOpt(forceReply));
      LastSetOther(w0, "chat_id", IntOpt(chatID), "message_thread_id");
      LastSetOther(w1, "document", FileOpt(document), "message_thread_id");
      LastSetOther(w2, "document", StrOpt(documentString), "message_thread_id");
      LastSetOther(w4, "parse_mode", StrOpt(parseMode), "message_thread_id");
      LastSetOther(w5, "caption_entities", StrOpt(captionEntities), "message_thread_id");
      LastSetOther(w6, "caption", StrOpt(caption), "message_thread_id");
      LastSetOther(w7, "disable_notification", BoolOpt(disableNotification), "message_thread_id");
      LastSetOther(w8, "protect_content", BoolOpt(protectContent), "message_thread_id");
      LastSetOther(w9, "reply_to_message_id", IntOpt(replyToMessageID), "message_thread_id");
      LastSetOther(w10, "allow_sending_without_reply", BoolOpt(allowSendingWithoutReply), "message_thread_id");
      LastSetOther(w11, "reply_markup", StrOpt(inlineKeyboardMarkup), "message_thread_id");
      LastSetOther(w12, "reply_markup", StrOpt(replyKeyboardMarkup), "message_thread_id");
      LastSetOther(w13, "reply_markup", StrOpt(replyKeyboardRemove), "message_thread_id");
      LastSetOther(w14, "reply_markup", StrOpt(forceReply), "message_thread_id");
      WrittenLastSet(w15, "message_thread_id");
    }

    /** The value the calls leave at `parse_mode`. */
    lemma PlanParseMode()
      ensures HoldsIfSet(OrEmpty(Written(Plan())), "parse_mode", StrOpt(parseMode))
    {
      var w0 := NoWrites;
      var w1 := Then(w0, "chat_id", IntOpt(chatID));
      var w2 := Then(w1, "document", FileOpt(document));
      var w3 := Then(w2, "document", StrOpt(documentString));
      var w4 := Then(w3, "message_thread_id", IntOpt(messageThreadID));
      var w5 := Then(w4, "parse_mode", StrOpt(parseMode));
      var w6 := Then(w5, "caption_entities", StrOpt(captionEntities));
      var w7 := Then(w6, "caption", StrOpt(caption));
      var w8 := Then(w7, "disable_notification", BoolOpt(disableNotification));
      var w9 := Then(w8, "protect_content", BoolOpt(protectContent));
      var w10 := Then(w9, "reply_to_message_id", IntOpt(replyToMessageID));
      var w11 := Then(w10, "allow_sending_without_reply", BoolOpt(allowSendingWithoutReply));
      var w12 := Then(w11, "reply_markup", StrOpt(inlineKeyboardMarkup));
      var w13 := Then(w12, "reply_markup", StrOpt(replyKeyboardMarkup));
      var w14 := Then(w13, "reply_markup", StrOpt(replyKeyboardRemove));
      var w15 := Then(w14, "reply_markup", StrOpt(forceReply));
      LastSetOther(w0, "chat_id", IntOpt(chatID), "parse_mode");
      LastSetOther(w1, "document", FileOpt(document), "parse_mode");
      LastSetOther(w2, "document", StrOpt(documentString), "parse_mode");
      LastSetOther(w3, "message_thread_id", IntOpt(messageThreadID), "parse_mode");
      LastSetOther(w5, "caption_entities", StrOpt(captionEntities), "parse_mode");
      LastSetOther(w6, "caption", StrOpt(caption), "parse_mode");
      LastSetOther(w7, "disable_notification", BoolOpt(disableNotification), "parse_mode");
      LastSetOther(w8, "protect_content", BoolOpt(protectContent), "parse_mode");
      LastSetOther(w9, "reply_to_message_id", IntOpt(replyToMessageID), "parse_mode");
      LastSetOther(w10, "allow_sending_without_reply", BoolOpt(allowSendingWithoutReply), "parse_mode");
      LastSetOther(w11, "reply_markup", StrOpt(inlineKeyboardMarkup), "parse_mode");
      LastSetOther(w12, "reply_markup", StrOpt(replyKeyboardMarkup), "parse_mode");
      LastSetOther(w13, "reply_markup", StrOpt(replyKeyboardRemove), "parse_mode");
      LastSetOther(w14, "reply_markup", StrOpt(forceReply), "parse_mode");
      WrittenLastSet(w15, "parse_mode");
    }

    /** The value the calls leave at `caption_entities`. */
    lemma PlanCaptionEntities()
      ensures HoldsIfSet(OrEmpty(Written(Plan())), "caption_entities", StrOpt(captionEntities))
    {
      var w0 := NoWrites;
      var w1 := Then(w0, "chat_id", IntOpt(chatID));
      var w2 := Then(w1, "document", FileOpt(document));
      var w3 := Then(w2, "document", StrOpt(documentString));
      var w4 := Then(w3, "message_thread_id", IntOpt(messageThreadID));
      var w5 := Then(w4, "parse_mode", StrOpt(parseMode));
      var w6 := Then(w5, "caption_entities", StrOpt(captionEntities));
      var w7 := Then(w6, "caption", StrOpt(caption));
      var w8 := Then(w7, "disable_notification", BoolOpt(disableNotification));
      var w9 := Then(w8, "protect_content", BoolOpt(protectContent));
      var w10 := Then(w9, "reply_to_message_id", IntOpt(replyToMessageID));
      var w11 := Then(w10, "allow_sending_without_reply", BoolOpt(allowSendingWithoutReply));
      var w12 := Then(w11, "reply_markup", StrOpt(inlineKeyboardMarkup));
      var w13 := Then(w12, "reply_markup", StrOpt(replyKeyboardMarkup));
      var w14 := Then(w13, "reply_markup", StrOpt(replyKeyboardRemove));
      var w15 := Then(w14, "reply_markup", StrOpt(forceReply));
      LastSetOther(w0, "chat_id", IntOpt(chatID), "caption_entities");
      LastSetOther(w1, "document", FileOpt(document), "caption_entities");
      LastSetOther(w2, "document", StrOpt(documentString), "caption_entities");
      LastSetOther(w3, "message_thread_id", IntOpt(messageThreadID), "caption_entities");
      LastSetOther(w4, "parse_mode", StrOpt(parseMode), "caption_entities");
      LastSetOther(w6, "caption", StrOpt(caption), "caption_entities");
      LastSetOther(w7, "disable_notification", BoolOpt(disableNotification), "caption_entities");
      LastSetOther(w8, "protect_content", BoolOpt(protectContent), "caption_entities");
      LastSetOther(w9, "reply_to_message_id", IntOpt(replyToMessageID), "caption_entities");
      LastSetOther(w10, "allow_sending_without_reply", BoolOpt(allowSendingWithoutReply), "caption_entities");
      LastSetOther(w11, "reply_markup", StrOpt(inlineKeyboardMarkup), "caption_entities");
      LastSetOther(w12, "reply_markup", StrOpt(replyKeyboardMarkup), "caption_entities");
      LastSetOther(w13, "reply_markup", StrOpt(replyKeyboardRemove), "caption_entities");
      LastSetOther(w14, "reply_markup", StrOpt(forceReply), "caption_entities");
      WrittenLastSet(w15, "caption_entities");
    }

    /** The value the calls leave at `caption`. */
    lemma PlanCaption()
      ensures HoldsIfSet(OrEmpty(Written(Plan())), "caption", StrOpt(caption))
    {
      var w0 := NoWrites;
      var w1 := Then(w0, "chat_id", IntOpt(chatID));
      var w2 := Then(w1, "document", FileOpt(document));
      var w3 := Then(w2, "document", StrOpt(documentString));
      var w4 := Then(w3, "message_thread_id", IntOpt(messageThreadID));
      var w5 := Then(w4, "parse_mode", StrOpt(parseMode));
      var w6 := Then(w5, "caption_entities", StrOpt(captionEntities));
      var w7 := Then(w6, "caption", StrOpt(caption));
      var w8 := Then(w7, "disable_notification", BoolOpt(disableNotification));
      var w9 := Then(w8, "protect_content", BoolOpt(protectContent));
      var w10 := Then(w9, "reply_to_message_id", IntOpt(replyToMessageID));
      var w11 := Then(w10, "allow_sending_without_reply", BoolOpt(allowSendingWithoutReply));
      var w12 := Then(w11, "reply_markup", StrOpt(inlineKeyboardMarkup));
      var w13 := Then(w12, "reply_markup", StrOpt(replyKeyboardMarkup));
      var w14 := Then(w13, "reply_markup", StrOpt(replyKeyboardRemove));
      var w15 := Then(w14, "reply_markup", StrOpt(forceReply));
      LastSetOther(w0, "chat_id", IntOpt(chatID), "caption");
      LastSetOther(w1, "document", FileOpt(document), "caption");
      LastSetOther(w2, "document", StrOpt(documentString), "caption");
      LastSetOther(w3, "message_thread_id", IntOpt(messageThreadID), "caption");
      LastSetOther(w4, "parse_mode", StrOpt(parseMode), "caption");
      LastSetOther(w5, "caption_entities", StrOpt(captionEntities), "caption");
      LastSetOther(w7, "disable_notification", BoolOpt(disableNotification), "caption");
      LastSetOther(w8, "protect_content", BoolOpt(protectContent), "caption");
      LastSetOther(w9, "reply_to_message_id", IntOpt(replyToMessageID), "caption");
      LastSetOther(w10, "allow_sending_without_reply", BoolOpt(allowSendingWithoutReply), "caption");
      LastSetOther(w11, "reply_markup", StrOpt(inlineKeyboardMarkup), "caption");
      LastSetOther(w12, "reply_markup", StrOpt(replyKeyboardMarkup), "caption");
      LastSetOther(w13, "reply_markup", StrOpt(replyKeyboardRemove), "caption");
      LastSetOther(w14, "reply_markup", StrOpt(forceReply), "caption");
      WrittenLastSet(w15, "caption");
    }

    /** The value the calls leave at `disable_notification`. */
    lemma PlanDisableNotification()
      ensures HoldsIfSet(OrEmpty(Written(Plan())), "disable_notification", BoolOpt(disableNotification))
    {
      var w0 := NoWrites;
      var w1 := Then(w0, "chat_id", IntOpt(chatID));
      var w2 := Then(w1, "document", FileOpt(document));
      var w3 := Then(w2, "document", StrOpt(documentString));
      var w4 := Then(w3, "message_thread_id", IntOpt(messageThreadID));
      var w5 := Then(w4, "parse_mode", StrOpt(parseMode));
      var w6 := Then(w5, "caption_entities", StrOpt(captionEntities));
      var w7 := Then(w6, "caption", StrOpt(caption));
      var w8 := Then(w7, "disable_notification", BoolOpt(disableNotification));
      var w9 := Then(w8, "protect_content", BoolOpt(protectContent));
      var w10 := Then(w9, "reply_to_message_id", IntOpt(replyToMessageID));
      var w11 := Then(w10, "allow_sending_without_reply", BoolOpt(allowSendingWithoutReply));
      var w12 := Then(w11, "reply_markup", StrOpt(inlineKeyboardMarkup));
      var w13 := Then(w12, "reply_markup", StrOpt(replyKeyboardMarkup));
      var w14 := Then(w13, "reply_markup", StrOpt(replyKeyboardRemove));
      var w15 := Then(w14, "reply_markup", StrOpt(forceReply));
      LastSetOther(w0, "chat_id", IntOpt(chatID), "disable_notification");
      LastSetOther(w1, "document", FileOpt(document), "disable_notification");
      LastSetOther(w2, "document", StrOpt(documentString), "disable_notification");
      LastSetOther(w3, "message_thread_id", IntOpt(messageThreadID), "disable_notification");
      LastSetOther(w4, "parse_mode", StrOpt(parseMode), "disable_notification");
      LastSetOther(w5, "caption_entities", StrOpt(captionEntities), "disable_notification");
      LastSetOther(w6, "caption", StrOpt(caption), "disable_notification");
      LastSetOther(w8, "protect_content", BoolOpt(protectContent), "disable_notification");
      LastSetOther(w9, "reply_to_message_id", IntOpt(replyToMessageID), "disable_notification");
      LastSetOther(w10, "allow_sending_without_reply", BoolOpt(allowSendingWithoutReply), "disable_notification");
      LastSetOther(w11, "reply_markup", StrOpt(inlineKeyboardMarkup), "disable_notification");
      LastSetOther(w12, "reply_markup", StrOpt(replyKeyboardMarkup), "disable_notification");
      LastSetOther(w13, "reply_markup", StrOpt(replyKeyboardRemove), "disable_notification");
      LastSetOther(w14, "reply_markup", StrOpt(forceReply), "disable_notification");
      WrittenLastSet(w15, "disable_notification");
    }

    /** The value the calls leave at `protect_content`. */
    lemma PlanProtectContent()
      ensures HoldsIfSet(OrEmpty(Written(Plan())), "protect_content", BoolOpt(protectContent))
    {
      var w0 := NoWrites;
      var w1 := Then(w0, "chat_id", IntOpt(chatID));
      var w2 := Then(w1, "document", FileOpt(document));
      var w3 := Then(w2, "document", StrOpt(documentString));
      var w4 := Then(w3, "message_thread_id", IntOpt(messageThreadID));
      var w5 := Then(w4, "parse_mode", StrOpt(parseMode));
      var w6 := Then(w5, "caption_entities", StrOpt(captionEntities));
      var w7 := Then(w6, "caption", StrOpt(caption));
      var w8 := Then(w7, "disable_notification", BoolOpt(disableNotification));
      var w9 := Then(w8, "protect_content", BoolOpt(protectContent));
      var w10 := Then(w9, "reply_to_message_id", IntOpt(replyToMessageID));
      var w11 := Then(w10, "allow_sending_without_reply", BoolOpt(allowSendingWithoutReply));
      var w12 := Then(w11, "reply_markup", StrOpt(inlineKeyboardMarkup));
      var w13 := Then(w12, "reply_markup", StrOpt(replyKeyboardMarkup));
      var w14 := Then(w13, "reply_markup", StrOpt(replyKeyboardRemove));
      var w15 := Then(w14, "reply_markup", StrOpt(forceReply));
      LastSetOther(w0, "chat_id", IntOpt(chatID), "protect_content");
      LastSetOther(w1, "document", FileOpt(document), "protect_content");
      LastSetOther(w2, "document", StrOpt(documentString), "protect_content");
      LastSetOther(w3, "message_thread_id", IntOpt(messageThreadID), "protect_content");
      LastSetOther(w4, "parse_mode", StrOpt(parseMode), "protect_content");
      LastSetOther(w5, "caption_entities", StrOpt(captionEntities), "protect_content");
      LastSetOther(w6, "caption", StrOpt(caption), "protect_content");
      LastSetOther(w7, "disable_notification", BoolOpt(disableNotification), "protect_content");
      LastSetOther(w9, "reply_to_message_id", IntOpt(replyToMessageID), "protect_content");
      LastSetOther(w10, "allow_sending_without_reply", BoolOpt(allowSendingWithoutReply), "protect_content");
      LastSetOther(w11, "reply_markup", StrOpt(inlineKeyboardMarkup), "protect_content");
      LastSetOther(w12, "reply_markup", StrOpt(replyKeyboardMarkup), "protect_content");
      LastSetOther(w13, "reply_markup", StrOpt(replyKeyboardRemove), "protect_content");
      LastSetOther(w14, "reply_markup", StrOpt(forceReply), "protect_content");
      WrittenLastSet(w15, "protect_content");
    }

    /** The value the calls leave at `reply_to_message_id`. */
    lemma PlanReplyToMessageID()
      ensures HoldsIfSet(OrEmpty(Written(Plan())), "reply_to_message_id", IntOpt(replyToMessageID))
    {
      var w0 := NoWrites;
      var w1 := Then(w0, "chat_id", IntOpt(chatID));
      var w2 := Then(w1, "document", FileOpt(document));
      var w3 := Then(w2, "document", StrOpt(documentString));
      var w4 := Then(w3, "message_thread_id", IntOpt(messageThreadID));
      var w5 := Then(w4, "parse_mode", StrOpt(parseMode));
      var w6 := Then(w5, "caption_entities", StrOpt(captionEntities));
      var w7 := Then(w6, "caption", StrOpt(caption));
      var w8 := Then(w7, "disable_notification", BoolOpt(disableNotification));
      var w9 := Then(w8, "protect_content", BoolOpt(protectContent));
      var w10 := Then(w9, "reply_to_message_id", IntOpt(replyToMessageID));
      var w11 := Then(w10, "allow_sending_without_reply", BoolOpt(allowSendingWithoutReply));
      var w12 := Then(w11, "reply_markup", StrOpt(inlineKeyboardMarkup));
      var w13 := Then(w12, "reply_markup", StrOpt(replyKeyboardMarkup));
      var w14 := Then(w13, "reply_markup", StrOpt(replyKeyboardRemove));
      var w15 := Then(w14, "reply_markup", StrOpt(forceReply));
      LastSetOther(w0, "chat_id", IntOpt(chatID), "reply_to_message_id");
      LastSetOther(w1, "document", FileOpt(document), "reply_to_message_id");
      LastSetOther(w2, "document", StrOpt(documentString), "reply_to_message_id");
      LastSetOther(w3, "message_thread_id", IntOpt(messageThreadID), "reply_to_message_id");
      LastSetOther(w4, "parse_mode", StrOpt(parseMode), "reply_to_message_id");
      LastSetOther(w5, "caption_entities", StrOpt(captionEntities), "reply_to_message_id");
      LastSetOther(w6, "caption", StrOpt(caption), "reply_to_message_id");
      LastSetOther(w7, "disable_notification", BoolOpt(disableNotification), "reply_to_message_id");
      LastSetOther(w8, "protect_content", BoolOpt(protectContent), "reply_to_message_id");
      LastSetOther(w10, "allow_sending_without_reply", BoolOpt(allowSendingWithoutReply), "reply_to_message_id");
      LastSetOther(w11, "reply_markup", StrOpt(inlineKeyboardMarkup), "reply_to_message_id");
      LastSetOther(w12, "reply_markup", StrOpt(replyKeyboardMarkup), "reply_to_message_id");
      LastSetOther(w13, "reply_markup", StrOpt(replyKeyboardRemove), "reply_to_message_id");
      LastSetOther(w14, "reply_markup", StrOpt(forceReply), "reply_to_message_id");
      WrittenLastSet(w15, "reply_to_message_id");
    }

    /** The value the calls leave at `allow_sending_without_reply`. */
    lemma PlanAllowSendingWithoutReply()
      ensures HoldsIfSet(OrEmpty(Written(Plan())), "allow_sending_without_reply", BoolOpt(allowSendingWithoutReply))
    {
      var w0 := NoWrites;
      var w1 := Then(w0, "chat_id", IntOpt(chatID));
      var w2 := Then(w1, "document", FileOpt(document));
      var w3 := Then(w2, "document", StrOpt(documentString));
      var w4 := Then(w3, "message_thread_id", IntOpt(messageThreadID));
      var w5 := Then(w4, "parse_mode", StrOpt(parseMode));
      var w6 := Then(w5, "caption_entities", StrOpt(captionEntities));
      var w7 := Then(w6, "caption", StrOpt(caption));
      var w8 := Then(w7, "disable_notification", BoolOpt(disableNotification));
      var w9 := Then(w8, "protect_content", BoolOpt(protectContent));
      var w10 := Then(w9, "reply_to_message_id", IntOpt(replyToMessageID));
      var w11 := Then(w10, "allow_sending_without_reply", BoolOpt(allowSendingWithoutReply));
      var w12 := Then(w11, "reply_markup", StrOpt(inlineKeyboardMarkup));
      var w13 := Then(w12, "reply_markup", StrOpt(replyKeyboardMarkup));
      var w14 := Then(w13, "reply_markup", StrOpt(replyKeyboardRemove));
      var w15 := Then(w14, "reply_markup", StrOpt(forceReply));
      LastSetOther(w0, "chat_id", IntOpt(chatID), "allow_sending_without_reply");
      LastSetOther(w1, "document", FileOpt(document), "allow_sending_without_reply");
      LastSetOther(w2, "document", StrOpt(documentString), "allow_sending_without_reply");
      LastSetOther(w3, "message_thread_id", IntOpt(messageThreadID), "allow_sending_without_reply");
      LastSetOther(w4, "parse_mode", StrOpt(parseMode), "allow_sending_without_reply");
      LastSetOther(w5, "caption_entities", StrOpt(captionEntities), "allow_sending_without_reply");
      LastSetOther(w6, "caption", StrOpt(caption), "allow_sending_without_reply");
      LastSetOther(w7, "disable_notification", BoolOpt(disableNotification), "allow_sending_without_reply");
      LastSetOther(w8, "protect_content", BoolOpt(protectContent), "allow_sending_without_reply");
      LastSetOther(w9, "reply_to_message_id", IntOpt(replyToMessageID), "allow_sending_without_reply");
      LastSetOther(w11, "reply_markup", StrOpt(inlineKeyboardMarkup), "allow_sending_without_reply");
      LastSetOther(w12, "reply_markup", StrOpt(replyKeyboardMarkup), "allow_sending_without_reply");
      LastSetOther(w13, "reply_markup", StrOpt(replyKeyboardRemove), "allow_sending_without_reply");
      LastSetOther(w14, "reply_markup", StrOpt(forceReply), "allow_sending_without_reply");
      WrittenLastSet(w15, "allow_sending_without_reply");
    }

    /** The value the calls leave at `reply_markup`: the last one set. */
    lemma PlanReplyMarkup()
      ensures HoldsIfSet(OrEmpty(Written(Plan())), "reply_markup", Later(Later(Later(StrOpt(inlineKeyboardMarkup), StrOpt(replyKeyboardMarkup)), StrOpt(replyKeyboardRemove)), StrOpt(forceReply)))
    {
      var w0 := NoWrites;
      var w1 := Then(w0, "chat_id", IntOpt(chatID));
      var w2 := Then(w1, "document", FileOpt(document));
      var w3 := Then(w2, "document", StrOpt(documentString));
      var w4 := Then(w3, "message_thread_id", IntOpt(messageThreadID));
      var w5 := Then(w4, "parse_mode", StrOpt(parseMode));
      var w6 := Then(w5, "caption_entities", StrOpt(captionEntities));
      var w7 := Then(w6, "caption", StrOpt(caption));
      var w8 := Then(w7, "disable_notification", BoolOpt(disableNotification));
      var w9 := Then(w8, "protect_content", BoolOpt(protectContent));
      var w10 := Then(w9, "reply_to_message_id", IntOpt(replyToMessageID));
      var w11 := Then(w10, "allow_sending_without_reply", BoolOpt(allowSendingWithoutReply));
      var w12 := Then(w11, "reply_markup", StrOpt(inlineKeyboardMarkup));
      var w13 := Then(w12, "reply_markup", StrOpt(replyKeyboardMarkup));
      var w14 := Then(w13, "reply_markup", StrOpt(replyKeyboardRemove));
      var w15 := Then(w14, "reply_markup", StrOpt(forceReply));
      LastSetOther(w0, "chat_id", IntOpt(chatID), "reply_markup");
      LastSetOther(w1, "document", FileOpt(document), "reply_markup");
      LastSetOther(w2, "document", StrOpt(documentString), "reply_markup");
      LastSetOther(w3, "message_thread_id", IntOpt(messageThreadID), "reply_markup");
      LastSetOther(w4, "parse_mode", StrOpt(parseMode), "reply_markup");
      LastSetOther(w5, "caption_entities", StrOpt(captionEntities), "reply_markup");
      LastSetOther(w6, "caption", StrOpt(caption), "reply_markup");
      LastSetOther(w7, "disable_notification", BoolOpt(disableNotification), "reply_markup");
      LastSetOther(w8, "protect_content", BoolOpt(protectContent), "reply_markup");
      LastSetOther(w9, "reply_to_message_id", IntOpt(replyToMessageID), "reply_markup");
      LastSetOther(w10, "allow_sending_without_reply", BoolOpt(allowSendingWithoutReply), "reply_markup");
      LastSetSame(w11, "reply_markup", StrOpt(inlineKeyboardMarkup));
      LastSetSame(w12, "reply_markup", StrOpt(replyKeyboardMarkup));
      LastSetSame(w13, "reply_markup", StrOpt(replyKeyboardRemove));
      LastSetSame(w14, "reply_markup", StrOpt(forceReply));
      WrittenLastSet(w15, "reply_markup");
    }

    /** The calls write no key but these. */
    lemma PlanOnly()
      ensures OrEmpty(Written(Plan())).Keys <= {"chat_id", "document", "message_thread_id", "parse_mode", "caption_entities", "caption", "disable_notification", "protect_content", "reply_to_message_id", "allow_sending_without_reply", "reply_markup"}
    {
      var w0 := NoWrites;
      var w1 := Then(w0, "chat_id", IntOpt(chatID));
      var w2 := Then(w1, "document", FileOpt(document));
      var w3 := Then(w2, "document", StrOpt(documentString));
      var w4 := Then(w3, "message_thread_id", IntOpt(messageThreadID));
      var w5 := Then(w4, "parse_mode", StrOpt(parseMode));
      var w6 := Then(w5, "caption_entities", StrOpt(captionEntities));
      var w7 := Then(w6, "caption", StrOpt(caption));
      var w8 := Then(w7, "disable_notification", BoolOpt(disableNotification));
      var w9 := Then(w8, "protect_content", BoolOpt(protectContent));
      var w10 := Then(w9, "reply_to_message_id", IntOpt(replyToMessageID));
      var w11 := Then(w10, "allow_sending_without_reply", BoolOpt(allowSendingWithoutReply));
      var w12 := Then(w11, "reply_markup", StrOpt(inlineKeyboardMarkup));
      var w13 := Then(w12, "reply_markup", StrOpt(replyKeyboardMarkup));
      var w14 := Then(w13, "reply_markup", StrOpt(replyKeyboardRemove));
      var w15 := Then(w14, "reply_markup", StrOpt(forceReply));
      forall j | j !in {"chat_id", "document", "message_thread_id", "parse_mode", "caption_entities", "caption", "disable_notification", "protect_content", "reply_to_message_id", "allow_sending_without_reply", "reply_markup"}
        ensures j !in OrEmpty(Written(w15))
      {
        LastSetOther(w0, "chat_id", IntOpt(chatID), j);
        LastSetOther(w1, "document", FileOpt(document), j);
        LastSetOther(w2, "document", StrOpt(documentString), j);
        LastSetOther(w3, "message_thread_id", IntOpt(messageThreadID), j);
        LastSetOther(w4, "parse_mode", StrOpt(parseMode), j);
        LastSetOther(w5, "caption_entities", StrOpt(captionEntities), j);
        LastSetOther(w6, "caption", StrOpt(caption), j);
        LastSetOther(w7, "disable_notification", BoolOpt(disableNotification), j);
        LastSetOther(w8, "protect_content", BoolOpt(protectContent), j);
        LastSetOther(w9, "reply_to_message_id", IntOpt(replyToMessageID), j);
        LastSetOther(w10, "allow_sending_without_reply", BoolOpt(allowSendingWithoutReply), j);
        LastSetOther(w11, "reply_markup", StrOpt(inlineKeyboardMarkup), j);
        LastSetOther(w12, "reply_markup", StrOpt(replyKeyboardMarkup), j);
        LastSetOther(w13, "reply_markup", StrOpt(replyKeyboardRemove), j);
        LastSetOther(w14, "reply_markup", StrOpt(forceReply), j);
        WrittenLastSet(w15, j);
      }
    }

    /** The request `Do` builds before it calls the API: the endpoint, and a query made
        by the `setParam` calls of `Plan`. */
    method Assemble() returns (r: Request)
      ensures fresh(r)
      ensures r.Fields() == RequestFields(MethodGet, "/sendDocument", Written(Plan()), None, None, None, "", [])
    {
      r := new Request(MethodGet, "/sendDocument");
      ghost var done := NoWrites;
      var _ := r.SetParamIfSet("chat_id", IntOpt(chatID), done);
      done := Then(done, "chat_id", IntOpt(chatID));
      var _ := r.SetParamIfSet("document", FileOpt(document), done);
      done := Then(done, "document", FileOpt(document));
      var _ := r.SetParamIfSet("document", StrOpt(documentString), done);
      done := Then(done, "document", StrOpt(documentString));
      var _ := r.SetParamIfSet("message_thread_id", IntOpt(messageThreadID), done);
      done := Then(done, "message_thread_id", IntOpt(messageThreadID));
      var _ := r.SetParamIfSet("parse_mode", StrOpt(parseMode), done);
      done := Then(done, "parse_mode", StrOpt(parseMode));
      var _ := r.SetParamIfSet("caption_entities", StrOpt(captionEntities), done);
      done := Then(done, "caption_entities", StrOpt(captionEntities));
      var _ := r.SetParamIfSet("caption", StrOpt(caption), done);
      done := Then(done, "caption", StrOpt(caption));
      var _ := r.SetParamIfSet("disable_notification", BoolOpt(disableNotification), done);
      done := Then(done, "disable_notification", BoolOpt(disableNotification));
      var _ := r.SetParamIfSet("protect_content", BoolOpt(protectContent), done);
      done := Then(done, "protect_content", BoolOpt(protectContent));
      var _ := r.SetParamIfSet("reply_to_message_id", IntOpt(replyToMessageID), done);
      done := Then(done, "reply_to_message_id", IntOpt(replyToMessageID));
      var _ := r.SetParamIfSet("allow_sending_without_reply", BoolOpt(allowSendingWithoutReply), done);
      done := Then(done, "allow_sending_without_reply", BoolOpt(allowSendingWithoutReply));
      var _ := r.SetParamIfSet("reply_markup", StrOpt(inlineKeyboardMarkup), done);
      done := Then(done, "reply_markup", StrOpt(inlineKeyboardMarkup));
      var _ := r.SetParamIfSet("reply_markup", StrOpt(replyKeyboardMarkup), done);
      done := Then(done, "reply_markup", StrOpt(replyKeyboardMarkup));
      var _ := r.SetParamIfSet("reply_markup", StrOpt(replyKeyboardRemove), done);
      done := Then(done, "reply_markup", StrOpt(replyKeyboardRemove));
      var _ := r.SetParamIfSet("reply_markup", StrOpt(forceReply), done);
      done := Then(done, "reply_markup", StrOpt(forceReply));
      assert done == Plan();
    }

    /** `Do`: Always sets `chat_id`; sets each of the other keys only when its field is set; then calls the API. */
    method Do(opts: seq<RequestOption>) returns (assembled: RequestFields, res: Option<Bytes>, err: Option<Error>)
      requires chatID.Some?
      ensures assembled.httpMethod == MethodGet && assembled.endpoint == "/sendDocument"
      ensures assembled.form == None && assembled.header == None && assembled.body == None
      ensures assembled.fullURL == "" && assembled.json == []
      ensures Holds(Q(assembled), "chat_id", Int(chatID.value as int))
      ensures HoldsIfSet(Q(assembled), "document", Later(FileOpt(document), StrOpt(documentString)))
      ensures HoldsIfSet(Q(assembled), "message_thread_id", IntOpt(messageThreadID))
      ensures HoldsIfSet(Q(assembled), "parse_mode", StrOpt(parseMode))
      ensures HoldsIfSet(Q(assembled), "caption_entities", StrOpt(captionEntities))
      ensures HoldsIfSet(Q(assembled), "caption", StrOpt(caption))
      ensures HoldsIfSet(Q(assembled), "disable_notification", BoolOpt(disableNotification))
      ensures HoldsIfSet(Q(assembled), "protect_content", BoolOpt(protectContent))
      ensures HoldsIfSet(Q(assembled), "reply_to_message_id", IntOpt(replyToMessageID))
      ensures HoldsIfSet(Q(assembled), "allow_sending_without_reply", BoolOpt(allowSendingWithoutReply))
      ensures HoldsIfSet(Q(assembled), "reply_markup", Later(Later(Later(StrOpt(inlineKeyboardMarkup), StrOpt(replyKeyboardMarkup)), StrOpt(replyKeyboardRemove)), StrOpt(forceReply)))
      ensures Q(assembled).Keys <= {"chat_id", "document", "message_thread_id", "parse_mode", "caption_entities", "caption", "disable_notification", "protect_content", "reply_to_message_id", "allow_sending_without_reply", "reply_markup"}
      ensures caption == None ==> "caption" !in Q(assembled)
      ensures var o := c.Outcome(assembled, opts);
        err == o.1 && res == (if o.1.Some? then None else o.0)
    {
      var r := Assemble();
      assembled := r.Fields();
      var data, e := c.CallAPI(r, opts);
      PlanOnly();
      PlanChatID();
      PlanDocument();
      PlanMessageThreadID();
      PlanParseMode();
      PlanCaptionEntities();
      PlanCaption();
      PlanDisableNotification();
      PlanProtectContent();
      PlanReplyToMessageID();
      PlanAllowSendingWithoutReply();
      PlanReplyMarkup();
      if e.Some? {
        return assembled, None, e;
      }
      res, err := data, None;
    }
  }

  /** `SendVideoService`: a GET request to `/sendVideo`. */
  class SendVideoService {
    const c: Client
    var chatID: Option<int64>
    var messageThreadID: Option<int64>
    var video: Option<InputFile>
    var videoString: Option<string>
    var duration: Option<int64>
    var width: Option<int64>
    var height: Option<int64>
    var thumbnail: Option<InputFile>
    var thumbnailString: Option<string>
    var caption: Option<string>
    var parseMode: Option<string>
    var captionEntities: Option<string>
    var hasSpoiler: Option<bool>
    var supportsStreaming: Option<bool>
    var disableNotification: Option<bool>
    var protectContent: Option<bool>
    var replyToMessageID: Option<int64>
    var allowSendingWithoutReply: Option<bool>
    var inlineKeyboardMarkup: Option<string>
    var replyKeyboardMarkup: Option<string>
    var replyKeyboardRemove: Option<string>
    var forceReply: Option<string>

    /** `NewSendVideoService`: every field starts out unset. */
    constructor (c: Client)
      ensures this.c == c
      ensures chatID == None && messageThreadID == None && video == None
      ensures videoString == None && duration == None && width == None
      ensures height == None && thumbnail == None && thumbnailString == None
      ensures caption == None && parseMode == None && captionEntities == None
      ensures hasSpoiler == None && supportsStreaming == None && disableNotification == None
      ensures protectContent == None && replyToMessageID == None && allowSendingWithoutReply == None
      ensures inlineKeyboardMarkup == None && replyKeyboardMarkup == None && replyKeyboardRemove == None
      ensures forceReply == None
    {
      this.c := c;
      chatID := None;
      messageThreadID := None;
      video := None;
      videoString := None;
      duration := None;
      width := None;
      height := None;
      thumbnail := None;
      thumbnailString := None;
      caption := None;
      parseMode := None;
      captionEntities := None;
      hasSpoiler := None;
      supportsStreaming := None;
      disableNotification := None;
      protectContent := None;
      replyToMessageID := None;
      allowSendingWithoutReply := None;
      inlineKeyboardMarkup := None;
      replyKeyboardMarkup := None;
      replyKeyboardRemove := None;
      forceReply := None;
    }

    /** `ChatID`: stores its argument in `chatID`. */
    method ChatID(chatID: int64) returns (t: SendVideoService)
      modifies this`chatID
      ensures this.chatID == Some(chatID) && t == this
    {
      this.chatID := Some(chatID);
      t := this;
    }

    /** `MessageThreadID`: stores its argument in `messageThreadID`. */
    method MessageThreadID(messageThreadID: int64) returns (t: SendVideoService)
      modifies this`messageThreadID
      ensures this.messageThreadID == Some(messageThreadID) && t == this
    {
      this.messageThreadID := Some(messageThreadID);
      t := this;
    }

    /** `ParseMode`: stores its argument in `parseMode`. */
    method ParseMode(parseMode: string) returns (t: SendVideoService)
      modifies this`parseMode
      ensures this.parseMode == Some(parseMode) && t == this
    {
      this.parseMode := Some(parseMode);
      t := this;
    }

    /** `CaptionEntities`: stores the JSON text of its argument in `captionEntities`. `marshalled` is what
        `jsoniter.Marshal` makes of the argument, `None` when marshalling fails; then
        nothing changes and the result is nil. */
    method CaptionEntities(marshalled: Option<string>) returns (t: SendVideoService?)
      modifies this`captionEntities
      ensures marshalled.None? ==> t == null && captionEntities == old(captionEntities)
      ensures marshalled.Some? ==> t == this && captionEntities == marshalled
    {
      if marshalled.None? {
        return null;
      }
      captionEntities := marshalled;
      t := this;
    }

    /** `Video`: stores its argument in `video`. */
    method Video(video: InputFile) returns (t: SendVideoService)
      modifies this`video
      ensures this.video == Some(video) && t == this
    {
      this.video := Some(video);
      t := this;
    }

    /** `VideoString`: stores its argument in `videoString`. */
    method VideoString(videoString: string) returns (t: SendVideoService)
      modifies this`videoString
      ensures this.videoString == Some(videoString) && t == this
    {
      this.videoString := Some(videoString);
      t := this;
    }

    /** `Duration`: stores its argument in `duration`. */
    method Duration(duration: int64) returns (t: SendVideoService)
      modifies this`duration
      ensures this.duration == Some(duration) && t == this
    {
      this.duration := Some(duration);
      t := this;
    }

    /** `Width`: stores its argument in `width`. */
    method Width(width: int64) returns (t: SendVideoService)
      modifies this`width
      ensures this.width == Some(width) && t == this
    {
      this.width := Some(width);
      t := this;
    }

    /** `Height`: stores its argument in `height`. */
    method Height(height: int64) returns (t: SendVideoService)
      modifies this`height
      ensures this.height == Some(height) && t == this
    {
      this.height := Some(height);
      t := this;
    }

    /** `Thumbnail`: stores its argument in `thumbnail`. */
    method Thumbnail(thumbnail: InputFile) returns (t: SendVideoService)
      modifies this`thumbnail
      ensures this.thumbnail == Some(thumbnail) && t == this
    {
      this.thumbnail := Some(thumbnail);
      t := this;
    }

    /** `ThumbnailString`: stores its argument in `thumbnailString`. */
    method ThumbnailString(thumbnailString: string) returns (t: SendVideoService)
      modifies this`thumbnailString
      ensures this.thumbnailString == Some(thumbnailString) && t == this
    {
      this.thumbnailString := Some(thumbnailString);
      t := this;
    }

    /** `DisableNotification`: stores its argument in `disableNotification`. */
    method DisableNotification(disableNotification: bool) returns (t: SendVideoService)
      modifies this`disableNotification
      ensures this.disableNotification == Some(disableNotification) && t == this
    {
      this.disableNotification := Some(disableNotification);
      t := this;
    }

    /** `ProtectContent`: stores its argument in `protectContent`. */
    method ProtectContent(protectContent: bool) returns (t: SendVideoService)
      modifies this`protectContent
      ensures this.protectContent == Some(protectContent) && t == this
    {
      this.protectContent := Some(protectContent);
      t := this;
    }

    /** `HasSpoiler`: stores its argument in `hasSpoiler`. */
    method HasSpoiler(hasSpoiler: bool) returns (t: SendVideoService)
      modifies this`hasSpoiler
      ensures this.hasSpoiler == Some(hasSpoiler) && t == this
    {
      this.hasSpoiler := Some(hasSpoiler);
      t := this;
    }

    /** `SupportsStreaming`: stores its argument in `supportsStreaming`. */
    method SupportsStreaming(supportsStreaming: bool) returns (t: SendVideoService)
      modifies this`supportsStreaming
      ensures this.supportsStreaming == Some(supportsStreaming) && t == this
    {
      this.supportsStreaming := Some(supportsStreaming);
      t := this;
    }

    /** `ReplyToMessageID`: stores its argument in `replyToMessageID`. */
    method ReplyToMessageID(replyToMessageID: int64) returns (t: SendVideoService)
      modifies this`replyToMessageID
      ensures this.replyToMessageID == Some(replyToMessageID) && t == this
    {
      this.replyToMessageID := Some(replyToMessageID);
      t := this;
    }

    /** `AllowSendingWithoutReply`: stores its argument in `allowSendingWithoutReply`. */
    method AllowSendingWithoutReply(allowSendingWithoutReply: bool) returns (t: SendVideoService)
      modifies this`allowSendingWithoutReply
      ensures this.allowSendingWithoutReply == Some(allowSendingWithoutReply) && t == this
    {
      this.allowSendingWithoutReply := Some(allowSendingWithoutReply);
      t := this;
    }

    /** `InlineKeyboardMarkup`: stores the JSON text of its argument in `inlineKeyboardMarkup`. `marshalled` is what
        `jsoniter.Marshal` makes of the argument, `None` when marshalling fails; then
        nothing changes and the result is nil. */
    method InlineKeyboardMarkup(marshalled: Option<string>) returns (t: SendVideoService?)
      modifies this`inlineKeyboardMarkup
      ensures marshalled.None? ==> t == null && inlineKeyboardMarkup == old(inlineKeyboardMarkup)
      ensures marshalled.Some? ==> t == this && inlineKeyboardMarkup == marshalled
    {
      if marshalled.None? {
        return null;
      }
      inlineKeyboardMarkup := marshalled;
      t := this;
    }

    /** `ReplyKeyboardMarkup`: stores the JSON text of its argument in `replyKeyboardMarkup`. `marshalled` is what
        `jsoniter.Marshal` makes of the argument, `None` when marshalling fails; then
        nothing changes and the result is nil. */
    method ReplyKeyboardMarkup(marshalled: Option<string>) returns (t: SendVideoService?)
      modifies this`replyKeyboardMarkup
      ensures marshalled.None? ==> t == null && replyKeyboardMarkup == old(replyKeyboardMarkup)
      ensures marshalled.Some? ==> t == this && replyKeyboardMarkup == marshalled
    {
      if marshalled.None? {
        return null;
      }
      replyKeyboardMarkup := marshalled;
      t := this;
    }

    /** `ReplyKeyboardRemove`: stores the JSON text of its argument in `replyKeyboardRemove`. `marshalled` is what
        `jsoniter.Marshal` makes of the argument, `None` when marshalling fails; then
        nothing changes and the result is nil. */
    method ReplyKeyboardRemove(marshalled: Option<string>) returns (t: SendVideoService?)
      modifies this`replyKeyboardRemove
      ensures marshalled.None? ==> t == null && replyKeyboardRemove == old(replyKeyboardRemove)
      ensures marshalled.Some? ==> t == this && replyKeyboardRemove == marshalled
    {
      if marshalled.None? {
        return null;
      }
      replyKeyboardRemove := marshalled;
      t := this;
    }

    /** `ForceReply`: stores the JSON text of its argument in `forceReply`. `marshalled` is what
        `jsoniter.Marshal` makes of the argument, `None` when marshalling fails; then
        nothing changes and the result is nil. */
    method ForceReply(marshalled: Option<string>) returns (t: SendVideoService?)
      modifies this`forceReply
      ensures marshalled.None? ==> t == null && forceReply == old(forceReply)
      ensures marshalled.Some? ==> t == this && forceReply == marshalled
    {
      if marshalled.None? {
        return null;
      }
      forceReply := marshalled;
      t := this;
    }

    /** The `setParam` calls `Do` makes, in order; a call that is skipped because its
        field is unset has value `None`. */
    ghost function Plan(): Writes
      reads this
    {
      var w1 := Then(NoWrites, "chat_id", IntOpt(chatID));
      var w2 := Then(w1, "video", FileOpt(video));
      var w3 := Then(w2, "video", StrOpt(videoString));
      var w4 := Then(w3, "duration", IntOpt(duration));
      var w5 := Then(w4, "width", IntOpt(width));
      var w6 := Then(w5, "height", IntOpt(height));
      var w7 := Then(w6, "message_thread_id", IntOpt(messageThreadID));
      var w8 := Then(w7, "parse_mode", StrOpt(parseMode));
      var w9 := Then(w8, "caption_entities", StrOpt(captionEntities));
      var w10 := Then(w9, "caption", StrOpt(caption));
      var w11 := Then(w10, "disable_notification", BoolOpt(disableNotification));
      var w12 := Then(w11, "protect_content", BoolOpt(protectContent));
      var w13 := Then(w12, "reply_to_message_id", IntOpt(replyToMessageID));
      var w14 := Then(w13, "has_spoiler", BoolOpt(hasSpoiler));
      var w15 := Then(w14, "supports_streaming", BoolOpt(supportsStreaming));
      var w16 := Then(w15, "allow_sending_without_reply", BoolOpt(allowSendingWithoutReply));
      var w17 := Then(w16, "reply_markup", StrOpt(inlineKeyboardMarkup));
      var w18 := Then(w17, "reply_markup", StrOpt(replyKeyboardMarkup));
      var w19 := Then(w18, "reply_markup", StrOpt(replyKeyboardRemove));
      var w20 := Then(w19, "reply_markup", StrOpt(forceReply));
      w20
    }

    /** The value the calls leave at `chat_id`. */
    lemma PlanChatID()
      ensures HoldsIfSet(OrEmpty(Written(Plan())), "chat_id", IntOpt(chatID))
    {
      var w0 := NoWrites;
      var w1 := Then(w0, "chat_id", IntOpt(chatID));
      var w2 := Then(w1, "video", FileOpt(video));
      var w3 := Then(w2, "video", StrOpt(videoString));
      var w4 := Then(w3, "duration", IntOpt(duration));
      var w5 := Then(w4, "width", IntOpt(width));
      var w6 := Then(w5, "height", IntOpt(height));
      var w7 := Then(w6, "message_thread_id", IntOpt(messageThreadID));
      var w8 := Then(w7, "parse_mode", StrOpt(parseMode));
      var w9 := Then(w8, "caption_entities", StrOpt(captionEntities));
      var w10 := Then(w9, "caption", StrOpt(caption));
      var w11 := Then(w10, "disable_notification", BoolOpt(disableNotification));
      var w12 := Then(w11, "protect_content", BoolOpt(protectContent));
      var w13 := Then(w12, "reply_to_message_id", IntOpt(replyToMessageID));
      var w14 := Then(w13, "has_spoiler", BoolOpt(hasSpoiler));
      var w15 := Then(w14, "supports_streaming", BoolOpt(supportsStreaming));
      var w16 := Then(w15, "allow_sending_without_reply", BoolOpt(allowSendingWithoutReply));
      var w17 := Then(w16, "reply_markup", StrOpt(inlineKeyboardMarkup));
      var w18 := Then(w17, "reply_markup", StrOpt(replyKeyboardMarkup));
      var w19 := Then(w18, "reply_markup", StrOpt(replyKeyboardRemove));
      var w20 := Then(w19, "reply_markup", StrOpt(forceReply));
      LastSetOther(w1, "video", FileOpt(video), "chat_id");
      LastSetOther(w2, "video", StrOpt(videoString), "chat_id");
      LastSetOther(w3, "duration", IntOpt(duration), "chat_id");
      LastSetOther(w4, "width", IntOpt(width), "chat_id");
      LastSetOther(w5, "height", IntOpt(height), "chat_id");
      LastSetOther(w6, "message_thread_id", IntOpt(messageThreadID), "chat_id");
      LastSetOther(w7, "parse_mode", StrOpt(parseMode), "chat_id");
      LastSetOther(w8, "caption_entities", StrOpt(captionEntities), "chat_id");
      LastSetOther(w9, "caption", StrOpt(caption), "chat_id");
      LastSetOther(w10, "disable_notification", BoolOpt(disableNotification), "chat_id");
      LastSetOther(w11, "protect_content", BoolOpt(protectContent), "chat_id");
      LastSetOther(w12, "reply_to_message_id", IntOpt(replyToMessageID), "chat_id");
      LastSetOther(w13, "has_spoiler", BoolOpt(hasSpoiler), "chat_id");
      LastSetOther(w14, "supports_streaming", BoolOpt(supportsStreaming), "chat_id");
      LastSetOther(w15, "allow_sending_without_reply", BoolOpt(allowSendingWithoutReply), "chat_id");
      LastSetOther(w16, "reply_markup", StrOpt(inlineKeyboardMarkup), "chat_id");
      LastSetOther(w17, "reply_markup", StrOpt(replyKeyboardMarkup), "chat_id");
      LastSetOther(w18, "reply_markup", StrOpt(replyKeyboardRemove), "chat_id");
      LastSetOther(w19, "reply_markup", StrOpt(forceReply), "chat_id");
      WrittenLastSet(w20, "chat_id");
    }

    /** The value the calls leave at `video`: the last one set. */
    lemma PlanVideo()
      ensures HoldsIfSet(OrEmpty(Written(Plan())), "video", Later(FileOpt(video), StrOpt(videoString)))
    {
      var w0 := NoWrites;
      var w1 := Then(w0, "chat_id", IntOpt(chatID));
      var w2 := Then(w1, "video", FileOpt(video));
      var w3 := Then(w2, "video", StrOpt(videoString));
      var w4 := Then(w3, "duration", IntOpt(duration));
      var w5 := Then(w4, "width", IntOpt(width));
      var w6 := Then(w5, "height", IntOpt(height));
      var w7 := Then(w6, "message_thread_id", IntOpt(messageThreadID));
      var w8 := Then(w7, "parse_mode", StrOpt(parseMode));
      var w9 := Then(w8, "caption_entities", StrOpt(captionEntities));
      var w10 := Then(w9, "caption", StrOpt(caption));
      var w11 := Then(w10, "disable_notification", BoolOpt(disableNotification));
      var w12 := Then(w11, "protect_content", BoolOpt(protectContent));
      var w13 := Then(w12, "reply_to_message_id", IntOpt(replyToMessageID));
      var w14 := Then(w13, "has_spoiler", BoolOpt(hasSpoiler));
      var w15 := Then(w14, "supports_streaming", BoolOpt(supportsStreaming));
      var w16 := Then(w15, "allow_sending_without_reply", BoolOpt(allowSendingWithoutReply));
      var w17 := Then(w16, "reply_markup", StrOpt(inlineKeyboardMarkup));
      var w18 := Then(w17, "reply_markup", StrOpt(replyKeyboardMarkup));
      var w19 := Then(w18, "reply_markup", StrOpt(replyKeyboardRemove));
      var w20 := Then(w19, "reply_markup", StrOpt(forceReply));
      LastSetOther(w0, "chat_id", IntOpt(chatID), "video");
      LastSetSame(w1, "video", FileOpt(video));
      LastSetSame(w2, "video", StrOpt(videoString));
      LastSetOther(w3, "duration", IntOpt(duration), "video");
      LastSetOther(w4, "width", IntOpt(width), "video");
      LastSetOther(w5, "height", IntOpt(height), "video");
      LastSetOther(w6, "message_thread_id", IntOpt(messageThreadID), "video");
      LastSetOther(w7, "parse_mode", StrOpt(parseMode), "video");
      LastSetOther(w8, "caption_entities", StrOpt(captionEntities), "video");
      LastSetOther(w9, "caption", StrOpt(caption), "video");
      LastSetOther(w10, "disable_notification", BoolOpt(disableNotification), "video");
      LastSetOther(w11, "protect_content", BoolOpt(protectContent), "video");
      LastSetOther(w12, "reply_to_message_id", IntOpt(replyToMessageID), "video");
      LastSetOther(w13, "has_spoiler", BoolOpt(hasSpoiler), "video");
      LastSetOther(w14, "supports_streaming", BoolOpt(supportsStreaming), "video");
      LastSetOther(w15, "allow_sending_without_reply", BoolOpt(allowSendingWithoutReply), "video");
      LastSetOther(w16, "reply_markup", StrOpt(inlineKeyboardMarkup), "video");
      LastSetOther(w17, "reply_markup", StrOpt(replyKeyboardMarkup), "video");
      LastSetOther(w18, "reply_markup", StrOpt(replyKeyboardRemove), "video");
      LastSetOther(w19, "reply_markup", StrOpt(forceReply), "video");
      WrittenLastSet(w20, "video");
    }

    /** The value the calls leave at `duration`. */
    lemma PlanDuration()
      ensures HoldsIfSet(OrEmpty(Written(Plan())), "duration", IntOpt(duration))
    {
      var w0 := NoWrites;
      var w1 := Then(w0, "chat_id", IntOpt(chatID));
      var w2 := Then(w1, "video", FileOpt(video));
      var w3 := Then(w2, "video", StrOpt(videoString));
      var w4 := Then(w3, "duration", IntOpt(duration));
      var w5 := Then(w4, "width", IntOpt(width));
      var w6 := Then(w5, "height", IntOpt(height));
      var w7 := Then(w6, "message_thread_id", IntOpt(messageThreadID));
      var w8 := Then(w7, "parse_mode", StrOpt(parseMode));
      var w9 := Then(w8, "caption_entities", StrOpt(captionEntities));
      var w10 := Then(w9, "caption", StrOpt(caption));
      var w11 := Then(w10, "disable_notification", BoolOpt(disableNotification));
      var w12 := Then(w11, "protect_content", BoolOpt(protectContent));
      var w13 := Then(w12, "reply_to_message_id", IntOpt(replyToMessageID));
      var w14 := Then(w13, "has_spoiler", BoolOpt(hasSpoiler));
      var w15 := Then(w14, "supports_streaming", BoolOpt(supportsStreaming));
      var w16 := Then(w15, "allow_sending_without_reply", BoolOpt(allowSendingWithoutReply));
      var w17 := Then(w16, "reply_markup", StrOpt(inlineKeyboardMarkup));
      var w18 := Then(w17, "reply_markup", StrOpt(replyKeyboardMarkup));
      var w19 := Then(w18, "reply_markup", StrOpt(replyKeyboardRemove));
      var w20 := Then(w19, "reply_markup", StrOpt(forceReply));
      LastSetOther(w0, "chat_id", IntOpt(chatID), "duration");
      LastSetOther(w1, "video", FileOpt(video), "duration");
      LastSetOther(w2, "video", StrOpt(videoString), "duration");
      LastSetOther(w4, "width", IntOpt(width), "duration");
      LastSetOther(w5, "height", IntOpt(height), "duration");
      LastSetOther(w6, "message_thread_id", IntOpt(messageThreadID), "duration");
      LastSetOther(w7, "parse_mode", StrOpt(parseMode), "duration");
      LastSetOther(w8, "caption_entities", StrOpt(captionEntities), "duration");
      LastSetOther(w9, "caption", StrOpt(caption), "duration");
      LastSetOther(w10, "disable_notification", BoolOpt(disableNotification), "duration");
      LastSetOther(w11, "protect_content", BoolOpt(protectContent), "duration");
      LastSetOther(w12, "reply_to_message_id", IntOpt(replyToMessageID), "duration");
      LastSetOther(w13, "has_spoiler", BoolOpt(hasSpoiler), "duration");
      LastSetOther(w14, "supports_streaming", BoolOpt(supportsStreaming), "duration");
      LastSetOther(w15, "allow_sending_without_reply", BoolOpt(allowSendingWithoutReply), "duration");
      LastSetOther(w16, "reply_markup", StrOpt(inlineKeyboardMarkup), "duration");
      LastSetOther(w17, "reply_markup", StrOpt(replyKeyboardMarkup), "duration");
      LastSetOther(w18, "reply_markup", StrOpt(replyKeyboardRemove), "duration");
      LastSetOther(w19, "reply_markup", StrOpt(forceReply), "duration");
      WrittenLastSet(w20, "duration");
    }

    /** The value the calls leave at `width`. */
    lemma PlanWidth()
      ensures HoldsIfSet(OrEmpty(Written(Plan())), "width", IntOpt(width))
    {
      var w0 := NoWrites;
      var w1 := Then(w0, "chat_id", IntOpt(chatID));
      var w2 := Then(w1, "video", FileOpt(video));
      var w3 := Then(w2, "video", StrOpt(videoString));
      var w4 := Then(w3, "duration", IntOpt(duration));
      var w5 := Then(w4, "width", IntOpt(width));
      var w6 := Then(w5, "height", IntOpt(height));
      var w7 := Then(w6, "message_thread_id", IntOpt(messageThreadID));
      var w8 := Then(w7, "parse_mode", StrOpt(parseMode));
      var w9 := Then(w8, "caption_entities", StrOpt(captionEntities));
      var w10 := Then(w9, "caption", StrOpt(caption));
      var w11 := Then(w10, "disable_notification", BoolOpt(disableNotification));
      var w12 := Then(w11, "protect_content", BoolOpt(protectContent));
      var w13 := Then(w12, "reply_to_message_id", IntOpt(replyToMessageID));
      var w14 := Then(w13, "has_spoiler", BoolOpt(hasSpoiler));
      var w15 := Then(w14, "supports_streaming", BoolOpt(supportsStreaming));
      var w16 := Then(w15, "allow_sending_without_reply", BoolOpt(allowSendingWithoutReply));
      var w17 := Then(w16, "reply_markup", StrOpt(inlineKeyboardMarkup));
      var w18 := Then(w17, "reply_markup", StrOpt(replyKeyboardMarkup));
      var w19 := Then(w18, "reply_markup", StrOpt(replyKeyboardRemove));
      var w20 := Then(w19, "reply_markup", StrOpt(forceReply));
      LastSetOther(w0, "chat_id", IntOpt(chatID), "width");
      LastSetOther(w1, "video", FileOpt(video), "width");
      LastSetOther(w2, "video", StrOpt(videoString), "width");
      LastSetOther(w3, "duration", IntOpt(duration), "width");
      LastSetOther(w5, "height", IntOpt(height), "width");
      LastSetOther(w6, "message_thread_id", IntOpt(messageThreadID), "width");
      LastSetOther(w7, "parse_mode", StrOpt(parseMode), "width");
      LastSetOther(w8, "caption_entities", StrOpt(captionEntities), "width");
      LastSetOther(w9, "caption", StrOpt(caption), "width");
      LastSetOther(w10, "disable_notification", BoolOpt(disableNotification), "width");
      LastSetOther(w11, "protect_content", BoolOpt(protectContent), "width");
      LastSetOther(w12, "reply_to_message_id", IntOpt(replyToMessageID), "width");
      LastSetOther(w13, "has_spoiler", BoolOpt(hasSpoiler), "width");
      LastSetOther(w14, "supports_streaming", BoolOpt(supportsStreaming), "width");
      LastSetOther(w15, "allow_sending_without_reply", BoolOpt(allowSendingWithoutReply), "width");
      LastSetOther(w16, "reply_markup", StrOpt(inlineKeyboardMarkup), "width");
      LastSetOther(w17, "reply_markup", StrOpt(replyKeyboardMarkup), "width");
      LastSetOther(w18, "reply_markup", StrOpt(replyKeyboardRemove), "width");
      LastSetOther(w19, "reply_markup", StrOpt(forceReply), "width");
      WrittenLastSet(w20, "width");
    }

    /** The value the calls leave at `height`. */
    lemma PlanHeight()
      ensures HoldsIfSet(OrEmpty(Written(Plan())), "height", IntOpt(height))
    {
      var w0 := NoWrites;
      var w1 := Then(w0, "chat_id", IntOpt(chatID));
      var w2 := Then(w1, "video", FileOpt(video));
      var w3 := Then(w2, "video", StrOpt(videoString));
      var w4 := Then(w3, "duration", IntOpt(duration));
      var w5 := Then(w4, "width", IntOpt(width));
      var w6 := Then(w5, "height", IntOpt(height));
      var w7 := Then(w6, "message_thread_id", IntOpt(messageThreadID));
      var w8 := Then(w7, "parse_mode", StrOpt(parseMode));
      var w9 := Then(w8, "caption_entities", StrOpt(captionEntities));
      var w10 := Then(w9, "caption", StrOpt(caption));
      var w11 := Then(w10, "disable_notification", BoolOpt(disableNotification));
      var w12 := Then(w11, "protect_content", BoolOpt(protectContent));
      var w13 := Then(w12, "reply_to_message_id", IntOpt(replyToMessageID));
      var w14 := Then(w13, "has_spoiler", BoolOpt(hasSpoiler));
      var w15 := Then(w14, "supports_streaming", BoolOpt(supportsStreaming));
      var w16 := Then(w15, "allow_sending_without_reply", BoolOpt(allowSendingWithoutReply));
      var w17 := Then(w16, "reply_markup", StrOpt(inlineKeyboardMarkup));
      var w18 := Then(w17, "reply_markup", StrOpt(replyKeyboardMarkup));
      var w19 := Then(w18, "reply_markup", StrOpt(replyKeyboardRemove));
      var w20 := Then(w19, "reply_markup", StrOpt(forceReply));
      LastSetOther(w0, "chat_id", IntOpt(chatID), "height");
      LastSetOther(w1, "video", FileOpt(video), "height");
      LastSetOther(w2, "video", StrOpt(videoString), "height");
      LastSetOther(w3, "duration", IntOpt(duration), "height");
      LastSetOther(w4, "width", IntOpt(width), "height");
      LastSetOther(w6, "message_thread_id", IntOpt(messageThreadID), "height");
      LastSetOther(w7, "parse_mode", StrOpt(parseMode), "height");
      LastSetOther(w8, "caption_entities", StrOpt(captionEntities), "height");
      LastSetOther(w9, "caption", StrOpt(caption), "height");
      LastSetOther(w10, "disable_notification", BoolOpt(disableNotification), "height");
      LastSetOther(w11, "protect_content", BoolOpt(protectContent), "height");
      LastSetOther(w12, "reply_to_message_id", IntOpt(replyToMessageID), "height");
      LastSetOther(w13, "has_spoiler", BoolOpt(hasSpoiler), "height");
      LastSetOther(w14, "supports_streaming", BoolOpt(supportsStreaming), "height");
      LastSetOther(w15, "allow_sending_without_reply", BoolOpt(allowSendingWithoutReply), "height");
      LastSetOther(w16, "reply_markup", StrOpt(inlineKeyboardMarkup), "height");
      LastSetOther(w17, "reply_markup", StrOpt(replyKeyboardMarkup), "height");
      LastSetOther(w18, "reply_markup", StrOpt(replyKeyboardRemove), "height");
      LastSetOther(w19, "reply_markup", StrOpt(forceReply), "height");
      WrittenLastSet(w20, "height");
    }

    /** The value the calls leave at `message_thread_id`. */
    lemma PlanMessageThreadID()
      ensures HoldsIfSet(OrEmpty(Written(Plan())), "message_thread_id", IntOpt(messageThreadID))
    {
      var w0 := NoWrites;
      var w1 := Then(w0, "chat_id", IntOpt(chatID));
      var w2 := Then(w1, "video", FileOpt(video));
      var w3 := Then(w2, "video", StrOpt(videoString));
      var w4 := Then(w3, "duration", IntOpt(duration));
      var w5 := Then(w4, "width", IntOpt(width));
      var w6 := Then(w5, "height", IntOpt(height));
      var w7 := Then(w6, "message_thread_id", IntOpt(messageThreadID));
      var w8 := Then(w7, "parse_mode", StrOpt(parseMode));
      var w9 := Then(w8, "caption_entities", StrOpt(captionEntities));
      var w10 := Then(w9, "caption", StrOpt(caption));
      var w11 := Then(w10, "disable_notification", BoolOpt(disableNotification));
      var w12 := Then(w11, "protect_content", BoolOpt(protectContent));
      var w13 := Then(w12, "reply_to_message_id", IntOpt(replyToMessageID));
      var w14 := Then(w13, "has_spoiler", BoolOpt(hasSpoiler));
      var w15 := Then(w14, "supports_streaming", BoolOpt(supportsStreaming));
      var w16 := Then(w15, "allow_sending_without_reply", BoolOpt(allowSendingWithoutReply));
      var w17 := Then(w16, "reply_markup", StrOpt(inlineKeyboardMarkup));
      var w18 := Then(w17, "reply_markup", StrOpt(replyKeyboardMarkup));
      var w19 := Then(w18, "reply_markup", StrOpt(replyKeyboardRemove));
      var w20 := Then(w19, "reply_markup", StrOpt(forceReply));
      LastSetOther(w0, "chat_id", IntOpt(chatID), "message_thread_id");
      LastSetOther(w1, "video", FileOpt(video), "message_thread_id");
      LastSetOther(w2, "video", StrOpt(videoString), "message_thread_id");
      LastSetOther(w3, "duration", IntOpt(duration), "message_thread_id");
      LastSetOther(w4, "width", IntOpt(width), "message_thread_id");
      LastSetOther(w5, "height", IntOpt(height), "message_thread_id");
      LastSetOther(w7, "parse_mode", StrOpt(parseMode), "message_thread_id");
      LastSetOther(w8, "caption_entities", StrOpt(captionEntities), "message_thread_id");
      LastSetOther(w9, "caption", StrOpt(caption), "message_thread_id");
      LastSetOther(w10, "disable_notification", BoolOpt(disableNotification), "message_thread_id");
      LastSetOther(w11, "protect_content", BoolOpt(protectContent), "message_thread_id");
      LastSetOther(w12, "reply_to_message_id", IntOpt(replyToMessageID), "message_thread_id");
      LastSetOther(w13, "has_spoiler", BoolOpt(hasSpoiler), "message_thread_id");
      LastSetOther(w14, "supports_streaming", BoolOpt(supportsStreaming), "message_thread_id");
      LastSetOther(w15, "allow_sending_without_reply", BoolOpt(allowSendingWithoutReply), "message_thread_id");
      LastSetOther(w16, "reply_markup", StrOpt(inlineKeyboardMarkup), "message_thread_id");
      LastSetOther(w17, "reply_markup", StrOpt(replyKeyboardMarkup), "message_thread_id");
      LastSetOther(w18, "reply_markup", StrOpt(replyKeyboardRemove), "message_thread_id");
      LastSetOther(w19, "reply_markup", StrOpt(forceReply), "message_thread_id");
      WrittenLastSet(w20, "message_thread_id");
    }

    /** The value the calls leave at `parse_mode`. */
    lemma PlanParseMode()
      ensures HoldsIfSet(OrEmpty(Written(Plan())), "parse_mode", StrOpt(parseMode))
    {
      var w0 := NoWrites;
      var w1 := Then(w0, "chat_id", IntOpt(chatID));
      var w2 := Then(w1, "video", FileOpt(video));
      var w3 := Then(w2, "video", StrOpt(videoString));
      var w4 := Then(w3, "duration", IntOpt(duration));
      var w5 := Then(w4, "width", IntOpt(width));
      var w6 := Then(w5, "height", IntOpt(height));
      var w7 := Then(w6, "message_thread_id", IntOpt(messageThreadID));
      var w8 := Then(w7, "parse_mode", StrOpt(parseMode));
      var w9 := Then(w8, "caption_entities", StrOpt(captionEntities));
      var w10 := Then(w9, "caption", StrOpt(caption));
      var w11 := Then(w10, "disable_notification", BoolOpt(disableNotification));
      var w12 := Then(w11, "protect_content", BoolOpt(protectContent));
      var w13 := Then(w12, "reply_to_message_id", IntOpt(replyToMessageID));
      var w14 := Then(w13, "has_spoiler", BoolOpt(hasSpoiler));
      var w15 := Then(w14, "supports_streaming", BoolOpt(supportsStreaming));
      var w16 := Then(w15, "allow_sending_without_reply", BoolOpt(allowSendingWithoutReply));
      var w17 := Then(w16, "reply_markup", StrOpt(inlineKeyboardMarkup));
      var w18 := Then(w17, "reply_markup", StrOpt(replyKeyboardMarkup));
      var w19 := Then(w18, "reply_markup", StrOpt(replyKeyboardRemove));
      var w20 := Then(w19, "reply_markup", StrOpt(forceReply));
      LastSetOther(w0, "chat_id", IntOpt(chatID), "parse_mode");
      LastSetOther(w1, "video", FileOpt(video), "parse_mode");
      LastSetOther(w2, "video", StrOpt(videoString), "parse_mode");
      LastSetOther(w3, "duration", IntOpt(duration), "parse_mode");
      LastSetOther(w4, "width", IntOpt(width), "parse_mode");
      LastSetOther(w5, "height", IntOpt(height), "parse_mode");
      LastSetOther(w6, "message_thread_id", IntOpt(messageThreadID), "parse_mode");
      LastSetOther(w8, "caption_entities", StrOpt(captionEntities), "parse_mode");
      LastSetOther(w9, "caption", StrOpt(caption), "parse_mode");
      LastSetOther(w10, "disable_notification", BoolOpt(disableNotification), "parse_mode");
      LastSetOther(w11, "protect_content", BoolOpt(protectContent), "parse_mode");
      LastSetOther(w12, "reply_to_message_id", IntOpt(replyToMessageID), "parse_mode");
      LastSetOther(w13, "has_spoiler", BoolOpt(hasSpoiler), "parse_mode");
      LastSetOther(w14, "supports_streaming", BoolOpt(supportsStreaming), "parse_mode");
      LastSetOther(w15, "allow_sending_without_reply", BoolOpt(allowSendingWithoutReply), "parse_mode");
      LastSetOther(w16, "reply_markup", StrOpt(inlineKeyboardMarkup), "parse_mode");
      LastSetOther(w17, "reply_markup", StrOpt(replyKeyboardMarkup), "parse_mode");
      LastSetOther(w18, "reply_markup", StrOpt(replyKeyboardRemove), "parse_mode");
      LastSetOther(w19, "reply_markup", StrOpt(forceReply), "parse_mode");
      WrittenLastSet(w20, "parse_mode");
    }

    /** The value the calls leave at `caption_entities`. */
    lemma PlanCaptionEntities()
      ensures HoldsIfSet(OrEmpty(Written(Plan())), "caption_entities", StrOpt(captionEntities))
    {
      var w0 := NoWrites;
      var w1 := Then(w0, "chat_id", IntOpt(chatID));
      var w2 := Then(w1, "video", FileOpt(video));
      var w3 := Then(w2, "video", StrOpt(videoString));
      var w4 := Then(w3, "duration", IntOpt(duration));
      var w5 := Then(w4, "width", IntOpt(width));
      var w6 := Then(w5, "height", IntOpt(height));
      var w7 := Then(w6, "message_thread_id", IntOpt(messageThreadID));
      var w8 := Then(w7, "parse_mode", StrOpt(parseMode));
      var w9 := Then(w8, "caption_entities", StrOpt(captionEntities));
      var w10 := Then(w9, "caption", StrOpt(caption));
      var w11 := Then(w10, "disable_notification", BoolOpt(disableNotification));
      var w12 := Then(w11, "protect_content", BoolOpt(protectContent));
      var w13 := Then(w12, "reply_to_message_id", IntOpt(replyToMessageID));
      var w14 := Then(w13, "has_spoiler", BoolOpt(hasSpoiler));
      var w15 := Then(w14, "supports_streaming", BoolOpt(supportsStreaming));
      var w16 := Then(w15, "allow_sending_without_reply", BoolOpt(allowSendingWithoutReply));
      var w17 := Then(w16, "reply_markup", StrOpt(inlineKeyboardMarkup));
      var w18 := Then(w17, "reply_markup", StrOpt(replyKeyboardMarkup));
      var w19 := Then(w18, "reply_markup", StrOpt(replyKeyboardRemove));
      var w20 := Then(w19, "reply_markup", StrOpt(forceReply));
      LastSetOther(w0, "chat_id", IntOpt(chatID), "caption_entities");
      LastSetOther(w1, "video", FileOpt(video), "caption_entities");
      LastSetOther(w2, "video", StrOpt(videoString), "caption_entities");
      LastSetOther(w3, "duration", IntOpt(duration), "caption_entities");
      LastSetOther(w4, "width", IntOpt(width), "caption_entities");
      LastSetOther(w5, "height", IntOpt(height), "caption_entities");
      LastSetOther(w6, "message_thread_id", IntOpt(messageThreadID), "caption_entities");
      LastSetOther(w7, "parse_mode", StrOpt(parseMode), "caption_entities");
      LastSetOther(w9, "caption", StrOpt(caption), "caption_entities");
      LastSetOther(w10, "disable_notification", BoolOpt(disableNotification), "caption_entities");
      LastSetOther(w11, "protect_content", BoolOpt(protectContent), "caption_entities");
      LastSetOther(w12, "reply_to_message_id", IntOpt(replyToMessageID), "caption_entities");
      LastSetOther(w13, "has_spoiler", BoolOpt(hasSpoiler), "caption_entities");
      LastSetOther(w14, "supports_streaming", BoolOpt(supportsStreaming), "caption_entities");
      LastSetOther(w15, "allow_sending_without_reply", BoolOpt(allowSendingWithoutReply), "caption_entities");
      LastSetOther(w16, "reply_markup", StrOpt(inlineKeyboardMarkup), "caption_entities");
      LastSetOther(w17, "reply_markup", StrOpt(replyKeyboardMarkup), "caption_entities");
      LastSetOther(w18, "reply_markup", StrOpt(replyKeyboardRemove), "caption_entities");
      LastSetOther(w19, "reply_markup", StrOpt(forceReply), "caption_entities");
      WrittenLastSet(w20, "caption_entities");
    }

    /** The value the calls leave at `caption`. */
    lemma PlanCaption()
      ensures HoldsIfSet(OrEmpty(Written(Plan())), "caption", StrOpt(caption))
    {
      var w0 := NoWrites;
      var w1 := Then(w0, "chat_id", IntOpt(chatID));
      var w2 := Then(w1, "video", FileOpt(video));
      var w3 := Then(w2, "video", StrOpt(videoString));
      var w4 := Then(w3, "duration", IntOpt(duration));
      var w5 := Then(w4, "width", IntOpt(width));
      var w6 := Then(w5, "height", IntOpt(height));
      var w7 := Then(w6, "message_thread_id", IntOpt(messageThreadID));
      var w8 := Then(w7, "parse_mode", StrOpt(parseMode));
      var w9 := Then(w8, "caption_entities", StrOpt(captionEntities));
      var w10 := Then(w9, "caption", StrOpt(caption));
      var w11 := Then(w10, "disable_notification", BoolOpt(disableNotification));
      var w12 := Then(w11, "protect_content", BoolOpt(protectContent));
      var w13 := Then(w12, "reply_to_message_id", IntOpt(replyToMessageID));
      var w14 := Then(w13, "has_spoiler", BoolOpt(hasSpoiler));
      var w15 := Then(w14, "supports_streaming", BoolOpt(supportsStreaming));
      var w16 := Then(w15, "allow_sending_without_reply", BoolOpt(allowSendingWithoutReply));
      var w17 := Then(w16, "reply_markup", StrOpt(inlineKeyboardMarkup));
      var w18 := Then(w17, "reply_markup", StrOpt(replyKeyboardMarkup));
      var w19 := Then(w18, "reply_markup", StrOpt(replyKeyboardRemove));
      var w20 := Then(w19, "reply_markup", StrOpt(forceReply));
      LastSetOther(w0, "chat_id", IntOpt(chatID), "caption");
      LastSetOther(w1, "video", FileOpt(video), "caption");
      LastSetOther(w2, "video", StrOpt(videoString), "caption");
      LastSetOther(w3, "duration", IntOpt(duration), "caption");
      LastSetOther(w4, "width", IntOpt(width), "caption");
      LastSetOther(w5, "height", IntOpt(height), "caption");
      LastSetOther(w6, "message_thread_id", IntOpt(messageThreadID), "caption");
      LastSetOther(w7, "parse_mode", StrOpt(parseMode), "caption");
      LastSetOther(w8, "caption_entities", StrOpt(captionEntities), "caption");
      LastSetOther(w10, "disable_notification", BoolOpt(disableNotification), "caption");
      LastSetOther(w11, "protect_content", BoolOpt(protectContent), "caption");
      LastSetOther(w12, "reply_to_message_id", IntOpt(replyToMessageID), "caption");
      LastSetOther(w13, "has_spoiler", BoolOpt(hasSpoiler), "caption");
      LastSetOther(w14, "supports_streaming", BoolOpt(supportsStreaming), "caption");
      LastSetOther(w15, "allow_sending_without_reply", BoolOpt(allowSendingWithoutReply), "caption");
      LastSetOther(w16, "reply_markup", StrOpt(inlineKeyboardMarkup), "caption");
      LastSetOther(w17, "reply_markup", StrOpt(replyKeyboardMarkup), "caption");
      LastSetOther(w18, "reply_markup", StrOpt(replyKeyboardRemove), "caption");
      LastSetOther(w19, "reply_markup", StrOpt(forceReply), "caption");
      WrittenLastSet(w20, "caption");
    }

    /** The value the calls leave at `disable_notification`. */
    lemma PlanDisableNotification()
      ensures HoldsIfSet(OrEmpty(Written(Plan())), "disable_notification", BoolOpt(disableNotification))
    {
      var w0 := NoWrites;
      var w1 := Then(w0, "chat_id", IntOpt(chatID));
      var w2 := Then(w1, "video", FileOpt(video));
      var w3 := Then(w2, "video", StrOpt(videoString));
      var w4 := Then(w3, "duration", IntOpt(duration));
      var w5 := Then(w4, "width", IntOpt(width));
      var w6 := Then(w5, "height", IntOpt(height));
      var w7 := Then(w6, "message_thread_id", IntOpt(messageThreadID));
      var w8 := Then(w7, "parse_mode", StrOpt(parseMode));
      var w9 := Then(w8, "caption_entities", StrOpt(captionEntities));
      var w10 := Then(w9, "caption", StrOpt(caption));
      var w11 := Then(w10, "disable_notification", BoolOpt(disableNotification));
      var w12 := Then(w11, "protect_content", BoolOpt(protectContent));
      var w13 := Then(w12, "reply_to_message_id", IntOpt(replyToMessageID));
      var w14 := Then(w13, "has_spoiler", BoolOpt(hasSpoiler));
      var w15 := Then(w14, "supports_streaming", BoolOpt(supportsStreaming));
      var w16 := Then(w15, "allow_sending_without_reply", BoolOpt(allowSendingWithoutReply));
      var w17 := Then(w16, "reply_markup", StrOpt(inlineKeyboardMarkup));
      var w18 := Then(w17, "reply_markup", StrOpt(replyKeyboardMarkup));
      var w19 := Then(w18, "reply_markup", StrOpt(replyKeyboardRemove));
      var w20 := Then(w19, "reply_markup", StrOpt(forceReply));
      LastSetOther(w0, "chat_id", IntOpt(chatID), "disable_notification");
      LastSetOther(w1, "video", FileOpt(video), "disable_notification");
      LastSetOther(w2, "video", StrOpt(videoString), "disable_notification");
      LastSetOther(w3, "duration", IntOpt(duration), "disable_notification");
      LastSetOther(w4, "width", IntOpt(width), "disable_notification");
      LastSetOther(w5, "height", IntOpt(height), "disable_notification");
      LastSetOther(w6, "message_thread_id", IntOpt(messageThreadID), "disable_notification");
      LastSetOther(w7, "parse_mode", StrOpt(parseMode), "disable_notification");
      LastSetOther(w8, "caption_entities", StrOpt(captionEntities), "disable_notification");
      LastSetOther(w9, "caption", StrOpt(caption), "disable_notification");
      LastSetOther(w11, "protect_content", BoolOpt(protectContent), "disable_notification");
      LastSetOther(w12, "reply_to_message_id", IntOpt(replyToMessageID), "disable_notification");
      LastSetOther(w13, "has_spoiler", BoolOpt(hasSpoiler), "disable_notification");
      LastSetOther(w14, "supports_streaming", BoolOpt(supportsStreaming), "disable_notification");
      LastSetOther(w15, "allow_sending_without_reply", BoolOpt(allowSendingWithoutReply), "disable_notification");
      LastSetOther(w16, "reply_markup", StrOpt(inlineKeyboardMarkup), "disable_notification");
      LastSetOther(w17, "reply_markup", StrOpt(replyKeyboardMarkup), "disable_notification");
      LastSetOther(w18, "reply_markup", StrOpt(replyKeyboardRemove), "disable_notification");
      LastSetOther(w19, "reply_markup", StrOpt(forceReply), "disable_notification");
      WrittenLastSet(w20, "disable_notification");
    }

    /** The value the calls leave at `protect_content`. */
    lemma PlanProtectContent()
      ensures HoldsIfSet(OrEmpty(Written(Plan())), "protect_content", BoolOpt(protectContent))
    {
      var w0 := NoWrites;
      var w1 := Then(w0, "chat_id", IntOpt(chatID));
      var w2 := Then(w1, "video", FileOpt(video));
      var w3 := Then(w2, "video", StrOpt(videoString));
      var w4 := Then(w3, "duration", IntOpt(duration));
      var w5 := Then(w4, "width", IntOpt(width));
      var w6 := Then(w5, "height", IntOpt(height));
      var w7 := Then(w6, "message_thread_id", IntOpt(messageThreadID));
      var w8 := Then(w7, "parse_mode", StrOpt(parseMode));
      var w9 := Then(w8, "caption_entities", StrOpt(captionEntities));
      var w10 := Then(w9, "caption", StrOpt(caption));
      var w11 := Then(w10, "disable_notification", BoolOpt(disableNotification));
      var w12 := Then(w11, "protect_content", BoolOpt(protectContent));
      var w13 := Then(w12, "reply_to_message_id", IntOpt(replyToMessageID));
      var w14 := Then(w13, "has_spoiler", BoolOpt(hasSpoiler));
      var w15 := Then(w14, "supports_streaming", BoolOpt(supportsStreaming));
      var w16 := Then(w15, "allow_sending_without_reply", BoolOpt(allowSendingWithoutReply));
      var w17 := Then(w16, "reply_markup", StrOpt(inlineKeyboardMarkup));
      var w18 := Then(w17, "reply_markup", StrOpt(replyKeyboardMarkup));
      var w19 := Then(w18, "reply_markup", StrOpt(replyKeyboardRemove));
      var w20 := Then(w19, "reply_markup", StrOpt(forceReply));
      LastSetOther(w0, "chat_id", IntOpt(chatID), "protect_content");
      LastSetOther(w1, "video", FileOpt(video), "protect_content");
      LastSetOther(w2, "video", StrOpt(videoString), "protect_content");
      LastSetOther(w3, "duration", IntOpt(duration), "protect_content");
      LastSetOther(w4, "width", IntOpt(width), "protect_content");
      LastSetOther(w5, "height", IntOpt(height), "protect_content");
      LastSetOther(w6, "message_thread_id", IntOpt(messageThreadID), "protect_content");
      LastSetOther(w7, "parse_mode", StrOpt(parseMode), "protect_content");
      LastSetOther(w8, "caption_entities", StrOpt(captionEntities), "protect_content");
      LastSetOther(w9, "caption", StrOpt(caption), "protect_content");
      LastSetOther(w10, "disable_notification", BoolOpt(disableNotification), "protect_content");
      LastSetOther(w12, "reply_to_message_id", IntOpt(replyToMessageID), "protect_content");
      LastSetOther(w13, "has_spoiler", BoolOpt(hasSpoiler), "protect_content");
      LastSetOther(w14, "supports_streaming", BoolOpt(supportsStreaming), "protect_content");
      LastSetOther(w15, "allow_sending_without_reply", BoolOpt(allowSendingWithoutReply), "protect_content");
      LastSetOther(w16, "reply_markup", StrOpt(inlineKeyboardMarkup), "protect_content");
      LastSetOther(w17, "reply_markup", StrOpt(replyKeyboardMarkup), "protect_content");
      LastSetOther(w18, "reply_markup", StrOpt(replyKeyboardRemove), "protect_content");
      LastSetOther(w19, "reply_markup", StrOpt(forceReply), "protect_content");
      WrittenLastSet(w20, "protect_content");
    }

    /** The value the calls leave at `reply_to_message_id`. */
    lemma PlanReplyToMessageID()
      ensures HoldsIfSet(OrEmpty(Written(Plan())), "reply_to_message_id", IntOpt(replyToMessageID))
    {
      var w0 := NoWrites;
      var w1 := Then(w0, "chat_id", IntOpt(chatID));
      var w2 := Then(w1, "video", FileOpt(video));
      var w3 := Then(w2, "video", StrOpt(videoString));
      var w4 := Then(w3, "duration", IntOpt(duration));
      var w5 := Then(w4, "width", IntOpt(width));
      var w6 := Then(w5, "height", IntOpt(height));
      var w7 := Then(w6, "message_thread_id", IntOpt(messageThreadID));
      var w8 := Then(w7, "parse_mode", StrOpt(parseMode));
      var w9 := Then(w8, "caption_entities", StrOpt(captionEntities));
      var w10 := Then(w9, "caption", StrOpt(caption));
      var w11 := Then(w10, "disable_notification", BoolOpt(disableNotification));
      var w12 := Then(w11, "protect_content", BoolOpt(protectContent));
      var w13 := Then(w12, "reply_to_message_id", IntOpt(replyToMessageID));
      var w14 := Then(w13, "has_spoiler", BoolOpt(hasSpoiler));
      var w15 := Then(w14, "supports_streaming", BoolOpt(supportsStreaming));
      var w16 := Then(w15, "allow_sending_without_reply", BoolOpt(allowSendingWithoutReply));
      var w17 := Then(w16, "reply_markup", StrOpt(inlineKeyboardMarkup));
      var w18 := Then(w17, "reply_markup", StrOpt(replyKeyboardMarkup));
      var w19 := Then(w18, "reply_markup", StrOpt(replyKeyboardRemove));
      var w20 := Then(w19, "reply_markup", StrOpt(forceReply));
      LastSetOther(w0, "chat_id", IntOpt(chatID), "reply_to_message_id");
      LastSetOther(w1, "video", FileOpt(video), "reply_to_message_id");
      LastSetOther(w2, "video", StrOpt(videoString), "reply_to_message_id");
      LastSetOther(w3, "duration", IntOpt(duration), "reply_to_message_id");
      LastSetOther(w4, "width", IntOpt(width), "reply_to_message_id");
      LastSetOther(w5, "height", IntOpt(height), "reply_to_message_id");
      LastSetOther(w6, "message_thread_id", IntOpt(messageThreadID), "reply_to_message_id");
      LastSetOther(w7, "parse_mode", StrOpt(parseMode), "reply_to_message_id");
      LastSetOther(w8, "caption_entities", StrOpt(captionEntities), "reply_to_message_id");
      LastSetOther(w9, "caption", StrOpt(caption), "reply_to_message_id");
      LastSetOther(w10, "disable_notification", BoolOpt(disableNotification), "reply_to_message_id");
      LastSetOther(w11, "protect_content", BoolOpt(protectContent), "reply_to_message_id");
      LastSetOther(w13, "has_spoiler", BoolOpt(hasSpoiler), "reply_to_message_id");
      LastSetOther(w14, "supports_streaming", BoolOpt(supportsStreaming), "reply_to_message_id");
      LastSetOther(w15, "allow_sending_without_reply", BoolOpt(allowSendingWithoutReply), "reply_to_message_id");
      LastSetOther(w16, "reply_markup", StrOpt(inlineKeyboardMarkup), "reply_to_message_id");
      LastSetOther(w17, "reply_markup", StrOpt(replyKeyboardMarkup), "reply_to_message_id");
      LastSetOther(w18, "reply_markup", StrOpt(replyKeyboardRemove), "reply_to_message_id");
      LastSetOther(w19, "reply_markup", StrOpt(forceReply), "reply_to_message_id");
      WrittenLastSet(w20, "reply_to_message_id");
    }

    /** The value the calls leave at `has_spoiler`. */
    lemma PlanHasSpoiler()
      ensures HoldsIfSet(OrEmpty(Written(Plan())), "has_spoiler", BoolOpt(hasSpoiler))
    {
      var w0 := NoWrites;
      var w1 := Then(w0, "chat_id", IntOpt(chatID));
      var w2 := Then(w1, "video", FileOpt(video));
      var w3 := Then(w2, "video", StrOpt(videoString));
      var w4 := Then(w3, "duration", IntOpt(duration));
      var w5 := Then(w4, "width", IntOpt(width));
      var w6 := Then(w5, "height", IntOpt(height));
      var w7 := Then(w6, "message_thread_id", IntOpt(messageThreadID));
      var w8 := Then(w7, "parse_mode", StrOpt(parseMode));
      var w9 := Then(w8, "caption_entities", StrOpt(captionEntities));
      var w10 := Then(w9, "caption", StrOpt(caption));
      var w11 := Then(w10, "disable_notification", BoolOpt(disableNotification));
      var w12 := Then(w11, "protect_content", BoolOpt(protectContent));
      var w13 := Then(w12, "reply_to_message_id", IntOpt(replyToMessageID));
      var w14 := Then(w13, "has_spoiler", BoolOpt(hasSpoiler));
      var w15 := Then(w14, "supports_streaming", BoolOpt(supportsStreaming));
      var w16 := Then(w15, "allow_sending_without_reply", BoolOpt(allowSendingWithoutReply));
      var w17 := Then(w16, "reply_markup", StrOpt(inlineKeyboardMarkup));
      var w18 := Then(w17, "reply_markup", StrOpt(replyKeyboardMarkup));
      var w19 := Then(w18, "reply_markup", StrOpt(replyKeyboardRemove));
      var w20 := Then(w19, "reply_markup", StrOpt(forceReply));
      LastSetOther(w0, "chat_id", IntOpt(chatID), "has_spoiler");
      LastSetOther(w1, "video", FileOpt(video), "has_spoiler");
      LastSetOther(w2, "video", StrOpt(videoString), "has_spoiler");
      LastSetOther(w3, "duration", IntOpt(duration), "has_spoiler");
      LastSetOther(w4, "width", IntOpt(width), "has_spoiler");
      LastSetOther(w5, "height", IntOpt(height), "has_spoiler");
      LastSetOther(w6, "message_thread_id", IntOpt(messageThreadID), "has_spoiler");
      LastSetOther(w7, "parse_mode", StrOpt(parseMode), "has_spoiler");
      LastSetOther(w8, "caption_entities", StrOpt(captionEntities), "has_spoiler");
      LastSetOther(w9, "caption", StrOpt(caption), "has_spoiler");
      LastSetOther(w10, "disable_notification", BoolOpt(disableNotification), "has_spoiler");
      LastSetOther(w11, "protect_content", BoolOpt(protectContent), "has_spoiler");
      LastSetOther(w12, "reply_to_message_id", IntOpt(replyToMessageID), "has_spoiler");
      LastSetOther(w14, "supports_streaming", BoolOpt(supportsStreaming), "has_spoiler");
      LastSetOther(w15, "allow_sending_without_reply", BoolOpt(allowSendingWithoutReply), "has_spoiler");
      LastSetOther(w16, "reply_markup", StrOpt(inlineKeyboardMarkup), "has_spoiler");
      LastSetOther(w17, "reply_markup", StrOpt(replyKeyboardMarkup), "has_spoiler");
      LastSetOther(w18, "reply_markup", StrOpt(replyKeyboardRemove), "has_spoiler");
      LastSetOther(w19, "reply_markup", StrOpt(forceReply), "has_spoiler");
      WrittenLastSet(w20, "has_spoiler");
    }

    /** The value the calls leave at `supports_streaming`. */
    lemma PlanSupportsStreaming()
      ensures HoldsIfSet(OrEmpty(Written(Plan())), "supports_streaming", BoolOpt(supportsStreaming))
    {
      var w0 := NoWrites;
      var w1 := Then(w0, "chat_id", IntOpt(chatID));
      var w2 := Then(w1, "video", FileOpt(video));
      var w3 := Then(w2, "video", StrOpt(videoString));
      var w4 := Then(w3, "duration", IntOpt(duration));
      var w5 := Then(w4, "width", IntOpt(width));
      var w6 := Then(w5, "height", IntOpt(height));
      var w7 := Then(w6, "message_thread_id", IntOpt(messageThreadID));
      var w8 := Then(w7, "parse_mode", StrOpt(parseMode));
      var w9 := Then(w8, "caption_entities", StrOpt(captionEntities));
      var w10 := Then(w9, "caption", StrOpt(caption));
      var w11 := Then(w10, "disable_notification", BoolOpt(disableNotification));
      var w12 := Then(w11, "protect_content", BoolOpt(protectContent));
      var w13 := Then(w12, "reply_to_message_id", IntOpt(replyToMessageID));
      var w14 := Then(w13, "has_spoiler", BoolOpt(hasSpoiler));
      var w15 := Then(w14, "supports_streaming", BoolOpt(supportsStreaming));
      var w16 := Then(w15, "allow_sending_without_reply", BoolOpt(allowSendingWithoutReply));
      var w17 := Then(w16, "reply_markup", StrOpt(inlineKeyboardMarkup));
      var w18 := Then(w17, "reply_markup", StrOpt(replyKeyboardMarkup));
      var w19 := Then(w18, "reply_markup", StrOpt(replyKeyboardRemove));
      var w20 := Then(w19, "reply_markup", StrOpt(forceReply));
      LastSetOther(w0, "chat_id", IntOpt(chatID), "supports_streaming");
      LastSetOther(w1, "video", FileOpt(video), "supports_streaming");
      LastSetOther(w2, "video", StrOpt(videoString), "supports_streaming");
      LastSetOther(w3, "duration", IntOpt(duration), "supports_streaming");
      LastSetOther(w4, "width", IntOpt(width), "supports_streaming");
      LastSetOther(w5, "height", IntOpt(height), "supports_streaming");
      LastSetOther(w6, "message_thread_id", IntOpt(messageThreadID), "supports_streaming");
      LastSetOther(w7, "parse_mode", StrOpt(parseMode), "supports_streaming");
      LastSetOther(w8, "caption_entities", StrOpt(captionEntities), "supports_streaming");
      LastSetOther(w9, "caption", StrOpt(caption), "supports_streaming");
      LastSetOther(w10, "disable_notification", BoolOpt(disableNotification), "supports_streaming");
      LastSetOther(w11, "protect_content", BoolOpt(protectContent), "supports_streaming");
      LastSetOther(w12, "reply_to_message_id", IntOpt(replyToMessageID), "supports_streaming");
      LastSetOther(w13, "has_spoiler", BoolOpt(hasSpoiler), "supports_streaming");
      LastSetOther(w15, "allow_sending_without_reply", BoolOpt(allowSendingWithoutReply), "supports_streaming");
      LastSetOther(w16, "reply_markup", StrOpt(inlineKeyboardMarkup), "supports_streaming");
      LastSetOther(w17, "reply_markup", StrOpt(replyKeyboardMarkup), "supports_streaming");
      LastSetOther(w18, "reply_markup", StrOpt(replyKeyboardRemove), "supports_streaming");
      LastSetOther(w19, "reply_markup", StrOpt(forceReply), "supports_streaming");
      WrittenLastSet(w20, "supports_streaming");
    }

    /** The value the calls leave at `allow_sending_without_reply`. */
    lemma PlanAllowSendingWithoutReply()
      ensures HoldsIfSet(OrEmpty(Written(Plan())), "allow_sending_without_reply", BoolOpt(allowSendingWithoutReply))
    {
      var w0 := NoWrites;
      var w1 := Then(w0, "chat_id", IntOpt(chatID));
      var w2 := Then(w1, "video", FileOpt(video));
      var w3 := Then(w2, "video", StrOpt(videoString));
      var w4 := Then(w3, "duration", IntOpt(duration));
      var w5 := Then(w4, "width", IntOpt(width));
      var w6 := Then(w5, "height", IntOpt(height));
      var w7 := Then(w6, "message_thread_id", IntOpt(messageThreadID));
      var w8 := Then(w7, "parse_mode", StrOpt(parseMode));
      var w9 := Then(w8, "caption_entities", StrOpt(captionEntities));
      var w10 := Then(w9, "caption", StrOpt(caption));
      var w11 := Then(w10, "disable_notification", BoolOpt(disableNotification));
      var w12 := Then(w11, "protect_content", BoolOpt(protectContent));
      var w13 := Then(w12, "reply_to_message_id", IntOpt(replyToMessageID));
      var w14 := Then(w13, "has_spoiler", BoolOpt(hasSpoiler));
      var w15 := Then(w14, "supports_streaming", BoolOpt(supportsStreaming));
      var w16 := Then(w15, "allow_sending_without_reply", BoolOpt(allowSendingWithoutReply));
      var w17 := Then(w16, "reply_markup", StrOpt(inlineKeyboardMarkup));
      var w18 := Then(w17, "reply_markup", StrOpt(replyKeyboardMarkup));
      var w19 := Then(w18, "reply_markup", StrOpt(replyKeyboardRemove));
      var w20 := Then(w19, "reply_markup", StrOpt(forceReply));
      LastSetOther(w0, "chat_id", IntOpt(chatID), "allow_sending_without_reply");
      LastSetOther(w1, "video", FileOpt(video), "allow_sending_without_reply");
      LastSetOther(w2, "video", StrOpt(videoString), "allow_sending_without_reply");
      LastSetOther(w3, "duration", IntOpt(duration), "allow_sending_without_reply");
      LastSetOther(w4, "width", IntOpt(width), "allow_sending_without_reply");
      LastSetOther(w5, "height", IntOpt(height), "allow_sending_without_reply");
      LastSetOther(w6, "message_thread_id", IntOpt(messageThreadID), "allow_sending_without_reply");
      LastSetOther(w7, "parse_mode", StrOpt(parseMode), "allow_sending_without_reply");
      LastSetOther(w8, "caption_entities", StrOpt(captionEntities), "allow_sending_without_reply");
      LastSetOther(w9, "caption", StrOpt(caption), "allow_sending_without_reply");
      LastSetOther(w10, "disable_notification", BoolOpt(disableNotification), "allow_sending_without_reply");
      LastSetOther(w11, "protect_content", BoolOpt(protectContent), "allow_sending_without_reply");
      LastSetOther(w12, "reply_to_message_id", IntOpt(replyToMessageID), "allow_sending_without_reply");
      LastSetOther(w13, "has_spoiler", BoolOpt(hasSpoiler), "allow_sending_without_reply");
      LastSetOther(w14, "supports_streaming", BoolOpt(supportsStreaming), "allow_sending_without_reply");
      LastSetOther(w16, "reply_markup", StrOpt(inlineKeyboardMarkup), "allow_sending_without_reply");
      LastSetOther(w17, "reply_markup", StrOpt(replyKeyboardMarkup), "allow_sending_without_reply");
      LastSetOther(w18, "reply_markup", StrOpt(replyKeyboardRemove), "allow_sending_without_reply");
      LastSetOther(w19, "reply_markup", StrOpt(forceReply), "allow_sending_without_reply");
      WrittenLastSet(w20, "allow_sending_without_reply");
    }

    /** The value the calls leave at `reply_markup`: the last one set. */
    lemma PlanReplyMarkup()
      ensures HoldsIfSet(OrEmpty(Written(Plan())), "reply_markup", Later(Later(Later(StrOpt(inlineKeyboardMarkup), StrOpt(replyKeyboardMarkup)), StrOpt(replyKeyboardRemove)), StrOpt(forceReply)))
    {
      var w0 := NoWrites;
      var w1 := Then(w0, "chat_id", IntOpt(chatID));
      var w2 := Then(w1, "video", FileOpt(video));
      var w3 := Then(w2, "video", StrOpt(videoString));
      var w4 := Then(w3, "duration", IntOpt(duration));
      var w5 := Then(w4, "width", IntOpt(width));
      var w6 := Then(w5, "height", IntOpt(height));
      var w7 := Then(w6, "message_thread_id", IntOpt(messageThreadID));
      var w8 := Then(w7, "parse_mode", StrOpt(parseMode));
      var w9 := Then(w8, "caption_entities", StrOpt(captionEntities));
      var w10 := Then(w9, "caption", StrOpt(caption));
      var w11 := Then(w10, "disable_notification", BoolOpt(disableNotification));
      var w12 := Then(w11, "protect_content", BoolOpt(protectContent));
      var w13 := Then(w12, "reply_to_message_id", IntOpt(replyToMessageID));
      var w14 := Then(w13, "has_spoiler", BoolOpt(hasSpoiler));
      var w15 := Then(w14, "supports_streaming", BoolOpt(supportsStreaming));
      var w16 := Then(w15, "allow_sending_without_reply", BoolOpt(allowSendingWithoutReply));
      var w17 := Then(w16, "reply_markup", StrOpt(inlineKeyboardMarkup));
      var w18 := Then(w17, "reply_markup", StrOpt(replyKeyboardMarkup));
      var w19 := Then(w18, "reply_markup", StrOpt(replyKeyboardRemove));
      var w20 := Then(w19, "reply_markup", StrOpt(forceReply));
      LastSetOther(w0, "chat_id", IntOpt(chatID), "reply_markup");
      LastSetOther(w1, "video", FileOpt(video), "reply_markup");
      LastSetOther(w2, "video", StrOpt(videoString), "reply_markup");
      LastSetOther(w3, "duration", IntOpt(duration), "reply_markup");
      LastSetOther(w4, "width", IntOpt(width), "reply_markup");
      LastSetOther(w5, "height", IntOpt(height), "reply_markup");
      LastSetOther(w6, "message_thread_id", IntOpt(messageThreadID), "reply_markup");
      LastSetOther(w7, "parse_mode", StrOpt(parseMode), "reply_markup");
      LastSetOther(w8, "caption_entities", StrOpt(captionEntities), "reply_markup");
      LastSetOther(w9, "caption", StrOpt(caption), "reply_markup");
      LastSetOther(w10, "disable_notification", BoolOpt(disableNotification), "reply_markup");
      LastSetOther(w11, "protect_content", BoolOpt(protectContent), "reply_markup");
      LastSetOther(w12, "reply_to_message_id", IntOpt(replyToMessageID), "reply_markup");
      LastSetOther(w13, "has_spoiler", BoolOpt(hasSpoiler), "reply_markup");
      LastSetOther(w14, "supports_streaming", BoolOpt(supportsStreaming), "reply_markup");
      LastSetOther(w15, "allow_sending_without_reply", BoolOpt(allowSendingWithoutReply), "reply_markup");
      LastSetSame(w16, "reply_markup", StrOpt(inlineKeyboardMarkup));
      LastSetSame(w17, "reply_markup", StrOpt(replyKeyboardMarkup));
      LastSetSame(w18, "reply_markup", StrOpt(replyKeyboardRemove));
      LastSetSame(w19, "reply_markup", StrOpt(forceReply));
      WrittenLastSet(w20, "reply_markup");
    }

    /** The calls write no key but these. */
    lemma PlanOnly()
      ensures OrEmpty(Written(Plan())).Keys <= {"chat_id", "video", "duration", "width", "height", "message_thread_id", "parse_mode", "caption_entities", "caption", "disable_notification", "protect_content", "reply_to_message_id", "has_spoiler", "supports_streaming", "allow_sending_without_reply", "reply_markup"}
    {
      var w0 := NoWrites;
      var w1 := Then(w0, "chat_id", IntOpt(chatID));
      var w2 := Then(w1, "video", FileOpt(video));
      var w3 := Then(w2, "video", StrOpt(videoString));
      var w4 := Then(w3, "duration", IntOpt(duration));
      var w5 := Then(w4, "width", IntOpt(width));
      var w6 := Then(w5, "height", IntOpt(height));
      var w7 := Then(w6, "message_thread_id", IntOpt(messageThreadID));
      var w8 := Then(w7, "parse_mode", StrOpt(parseMode));
      var w9 := Then(w8, "caption_entities", StrOpt(captionEntities));
      var w10 := Then(w9, "caption", StrOpt(caption));
      var w11 := Then(w10, "disable_notification", BoolOpt(disableNotification));
      var w12 := Then(w11, "protect_content", BoolOpt(protectContent));
      var w13 := Then(w12, "reply_to_message_id", IntOpt(replyToMessageID));
      var w14 := Then(w13, "has_spoiler", BoolOpt(hasSpoiler));
      var w15 := Then(w14, "supports_streaming", BoolOpt(supportsStreaming));
      var w16 := Then(w15, "allow_sending_without_reply", BoolOpt(allowSendingWithoutReply));
      var w17 := Then(w16, "reply_markup", StrOpt(inlineKeyboardMarkup));
      var w18 := Then(w17, "reply_markup", StrOpt(replyKeyboardMarkup));
      var w19 := Then(w18, "reply_markup", StrOpt(replyKeyboardRemove));
      var w20 := Then(w19, "reply_markup", StrOpt(forceReply));
      forall j | j !in {"chat_id", "video", "duration", "width", "height", "message_thread_id", "parse_mode", "caption_entities", "caption", "disable_notification", "protect_content", "reply_to_message_id", "has_spoiler", "supports_streaming", "allow_sending_without_reply", "reply_markup"}
        ensures j !in OrEmpty(Written(w20))
      {
        LastSetOther(w0, "chat_id", IntOpt(chatID), j);
        LastSetOther(w1, "video", FileOpt(video), j);
        LastSetOther(w2, "video", StrOpt(videoString), j);
        LastSetOther(w3, "duration", IntOpt(duration), j);
        LastSetOther(w4, "width", IntOpt(width), j);
        LastSetOther(w5, "height", IntOpt(height), j);
        LastSetOther(w6, "message_thread_id", IntOpt(messageThreadID), j);
        LastSetOther(w7, "parse_mode", StrOpt(parseMode), j);
        LastSetOther(w8, "caption_entities", StrOpt(captionEntities), j);
        LastSetOther(w9, "caption", StrOpt(caption), j);
        LastSetOther(w10, "disable_notification", BoolOpt(disableNotification), j);
        LastSetOther(w11, "protect_content", BoolOpt(protectContent), j);
        LastSetOther(w12, "reply_to_message_id", IntOpt(replyToMessageID), j);
        LastSetOther(w13, "has_spoiler", BoolOpt(hasSpoiler), j);
        LastSetOther(w14, "supports_streaming", BoolOpt(supportsStreaming), j);
        LastSetOther(w15, "allow_sending_without_reply", BoolOpt(allowSendingWithoutReply), j);
        LastSetOther(w16, "reply_markup", StrOpt(inlineKeyboardMarkup), j);
        LastSetOther(w17, "reply_markup", StrOpt(replyKeyboardMarkup), j);
        LastSetOther(w18, "reply_markup", StrOpt(replyKeyboardRemove), j);
        LastSetOther(w19, "reply_markup", StrOpt(forceReply), j);
        WrittenLastSet(w20, j);
      }
    }

    /** The request `Do` builds before it calls the API: the endpoint, and a query made
        by the `setParam` calls of `Plan`. */
    method Assemble() returns (r: Request)
      ensures fresh(r)
      ensures r.Fields() == RequestFields(MethodGet, "/sendVideo", Written(Plan()), None, None, None, "", [])
    {
      r := new Request(MethodGet, "/sendVideo");
      ghost var done := NoWrites;
      var _ := r.SetParamIfSet("chat_id", IntOpt(chatID), done);
      done := Then(done, "chat_id", IntOpt(chatID));
      var _ := r.SetParamIfSet("video", FileOpt(video), done);
      done := Then(done, "video", FileOpt(video));
      var _ := r.SetParamIfSet("video", StrOpt(videoString), done);
      done := Then(done, "video", StrOpt(videoString));
      var _ := r.SetParamIfSet("duration", IntOpt(duration), done);
      done := Then(done, "duration", IntOpt(duration));
      var _ := r.SetParamIfSet("width", IntOpt(width), done);
      done := Then(done, "width", IntOpt(width));
      var _ := r.SetParamIfSet("height", IntOpt(height), done);
      done := Then(done, "height", IntOpt(height));
      var _ := r.SetParamIfSet("message_thread_id", IntOpt(messageThreadID), done);
      done := Then(done, "message_thread_id", IntOpt(messageThreadID));
      var _ := r.SetParamIfSet("parse_mode", StrOpt(parseMode), done);
      done := Then(done, "parse_mode", StrOpt(parseMode));
      var _ := r.SetParamIfSet("caption_entities", StrOpt(captionEntities), done);
      done := Then(done, "caption_entities", StrOpt(captionEntities));
      var _ := r.SetParamIfSet("caption", StrOpt(caption), done);
      done := Then(done, "caption", StrOpt(caption));
      var _ := r.SetParamIfSet("disable_notification", BoolOpt(disableNotification), done);
      done := Then(done, "disable_notification", BoolOpt(disableNotification));
      var _ := r.SetParamIfSet("protect_content", BoolOpt(protectContent), done);
      done := Then(done, "protect_content", BoolOpt(protectContent));
      var _ := r.SetParamIfSet("reply_to_message_id", IntOpt(replyToMessageID), done);
      done := Then(done, "reply_to_message_id", IntOpt(replyToMessageID));
      var _ := r.SetParamIfSet("has_spoiler", BoolOpt(hasSpoiler), done);
      done := Then(done, "has_spoiler", BoolOpt(hasSpoiler));
      var _ := r.SetParamIfSet("supports_streaming", BoolOpt(supportsStreaming), done);
      done := Then(done, "supports_streaming", BoolOpt(supportsStreaming));
      var _ := r.SetParamIfSet("allow_sending_without_reply", BoolOpt(allowSendingWithoutReply), done);
      done := Then(done, "allow_sending_without_reply", BoolOpt(allowSendingWithoutReply));
      var _ := r.SetParamIfSet("reply_markup", StrOpt(inlineKeyboardMarkup), done);
      done := Then(done, "reply_markup", StrOpt(inlineKeyboardMarkup));
      var _ := r.SetParamIfSet("reply_markup", StrOpt(replyKeyboardMarkup), done);
      done := Then(done, "reply_markup", StrOpt(replyKeyboardMarkup));
      var _ := r.SetParamIfSet("reply_markup", StrOpt(replyKeyboardRemove), done);
      done := Then(done, "reply_markup", StrOpt(replyKeyboardRemove));
      var _ := r.SetParamIfSet("reply_markup", StrOpt(forceReply), done);
      done := Then(done, "reply_markup", StrOpt(forceReply));
      assert done == Plan();
    }

    /** `Do`: Always sets `chat_id`; sets each of the other keys only when its field is set; then calls the API. */
    method Do(opts: seq<RequestOption>) returns (assembled: RequestFields, res: Option<Bytes>, err: Option<Error>)
      requires chatID.Some?
      ensures assembled.httpMethod == MethodGet && assembled.endpoint == "/sendVideo"
      ensures assembled.form == None && assembled.header == None && assembled.body == None
      ensures assembled.fullURL == "" && assembled.json == []
      ensures Holds(Q(assembled), "chat_id", Int(chatID.value as int))
      ensures HoldsIfSet(Q(assembled), "video", Later(FileOpt(video), StrOpt(videoString)))
      ensures HoldsIfSet(Q(assembled), "duration", IntOpt(duration))
      ensures HoldsIfSet(Q(assembled), "width", IntOpt(width))
      ensures HoldsIfSet(Q(assembled), "height", IntOpt(height))
      ensures HoldsIfSet(Q(assembled), "message_thread_id", IntOpt(messageThreadID))
      ensures HoldsIfSet(Q(assembled), "parse_mode", StrOpt(parseMode))
      ensures HoldsIfSet(Q(assembled), "caption_entities", StrOpt(captionEntities))
      ensures HoldsIfSet(Q(assembled), "caption", StrOpt(caption))
      ensures HoldsIfSet(Q(assembled), "disable_notification", BoolOpt(disableNotification))
      ensures HoldsIfSet(Q(assembled), "protect_content", BoolOpt(protectContent))
      ensures HoldsIfSet(Q(assembled), "reply_to_message_id", IntOpt(replyToMessageID))
      ensures HoldsIfSet(Q(assembled), "has_spoiler", BoolOpt(hasSpoiler))
      ensures HoldsIfSet(Q(assembled), "supports_streaming", BoolOpt(supportsStreaming))
      ensures HoldsIfSet(Q(assembled), "allow_sending_without_reply", BoolOpt(allowSendingWithoutReply))
      ensures HoldsIfSet(Q(assembled), "reply_markup", Later(Later(Later(StrOpt(inlineKeyboardMarkup), StrOpt(replyKeyboardMarkup)), StrOpt(replyKeyboardRemove)), StrOpt(forceReply)))
      ensures Q(assembled).Keys <= {"chat_id", "video", "duration", "width", "height", "message_thread_id", "parse_mode", "caption_entities", "caption", "disable_notification", "protect_content", "reply_to_message_id", "has_spoiler", "supports_streaming", "allow_sending_without_reply", "reply_markup"}
      ensures caption == None ==> "caption" !in Q(assembled)
      ensures var o := c.Outcome(assembled, opts);
        err == o.1 && res == (if o.1.Some? then None else o.0)
    {
      var r := Assemble();
      assembled := r.Fields();
      var data, e := c.CallAPI(r, opts);
      PlanOnly();
      PlanChatID();
      PlanVideo();
      PlanDuration();
      PlanWidth();
      PlanHeight();
      PlanMessageThreadID();
      PlanParseMode();
      PlanCaptionEntities();
      PlanCaption();
      PlanDisableNotification();
      PlanProtectContent();
      PlanReplyToMessageID();
      PlanHasSpoiler();
      PlanSupportsStreaming();
      PlanAllowSendingWithoutReply();
      PlanReplyMarkup();
      if e.Some? {
        return assembled, None, e;
      }
      res, err := data, None;
    }
  }

  /** `SendAnimationService`: a GET request to `/sendAnimation`. */
  class SendAnimationService {
    const c: Client
    var chatID: Option<int64>
    var messageThreadID: Option<int64>
    var animation: Option<InputFile>
    var animationString: Option<string>
    var duration: Option<int64>
    var width: Option<int64>
    var height: Option<int64>
    var thumbnail: Option<InputFile>
    var thumbnailString: Option<string>
    var caption: Option<string>
    var parseMode: Option<string>
    var captionEntities: Option<string>
    var supportsStreaming: Option<bool>
    var disableNotification: Option<bool>
    var protectContent: Option<bool>
    var replyToMessageID: Option<int64>
    var allowSendingWithoutReply: Option<bool>
    var inlineKeyboardMarkup: Option<string>
    var replyKeyboardMarkup: Option<string>
    var replyKeyboardRemove: Option<string>
    var forceReply: Option<string>

    /** `NewSendAnimationService`: every field starts out unset. */
    constructor (c: Client)
      ensures this.c == c
      ensures chatID == None && messageThreadID == None && animation == None
      ensures animationString == None && duration == None && width == None
      ensures height == None && thumbnail == None && thumbnailString == None
      ensures caption == None && parseMode == None && captionEntities == None
      ensures supportsStreaming == None && disableNotification == None && protectContent == None
      ensures replyToMessageID == None && allowSendingWithoutReply == None && inlineKeyboardMarkup == None
      ensures replyKeyboardMarkup == None && replyKeyboardRemove == None && forceReply == None
    {
      this.c := c;
      chatID := None;
      messageThreadID := None;
      animation := None;
      animationString := None;
      duration := None;
      width := None;
      height := None;
      thumbnail := None;
      thumbnailString := None;
      caption := None;
      parseMode := None;
      captionEntities := None;
      supportsStreaming := None;
      disableNotification := None;
      protectContent := None;
      replyToMessageID := None;
      allowSendingWithoutReply := None;
      inlineKeyboardMarkup := None;
      replyKeyboardMarkup := None;
      replyKeyboardRemove := None;
      forceReply := None;
    }

    /** `ChatID`: stores its argument in `chatID`. */
    method ChatID(chatID: int64) returns (t: SendAnimationService)
      modifies this`chatID
      ensures this.chatID == Some(chatID) && t == this
    {
      this.chatID := Some(chatID);
      t := this;
    }

    /** `MessageThreadID`: stores its argument in `messageThreadID`. */
    method MessageThreadID(messageThreadID: int64) returns (t: SendAnimationService)
      modifies this`messageThreadID
      ensures this.messageThreadID == Some(messageThreadID) && t == this
    {
      this.messageThreadID := Some(messageThreadID);
      t := this;
    }

    /** `ParseMode`: stores its argument in `parseMode`. */
    method ParseMode(parseMode: string) returns (t: SendAnimationService)
      modifies this`parseMode
      ensures this.parseMode == Some(parseMode) && t == this
    {
      this.parseMode := Some(parseMode);
      t := this;
    }

    /** `CaptionEntities`: stores the JSON text of its argument in `captionEntities`. `marshalled` is what
        `jsoniter.Marshal` makes of the argument, `None` when marshalling fails; then
        nothing changes and the result is nil. */
    method CaptionEntities(marshalled: Option<string>) returns (t: SendAnimationService?)
      modifies this`captionEntities
      ensures marshalled.None? ==> t == null && captionEntities == old(captionEntities)
      ensures marshalled.Some? ==> t == this && captionEntities == marshalled
    {
      if marshalled.None? {
        return null;
      }
      captionEntities := marshalled;
      t := this;
    }

    /** `Animation`: stores its argument in `animation`. */
    method Animation(animation: InputFile) returns (t: SendAnimationService)
      modifies this`animation
      ensures this.animation == Some(animation) && t == this
    {
      this.animation := Some(animation);
      t := this;
    }

    /** `AnimationString`: stores its argument in `animationString`. */
    method AnimationString(animationString: string) returns (t: SendAnimationService)
      modifies this`animationString
      ensures this.animationString == Some(animationString) && t == this
    {
      this.animationString := Some(animationString);
      t := this;
    }

    /** `Duration`: stores its argument in `duration`. */
    method Duration(duration: int64) returns (t: SendAnimationService)
      modifies this`duration
      ensures this.duration == Some(duration) && t == this
    {
      this.duration := Some(duration);
      t := this;
    }

    /** `Width`: stores its argument in `width`. */
    method Width(width: int64) returns (t: SendAnimationService)
      modifies this`width
      ensures this.width == Some(width) && t == this
    {
      this.width := Some(width);
      t := this;
    }

    /** `Height`: stores its argument in `height`. */
    method Height(height: int64) returns (t: SendAnimationService)
      modifies this`height
      ensures this.height == Some(height) && t == this
    {
      this.height := Some(height);
      t := this;
    }

    /** `Thumbnail`: stores its argument in `thumbnail`. */
    method Thumbnail(thumbnail: InputFile) returns (t: SendAnimationService)
      modifies this`thumbnail
      ensures this.thumbnail == Some(thumbnail) && t == this
    {
      this.thumbnail := Some(thumbnail);
      t := this;
    }

    /** `ThumbnailString`: stores its argument in `thumbnailString`. */
    method ThumbnailString(thumbnailString: string) returns (t: SendAnimationService)
      modifies this`thumbnailString
      ensures this.thumbnailString == Some(thumbnailString) && t == this
    {
      this.thumbnailString := Some(thumbnailString);
      t := this;
    }

    /** `DisableNotification`: stores its argument in `disableNotification`. */
    method DisableNotification(disableNotification: bool) returns (t: SendAnimationService)
      modifies this`disableNotification
      ensures this.disableNotification == Some(disableNotification) && t == this
    {
      this.disableNotification := Some(disableNotification);
      t := this;
    }

    /** `ProtectContent`: stores its argument in `protectContent`. */
    method ProtectContent(protectContent: bool) returns (t: SendAnimationService)
      modifies this`protectContent
      ensures this.protectContent == Some(protectContent) && t == this
    {
      this.protectContent := Some(protectContent);
      t := this;
    }

    /** `SupportsStreaming`: stores its argument in `supportsStreaming`. */
    method SupportsStreaming(supportsStreaming: bool) returns (t: SendAnimationService)
      modifies this`supportsStreaming
      ensures this.supportsStreaming == Some(supportsStreaming) && t == this
    {
      this.supportsStreaming := Some(supportsStreaming);
      t := this;
    }

    /** `ReplyToMessageID`: stores its argument in `replyToMessageID`. */
    method ReplyToMessageID(replyToMessageID: int64) returns (t: SendAnimationService)
      modifies this`replyToMessageID
      ensures this.replyToMessageID == Some(replyToMessageID) && t == this
    {
      this.replyToMessageID := Some(replyToMessageID);
      t := this;
    }

    /** `AllowSendingWithoutReply`: stores its argument in `allowSendingWithoutReply`. */
    method AllowSendingWithoutReply(allowSendingWithoutReply: bool) returns (t: SendAnimationService)
      modifies this`allowSendingWithoutReply
      ensures this.allowSendingWithoutReply == Some(allowSendingWithoutReply) && t == this
    {
      this.allowSendingWithoutReply := Some(allowSendingWithoutReply);
      t := this;
    }

    /** `InlineKeyboardMarkup`: stores the JSON text of its argument in `inlineKeyboardMarkup`. `marshalled` is what
        `jsoniter.Marshal` makes of the argument, `None` when marshalling fails; then
        nothing changes and the result is nil. */
    method InlineKeyboardMarkup(marshalled: Option<string>) returns (t: SendAnimationService?)
      modifies this`inlineKeyboardMarkup
      ensures marshalled.None? ==> t == null && inlineKeyboardMarkup == old(inlineKeyboardMarkup)
      ensures marshalled.Some? ==> t == this && inlineKeyboardMarkup == marshalled
    {
      if marshalled.None? {
        return null;
      }
      inlineKeyboardMarkup := marshalled;
      t := this;
    }

    /** `ReplyKeyboardMarkup`: stores the JSON text of its argument in `replyKeyboardMarkup`. `marshalled` is what
        `jsoniter.Marshal` makes of the argument, `None` when marshalling fails; then
        nothing changes and the result is nil. */
    method ReplyKeyboardMarkup(marshalled: Option<string>) returns (t: SendAnimationService?)
      modifies this`replyKeyboardMarkup
      ensures marshalled.None? ==> t == null && replyKeyboardMarkup == old(replyKeyboardMarkup)
      ensures marshalled.Some? ==> t == this && replyKeyboardMarkup == marshalled
    {
      if marshalled.None? {
        return null;
      }
      replyKeyboardMarkup := marshalled;
      t := this;
    }

    /** `ReplyKeyboardRemove`: stores the JSON text of its argument in `replyKeyboardRemove`. `marshalled` is what
        `jsoniter.Marshal` makes of the argument, `None` when marshalling fails; then
        nothing changes and the result is nil. */
    method ReplyKeyboardRemove(marshalled: Option<string>) returns (t: SendAnimationService?)
      modifies this`replyKeyboardRemove
      ensures marshalled.None? ==> t == null && replyKeyboardRemove == old(replyKeyboardRemove)
      ensures marshalled.Some? ==> t == this && replyKeyboardRemove == marshalled
    {
      if marshalled.None? {
        return null;
      }
      replyKeyboardRemove := marshalled;
      t := this;
    }

    /** `ForceReply`: stores the JSON text of its argument in `forceReply`. `marshalled` is what
        `jsoniter.Marshal` makes of the argument, `None` when marshalling fails; then
        nothing changes and the result is nil. */
    method ForceReply(marshalled: Option<string>) returns (t: SendAnimationService?)
      modifies this`forceReply
      ensures marshalled.None? ==> t == null && forceReply == old(forceReply)
      ensures marshalled.Some? ==> t == this && forceReply == marshalled
    {
      if marshalled.None? {
        return null;
      }
      forceReply := marshalled;
      t := this;
    }

    /** The `setParam` calls `Do` makes, in order; a call that is skipped because its
        field is unset has value `None`. */
    ghost function Plan(): Writes
      reads this
    {
      var w1 := Then(NoWrites, "chat_id", IntOpt(chatID));
      var w2 := Then(w1, "animation", FileOpt(animation));
      var w3 := Then(w2, "animation", StrOpt(animationString));
      var w4 := Then(w3, "duration", IntOpt(duration));
      var w5 := Then(w4, "width", IntOpt(width));
      var w6 := Then(w5, "height", IntOpt(height));
      var w7 := Then(w6, "message_thread_id", IntOpt(messageThreadID));
      var w8 := Then(w7, "parse_mode", StrOpt(parseMode));
      var w9 := Then(w8, "caption_entities", StrOpt(captionEntities));
      var w10 := Then(w9, "caption", StrOpt(caption));
      var w11 := Then(w10, "disable_notification", BoolOpt(disableNotification));
      var w12 := Then(w11, "protect_content", BoolOpt(protectContent));
      var w13 := Then(w12, "reply_to_message_id", IntOpt(replyToMessageID));
      var w14 := Then(w13, "supports_streaming", BoolOpt(supportsStreaming));
      var w15 := Then(w14, "allow_sending_without_reply", BoolOpt(allowSendingWithoutReply));
      var w16 := Then(w15, "reply_markup", StrOpt(inlineKeyboardMarkup));
      var w17 := Then(w16, "reply_markup", StrOpt(replyKeyboardMarkup));
      var w18 := Then(w17, "reply_markup", StrOpt(replyKeyboardRemove));
      var w19 := Then(w18, "reply_markup", StrOpt(forceReply));
      w19
    }

    /** The value the calls leave at `chat_id`. */
    lemma PlanChatID()
      ensures HoldsIfSet(OrEmpty(Written(Plan())), "chat_id", IntOpt(chatID))
    {
      var w0 := NoWrites;
      var w1 := Then(w0, "chat_id", IntOpt(chatID));
      var w2 := Then(w1, "animation", FileOpt(animation));
      var w3 := Then(w2, "animation", StrOpt(animationString));
      var w4 := Then(w3, "duration", IntOpt(duration));
      var w5 := Then(w4, "width", IntOpt(width));
      var w6 := Then(w5, "height", IntOpt(height));
      var w7 := Then(w6, "message_thread_id", IntOpt(messageThreadID));
      var w8 := Then(w7, "parse_mode", StrOpt(parseMode));
      var w9 := Then(w8, "caption_entities", StrOpt(captionEntities));
      var w10 := Then(w9, "caption", StrOpt(caption));
      var w11 := Then(w10, "disable_notification", BoolOpt(disableNotification));
      var w12 := Then(w11, "protect_content", BoolOpt(protectContent));
      var w13 := Then(w12, "reply_to_message_id", IntOpt(replyToMessageID));
      var w14 := Then(w13, "supports_streaming", BoolOpt(supportsStreaming));
      var w15 := Then(w14, "allow_sending_without_reply", BoolOpt(allowSendingWithoutReply));
      var w16 := Then(w15, "reply_markup", StrOpt(inlineKeyboardMarkup));
      var w17 := Then(w16, "reply_markup", StrOpt(replyKeyboardMarkup));
      var w18 := Then(w17, "reply_markup", StrOpt(replyKeyboardRemove));
      var w19 := Then(w18, "reply_markup", StrOpt(forceReply));
      LastSetOther(w1, "animation", FileOpt(animation), "chat_id");
      LastSetOther(w2, "animation", StrOpt(animationString), "chat_id");
      LastSetOther(w3, "duration", IntOpt(duration), "chat_id");
      LastSetOther(w4, "width", IntOpt(width), "chat_id");
      LastSetOther(w5, "height", IntOpt(height), "chat_id");
      LastSetOther(w6, "message_thread_id", IntOpt(messageThreadID), "chat_id");
      LastSetOther(w7, "parse_mode", StrOpt(parseMode), "chat_id");
      LastSetOther(w8, "caption_entities", StrOpt(captionEntities), "chat_id");
      LastSetOther(w9, "caption", StrOpt(caption), "chat_id");
      LastSetOther(w10, "disable_notification", BoolOpt(disableNotification), "chat_id");
      LastSetOther(w11, "protect_content", BoolOpt(protectContent), "chat_id");
      LastSetOther(w12, "reply_to_message_id", IntOpt(replyToMessageID), "chat_id");
      LastSetOther(w13, "supports_streaming", BoolOpt(supportsStreaming), "chat_id");
      LastSetOther(w14, "allow_sending_without_reply", BoolOpt(allowSendingWithoutReply), "chat_id");
      LastSetOther(w15, "reply_markup", StrOpt(inlineKeyboardMarkup), "chat_id");
      LastSetOther(w16, "reply_markup", StrOpt(replyKeyboardMarkup), "chat_id");
      LastSetOther(w17, "reply_markup", StrOpt(replyKeyboardRemove), "chat_id");
      LastSetOther(w18, "reply_markup", StrOpt(forceReply), "chat_id");
      WrittenLastSet(w19, "chat_id");
    }

    /** The value the calls leave at `animation`: the last one set. */
    lemma PlanAnimation()
      ensures HoldsIfSet(OrEmpty(Written(Plan())), "animation", Later(FileOpt(animation), StrOpt(animationString)))
    {
      var w0 := NoWrites;
      var w1 := Then(w0, "chat_id", IntOpt(chatID));
      var w2 := Then(w1, "animation", FileOpt(animation));
      var w3 := Then(w2, "animation", StrOpt(animationString));
      var w4 := Then(w3, "duration", IntOpt(duration));
      var w5 := Then(w4, "width", IntOpt(width));
      var w6 := Then(w5, "height", IntOpt(height));
      var w7 := Then(w6, "message_thread_id", IntOpt(messageThreadID));
      var w8 := Then(w7, "parse_mode", StrOpt(parseMode));
      var w9 := Then(w8, "caption_entities", StrOpt(captionEntities));
      var w10 := Then(w9, "caption", StrOpt(caption));
      var w11 := Then(w10, "disable_notification", BoolOpt(disableNotification));
      var w12 := Then(w11, "protect_content", BoolOpt(protectContent));
      var w13 := Then(w12, "reply_to_message_id", IntOpt(replyToMessageID));
      var w14 := Then(w13, "supports_streaming", BoolOpt(supportsStreaming));
      var w15 := Then(w14, "allow_sending_without_reply", BoolOpt(allowSendingWithoutReply));
      var w16 := Then(w15, "reply_markup", StrOpt(inlineKeyboardMarkup));
      var w17 := Then(w16, "reply_markup", StrOpt(replyKeyboardMarkup));
      var w18 := Then(w17, "reply_markup", StrOpt(replyKeyboardRemove));
      var w19 := Then(w18, "reply_markup", StrOpt(forceReply));
      LastSetOther(w0, "chat_id", IntOpt(chatID), "animation");
      LastSetSame(w1, "animation", FileOpt(animation));
      LastSetSame(w2, "animation", StrOpt(animationString));
      LastSetOther(w3, "duration", IntOpt(duration), "animation");
      LastSetOther(w4, "width", IntOpt(width), "animation");
      LastSetOther(w5, "height", IntOpt(height), "animation");
      LastSetOther(w6, "message_thread_id", IntOpt(messageThreadID), "animation");
      LastSetOther(w7, "parse_mode", StrOpt(parseMode), "animation");
      LastSetOther(w8, "caption_entities", StrOpt(captionEntities), "animation");
      LastSetOther(w9, "caption", StrOpt(caption), "animation");
      LastSetOther(w10, "disable_notification", BoolOpt(disableNotification), "animation");
      LastSetOther(w11, "protect_content", BoolOpt(protectContent), "animation");
      LastSetOther(w12, "reply_to_message_id", IntOpt(replyToMessageID), "animation");
      LastSetOther(w13, "supports_streaming", BoolOpt(supportsStreaming), "animation");
      LastSetOther(w14, "allow_sending_without_reply", BoolOpt(allowSendingWithoutReply), "animation");
      LastSetOther(w15, "reply_markup", StrOpt(inlineKeyboardMarkup), "animation");
      LastSetOther(w16, "reply_markup", StrOpt(replyKeyboardMarkup), "animation");
      LastSetOther(w17, "reply_markup", StrOpt(replyKeyboardRemove), "animation");
      LastSetOther(w18, "reply_markup", StrOpt(forceReply), "animation");
      WrittenLastSet(w19, "animation");
    }

    /** The value the calls leave at `duration`. */
    lemma PlanDuration()
      ensures HoldsIfSet(OrEmpty(Written(Plan())), "duration", IntOpt(duration))
    {
      var w0 := NoWrites;
      var w1 := Then(w0, "chat_id", IntOpt(chatID));
      var w2 := Then(w1, "animation", FileOpt(animation));
      var w3 := Then(w2, "animation", StrOpt(animationString));
      var w4 := Then(w3, "duration", IntOpt(duration));
      var w5 := Then(w4, "width", IntOpt(width));
      var w6 := Then(w5, "height", IntOpt(height));
      var w7 := Then(w6, "message_thread_id", IntOpt(messageThreadID));
      var w8 := Then(w7, "parse_mode", StrOpt(parseMode));
      var w9 := Then(w8, "caption_entities", StrOpt(captionEntities));
      var w10 := Then(w9, "caption", StrOpt(caption));
      var w11 := Then(w10, "disable_notification", BoolOpt(disableNotification));
      var w12 := Then(w11, "protect_content", BoolOpt(protectContent));
      var w13 := Then(w12, "reply_to_message_id", IntOpt(replyToMessageID));
      var w14 := Then(w13, "supports_streaming", BoolOpt(supportsStreaming));
      var w15 := Then(w14, "allow_sending_without_reply", BoolOpt(allowSendingWithoutReply));
      var w16 := Then(w15, "reply_markup", StrOpt(inlineKeyboardMarkup));
      var w17 := Then(w16, "reply_markup", StrOpt(replyKeyboardMarkup));
      var w18 := Then(w17, "reply_markup", StrOpt(replyKeyboardRemove));
      var w19 := Then(w18, "reply_markup", StrOpt(forceReply));
      LastSetOther(w0, "chat_id", IntOpt(chatID), "duration");
      LastSetOther(w1, "animation", FileOpt(animation), "duration");
      LastSetOther(w2, "animation", StrOpt(animationString), "duration");
      LastSetOther(w4, "width", IntOpt(width), "duration");
      LastSetOther(w5, "height", IntOpt(height), "duration");
      LastSetOther(w6, "message_thread_id", IntOpt(messageThreadID), "duration");
      LastSetOther(w7, "parse_mode", StrOpt(parseMode), "duration");
      LastSetOther(w8, "caption_entities", StrOpt(captionEntities), "duration");
      LastSetOther(w9, "caption", StrOpt(caption), "duration");
      LastSetOther(w10, "disable_notification", BoolOpt(disableNotification), "duration");
      LastSetOther(w11, "protect_content", BoolOpt(protectContent), "duration");
      LastSetOther(w12, "reply_to_message_id", IntOpt(replyToMessageID), "duration");
      LastSetOther(w13, "supports_streaming", BoolOpt(supportsStreaming), "duration");
      LastSetOther(w14, "allow_sending_without_reply", BoolOpt(allowSendingWithoutReply), "duration");
      LastSetOther(w15, "reply_markup", StrOpt(inlineKeyboardMarkup), "duration");
      LastSetOther(w16, "reply_markup", StrOpt(replyKeyboardMarkup), "duration");
      LastSetOther(w17, "reply_markup", StrOpt(replyKeyboardRemove), "duration");
      LastSetOther(w18, "reply_markup", StrOpt(forceReply), "duration");
      WrittenLastSet(w19, "duration");
    }

    /** The value the calls leave at `width`. */
    lemma PlanWidth()
      ensures HoldsIfSet(OrEmpty(Written(Plan())), "width", IntOpt(width))
    {
      var w0 := NoWrites;
      var w1 := Then(w0, "chat_id", IntOpt(chatID));
      var w2 := Then(w1, "animation", FileOpt(animation));
      var w3 := Then(w2, "animation", StrOpt(animationString));
      var w4 := Then(w3, "duration", IntOpt(duration));
      var w5 := Then(w4, "width", IntOpt(width));
      var w6 := Then(w5, "height", IntOpt(height));
      var w7 := Then(w6, "message_thread_id", IntOpt(messageThreadID));
      var w8 := Then(w7, "parse_mode", StrOpt(parseMode));
      var w9 := Then(w8, "caption_entities", StrOpt(captionEntities));
      var w10 := Then(w9, "caption", StrOpt(caption));
      var w11 := Then(w10, "disable_notification", BoolOpt(disableNotification));
      var w12 := Then(w11, "protect_content", BoolOpt(protectContent));
      var w13 := Then(w12, "reply_to_message_id", IntOpt(replyToMessageID));
      var w14 := Then(w13, "supports_streaming", BoolOpt(supportsStreaming));
      var w15 := Then(w14, "allow_sending_without_reply", BoolOpt(allowSendingWithoutReply));
      var w16 := Then(w15, "reply_markup", StrOpt(inlineKeyboardMarkup));
      var w17 := Then(w16, "reply_markup", StrOpt(replyKeyboardMarkup));
      var w18 := Then(w17, "reply_markup", StrOpt(replyKeyboardRemove));
      var w19 := Then(w18, "reply_markup", StrOpt(forceReply));
      LastSetOther(w0, "chat_id", IntOpt(chatID), "width");
      LastSetOther(w1, "animation", FileOpt(animation), "width");
      LastSetOther(w2, "animation", StrOpt(animationString), "width");
      LastSetOther(w3, "duration", IntOpt(duration), "width");
      LastSetOther(w5, "height", IntOpt(height), "width");
      LastSetOther(w6, "message_thread_id", IntOpt(messageThreadID), "width");
      LastSetOther(w7, "parse_mode", StrOpt(parseMode), "width");
      LastSetOther(w8, "caption_entities", StrOpt(captionEntities), "width");
      LastSetOther(w9, "caption", StrOpt(caption), "width");
      LastSetOther(w10, "disable_notification", BoolOpt(disableNotification), "width");
      LastSetOther(w11, "protect_content", BoolOpt(protectContent), "width");
      LastSetOther(w12, "reply_to_message_id", IntOpt(replyToMessageID), "width");
      LastSetOther(w13, "supports_streaming", BoolOpt(supportsStreaming), "width");
      LastSetOther(w14, "allow_sending_without_reply", BoolOpt(allowSendingWithoutReply), "width");
      LastSetOther(w15, "reply_markup", StrOpt(inlineKeyboardMarkup), "width");
      LastSetOther(w16, "reply_markup", StrOpt(replyKeyboardMarkup), "width");
      LastSetOther(w17, "reply_markup", StrOpt(replyKeyboardRemove), "width");
      LastSetOther(w18, "reply_markup", StrOpt(forceReply), "width");
      WrittenLastSet(w19, "width");
    }

    /** The value the calls leave at `height`. */
    lemma PlanHeight()
      ensures HoldsIfSet(OrEmpty(Written(Plan())), "height", IntOpt(height))
    {
      var w0 := NoWrites;
      var w1 := Then(w0, "chat_id", IntOpt(chatID));
      var w2 := Then(w1, "animation", FileOpt(animation));
      var w3 := Then(w2, "animation", StrOpt(animationString));
      var w4 := Then(w3, "duration", IntOpt(duration));
      var w5 := Then(w4, "width", IntOpt(width));
      var w6 := Then(w5, "height", IntOpt(height));
      var w7 := Then(w6, "message_thread_id", IntOpt(messageThreadID));
      var w8 := Then(w7, "parse_mode", StrOpt(parseMode));
      var w9 := Then(w8, "caption_entities", StrOpt(captionEntities));
      var w10 := Then(w9, "caption", StrOpt(caption));
      var w11 := Then(w10, "disable_notification", BoolOpt(disableNotification));
      var w12 := Then(w11, "protect_content", BoolOpt(protectContent));
      var w13 := Then(w12, "reply_to_message_id", IntOpt(replyToMessageID));
      var w14 := Then(w13, "supports_streaming", BoolOpt(supportsStreaming));
      var w15 := Then(w14, "allow_sending_without_reply", BoolOpt(allowSendingWithoutReply));
      var w16 := Then(w15, "reply_markup", StrOpt(inlineKeyboardMarkup));
      var w17 := Then(w16, "reply_markup", StrOpt(replyKeyboardMarkup));
      var w18 := Then(w17, "reply_markup", StrOpt(replyKeyboardRemove));
      var w19 := Then(w18, "reply_markup", StrOpt(forceReply));
      LastSetOther(w0, "chat_id", IntOpt(chatID), "height");
      LastSetOther(w1, "animation", FileOpt(animation), "height");
      LastSetOther(w2, "animation", StrOpt(animationString), "height");
      LastSetOther(w3, "duration", IntOpt(duration), "height");
      LastSetOther(w4, "width", IntOpt(width), "height");
      LastSetOther(w6, "message_thread_id", IntOpt(messageThreadID), "height");
      LastSetOther(w7, "parse_mode", StrOpt(parseMode), "height");
      LastSetOther(w8, "caption_entities", StrOpt(captionEntities), "height");
      LastSetOther(w9, "caption", StrOpt(caption), "height");
      LastSetOther(w10, "disable_notification", BoolOpt(disableNotification), "height");
      LastSetOther(w11, "protect_content", BoolOpt(protectContent), "height");
      LastSetOther(w12, "reply_to_message_id", IntOpt(replyToMessageID), "height");
      LastSetOther(w13, "supports_streaming", BoolOpt(supportsStreaming), "height");
      LastSetOther(w14, "allow_sending_without_reply", BoolOpt(allowSendingWithoutReply), "height");
      LastSetOther(w15, "reply_markup", StrOpt(inlineKeyboardMarkup), "height");
      LastSetOther(w16, "reply_markup", StrOpt(replyKeyboardMarkup), "height");
      LastSetOther(w17, "reply_markup", StrOpt(replyKeyboardRemove), "height");
      LastSetOther(w18, "reply_markup", StrOpt(forceReply), "height");
      WrittenLastSet(w19, "height");
    }

    /** The value the calls leave at `message_thread_id`. */
    lemma PlanMessageThreadID()
      ensures HoldsIfSet(OrEmpty(Written(Plan())), "message_thread_id", IntOpt(messageThreadID))
    {
      var w0 := NoWrites;
      var w1 := Then(w0, "chat_id", IntOpt(chatID));
      var w2 := Then(w1, "animation", FileOpt(animation));
      var w3 := Then(w2, "animation", StrOpt(animationString));
      var w4 := Then(w3, "duration", IntOpt(duration));
      var w5 := Then(w4, "width", IntOpt(width));
      var w6 := Then(w5, "height", IntOpt(height));
      var w7 := Then(w6, "message_thread_id", IntOpt(messageThreadID));
      var w8 := Then(w7, "parse_mode", StrOpt(parseMode));
      var w9 := Then(w8, "caption_entities", StrOpt(captionEntities));
      var w10 := Then(w9, "caption", StrOpt(caption));
      var w11 := Then(w10, "disable_notification", BoolOpt(disableNotification));
      var w12 := Then(w11, "protect_content", BoolOpt(protectContent));
      var w13 := Then(w12, "reply_to_message_id", IntOpt(replyToMessageID));
      var w14 := Then(w13, "supports_streaming", BoolOpt(supportsStreaming));
      var w15 := Then(w14, "allow_sending_without_reply", BoolOpt(allowSendingWithoutReply));
      var w16 := Then(w15, "reply_markup", StrOpt(inlineKeyboardMarkup));
      var w17 := Then(w16, "reply_markup", StrOpt(replyKeyboardMarkup));
      var w18 := Then(w17, "reply_markup", StrOpt(replyKeyboardRemove));
      var w19 := Then(w18, "reply_markup", StrOpt(forceReply));
      LastSetOther(w0, "chat_id", IntOpt(chatID), "message_thread_id");
      LastSetOther(w1, "animation", FileOpt(animation), "message_thread_id");
      LastSetOther(w2, "animation", StrOpt(animationString), "message_thread_id");
      LastSetOther(w3, "duration", IntOpt(duration), "message_thread_id");
      LastSetOther(w4, "width", IntOpt(width), "message_thread_id");
      LastSetOther(w5, "height", IntOpt(height), "message_thread_id");
      LastSetOther(w7, "parse_mode", StrOpt(parseMode), "message_thread_id");
      LastSetOther(w8, "caption_entities", StrOpt(captionEntities), "message_thread_id");
      LastSetOther(w9, "caption", StrOpt(caption), "message_thread_id");
      LastSetOther(w10, "disable_notification", BoolOpt(disableNotification), "message_thread_id");
      LastSetOther(w11, "protect_content", BoolOpt(protectContent), "message_thread_id");
      LastSetOther(w12, "reply_to_message_id", IntOpt(replyToMessageID), "message_thread_id");
      LastSetOther(w13, "supports_streaming", BoolOpt(supportsStreaming), "message_thread_id");
      LastSetOther(w14, "allow_sending_without_reply", BoolOpt(allowSendingWithoutReply), "message_thread_id");
      LastSetOther(w15, "reply_markup", StrOpt(inlineKeyboardMarkup), "message_thread_id");
      LastSetOther(w16, "reply_markup", StrOpt(replyKeyboardMarkup), "message_thread_id");
      LastSetOther(w17, "reply_markup", StrOpt(replyKeyboardRemove), "message_thread_id");
      LastSetOther(w18, "reply_markup", StrOpt(forceReply), "message_thread_id");
      WrittenLastSet(w19, "message_thread_id");
    }

    /** The value the calls leave at `parse_mode`. */
    lemma PlanParseMode()
      ensures HoldsIfSet(OrEmpty(Written(Plan())), "parse_mode", StrOpt(parseMode))
    {
      var w0 := NoWrites;
      var w1 := Then(w0, "chat_id", IntOpt(chatID));
      var w2 := Then(w1, "animation", FileOpt(animation));
      var w3 := Then(w2, "animation", StrOpt(animationString));
      var w4 := Then(w3, "duration", IntOpt(duration));
      var w5 := Then(w4, "width", IntOpt(width));
      var w6 := Then(w5, "height", IntOpt(height));
      var w7 := Then(w6, "message_thread_id", IntOpt(messageThreadID));
      var w8 := Then(w7, "parse_mode", StrOpt(parseMode));
      var w9 := Then(w8, "caption_entities", StrOpt(captionEntities));
      var w10 := Then(w9, "caption", StrOpt(caption));
      var w11 := Then(w10, "disable_notification", BoolOpt(disableNotification));
      var w12 := Then(w11, "protect_content", BoolOpt(protectContent));
      var w13 := Then(w12, "reply_to_message_id", IntOpt(replyToMessageID));
      var w14 := Then(w13, "supports_streaming", BoolOpt(supportsStreaming));
      var w15 := Then(w14, "allow_sending_without_reply", BoolOpt(allowSendingWithoutReply));
      var w16 := Then(w15, "reply_markup", StrOpt(inlineKeyboardMarkup));
      var w17 := Then(w16, "reply_markup", StrOpt(replyKeyboardMarkup));
      var w18 := Then(w17, "reply_markup", StrOpt(replyKeyboardRemove));
      var w19 := Then(w18, "reply_markup", StrOpt(forceReply));
      LastSetOther(w0, "chat_id", IntOpt(chatID), "parse_mode");
      LastSetOther(w1, "animation", FileOpt(animation), "parse_mode");
      LastSetOther(w2, "animation", StrOpt(animationString), "parse_mode");
      LastSetOther(w3, "duration", IntOpt(duration), "parse_mode");
      LastSetOther(w4, "width", IntOpt(width), "parse_mode");
      LastSetOther(w5, "height", IntOpt(height), "parse_mode");
      LastSetOther(w6, "message_thread_id", IntOpt(messageThreadID), "parse_mode");
      LastSetOther(w8, "caption_entities", StrOpt(captionEntities), "parse_mode");
      LastSetOther(w9, "caption", StrOpt(caption), "parse_mode");
      LastSetOther(w10, "disable_notification", BoolOpt(disableNotification), "parse_mode");
      LastSetOther(w11, "protect_content", BoolOpt(protectContent), "parse_mode");
      LastSetOther(w12, "reply_to_message_id", IntOpt(replyToMessageID), "parse_mode");
      LastSetOther(w13, "supports_streaming", BoolOpt(supportsStreaming), "parse_mode");
      LastSetOther(w14, "allow_sending_without_reply", BoolOpt(allowSendingWithoutReply), "parse_mode");
      LastSetOther(w15, "reply_markup", StrOpt(inlineKeyboardMarkup), "parse_mode");
      LastSetOther(w16, "reply_markup", StrOpt(replyKeyboardMarkup), "parse_mode");
      LastSetOther(w17, "reply_markup", StrOpt(replyKeyboardRemove), "parse_mode");
      LastSetOther(w18, "reply_markup", StrOpt(forceReply), "parse_mode");
      WrittenLastSet(w19, "parse_mode");
    }

    /** The value the calls leave at `caption_entities`. */
    lemma PlanCaptionEntities()
      ensures HoldsIfSet(OrEmpty(Written(Plan())), "caption_entities", StrOpt(captionEntities))
    {
      var w0 := NoWrites;
      var w1 := Then(w0, "chat_id", IntOpt(chatID));
      var w2 := Then(w1, "animation", FileOpt(animation));
      var w3 := Then(w2, "animation", StrOpt(animationString));
      var w4 := Then(w3, "duration", IntOpt(duration));
      var w5 := Then(w4, "width", IntOpt(width));
      var w6 := Then(w5, "height", IntOpt(height));
      var w7 := Then(w6, "message_thread_id", IntOpt(messageThreadID));
      var w8 := Then(w7, "parse_mode", StrOpt(parseMode));
      var w9 := Then(w8, "caption_entities", StrOpt(captionEntities));
      var w10 := Then(w9, "caption", StrOpt(caption));
      var w11 := Then(w10, "disable_notification", BoolOpt(disableNotification));
      var w12 := Then(w11, "protect_content", BoolOpt(protectContent));
      var w13 := Then(w12, "reply_to_message_id", IntOpt(replyToMessageID));
      var w14 := Then(w13, "supports_streaming", BoolOpt(supportsStreaming));
      var w15 := Then(w14, "allow_sending_without_reply", BoolOpt(allowSendingWithoutReply));
      var w16 := Then(w15, "reply_markup", StrOpt(inlineKeyboardMarkup));
      var w17 := Then(w16, "reply_markup", StrOpt(replyKeyboardMarkup));
      var w18 := Then(w17, "reply_markup", StrOpt(replyKeyboardRemove));
      var w19 := Then(w18, "reply_markup", StrOpt(forceReply));
      LastSetOther(w0, "chat_id", IntOpt(chatID), "caption_entities");
      LastSetOther(w1, "animation", FileOpt(animation), "caption_entities");
      LastSetOther(w2, "animation", StrOpt(animationString), "caption_entities");
      LastSetOther(w3, "duration", IntOpt(duration), "caption_entities");
      LastSetOther(w4, "width", IntOpt(width), "caption_entities");
      LastSetOther(w5, "height", IntOpt(height), "caption_entities");
      LastSetOther(w6, "message_thread_id", IntOpt(messageThreadID), "caption_entities");
      LastSetOther(w7, "parse_mode", StrOpt(parseMode), "caption_entities");
      LastSetOther(w9, "caption", StrOpt(caption), "caption_entities");
      LastSetOther(w10, "disable_notification", BoolOpt(disableNotification), "caption_entities");
      LastSetOther(w11, "protect_content", BoolOpt(protectContent), "caption_entities");
      LastSetOther(w12, "reply_to_message_id", IntOpt(replyToMessageID), "caption_entities");
      LastSetOther(w13, "supports_streaming", BoolOpt(supportsStreaming), "caption_entities");
      LastSetOther(w14, "allow_sending_without_reply", BoolOpt(allowSendingWithoutReply), "caption_entities");
      LastSetOther(w15, "reply_markup", StrOpt(inlineKeyboardMarkup), "caption_entities");
      LastSetOther(w16, "reply_markup", StrOpt(replyKeyboardMarkup), "caption_entities");
      LastSetOther(w17, "reply_markup", StrOpt(replyKeyboardRemove), "caption_entities");
      LastSetOther(w18, "reply_markup", StrOpt(forceReply), "caption_entities");
      WrittenLastSet(w19, "caption_entities");
    }

    /** The value the calls leave at `caption`. */
    lemma PlanCaption()
      ensures HoldsIfSet(OrEmpty(Written(Plan())), "caption", StrOpt(caption))
    {
      var w0 := NoWrites;
      var w1 := Then(w0, "chat_id", IntOpt(chatID));
      var w2 := Then(w1, "animation", FileOpt(animation));
      var w3 := Then(w2, "animation", StrOpt(animationString));
      var w4 := Then(w3, "duration", IntOpt(duration));
      var w5 := Then(w4, "width", IntOpt(width));
      var w6 := Then(w5, "height", IntOpt(height));
      var w7 := Then(w6, "message_thread_id", IntOpt(messageThreadID));
      var w8 := Then(w7, "parse_mode", StrOpt(parseMode));
      var w9 := Then(w8, "caption_entities", StrOpt(captionEntities));
      var w10 := Then(w9, "caption", StrOpt(caption));
      var w11 := Then(w10, "disable_notification", BoolOpt(disableNotification));
      var w12 := Then(w11, "protect_content", BoolOpt(protectContent));
      var w13 := Then(w12, "reply_to_message_id", IntOpt(replyToMessageID));
      var w14 := Then(w13, "supports_streaming", BoolOpt(supportsStreaming));
      var w15 := Then(w14, "allow_sending_without_reply", BoolOpt(allowSendingWithoutReply));
      var w16 := Then(w15, "reply_markup", StrOpt(inlineKeyboardMarkup));
      var w17 := Then(w16, "reply_markup", StrOpt(replyKeyboardMarkup));
      var w18 := Then(w17, "reply_markup", StrOpt(replyKeyboardRemove));
      var w19 := Then(w18, "reply_markup", StrOpt(forceReply));
      LastSetOther(w0, "chat_id", IntOpt(chatID), "caption");
      LastSetOther(w1, "animation", FileOpt(animation), "caption");
      LastSetOther(w2, "animation", StrOpt(animationString), "caption");
      LastSetOther(w3, "duration", IntOpt(duration), "caption");
      LastSetOther(w4, "width", IntOpt(width), "caption");
      LastSetOther(w5, "height", IntOpt(height), "caption");
      LastSetOther(w6, "message_thread_id", IntOpt(messageThreadID), "caption");
      LastSetOther(w7, "parse_mode", StrOpt(parseMode), "caption");
      LastSetOther(w8, "caption_entities", StrOpt(captionEntities), "caption");
      LastSetOther(w10, "disable_notification", BoolOpt(disableNotification), "caption");
      LastSetOther(w11, "protect_content", BoolOpt(protectContent), "caption");
      LastSetOther(w12, "reply_to_message_id", IntOpt(replyToMessageID), "caption");
      LastSetOther(w13, "supports_streaming", BoolOpt(supportsStreaming), "caption");
      LastSetOther(w14, "allow_sending_without_reply", BoolOpt(allowSendingWithoutReply), "caption");
      LastSetOther(w15, "reply_markup", StrOpt(inlineKeyboardMarkup), "caption");
      LastSetOther(w16, "reply_markup", StrOpt(replyKeyboardMarkup), "caption");
      LastSetOther(w17, "reply_markup", StrOpt(replyKeyboardRemove), "caption");
      LastSetOther(w18, "reply_markup", StrOpt(forceReply), "caption");
      WrittenLastSet(w19, "caption");
    }

    /** The value the calls leave at `disable_notification`. */
    lemma PlanDisableNotification()
      ensures HoldsIfSet(OrEmpty(Written(Plan())), "disable_notification", BoolOpt(disableNotification))
    {
      var w0 := NoWrites;
      var w1 := Then(w0, "chat_id", IntOpt(chatID));
      var w2 := Then(w1, "animation", FileOpt(animation));
      var w3 := Then(w2, "animation", StrOpt(animationString));
      var w4 := Then(w3, "duration", IntOpt(duration));
      var w5 := Then(w4, "width", IntOpt(width));
      var w6 := Then(w5, "height", IntOpt(height));
      var w7 := Then(w6, "message_thread_id", IntOpt(messageThreadID));
      var w8 := Then(w7, "parse_mode", StrOpt(parseMode));
      var w9 := Then(w8, "caption_entities", StrOpt(captionEntities));
      var w10 := Then(w9, "caption", StrOpt(caption));
      var w11 := Then(w10, "disable_notification", BoolOpt(disableNotification));
      var w12 := Then(w11, "protect_content", BoolOpt(protectContent));
      var w13 := Then(w12, "reply_to_message_id", IntOpt(replyToMessageID));
      var w14 := Then(w13, "supports_streaming", BoolOpt(supportsStreaming));
      var w15 := Then(w14, "allow_sending_without_reply", BoolOpt(allowSendingWithoutReply));
      var w16 := Then(w15, "reply_markup", StrOpt(inlineKeyboardMarkup));
      var w17 := Then(w16, "reply_markup", StrOpt(replyKeyboardMarkup));
      var w18 := Then(w17, "reply_markup", StrOpt(replyKeyboardRemove));
      var w19 := Then(w18, "reply_markup", StrOpt(forceReply));
      LastSetOther(w0, "chat_id", IntOpt(chatID), "disable_notification");
      LastSetOther(w1, "animation", FileOpt(animation), "disable_notification");
      LastSetOther(w2, "animation", StrOpt(animationString), "disable_notification");
      LastSetOther(w3, "duration", IntOpt(duration), "disable_notification");
      LastSetOther(w4, "width", IntOpt(width), "disable_notification");
      LastSetOther(w5, "height", IntOpt(height), "disable_notification");
      LastSetOther(w6, "message_thread_id", IntOpt(messageThreadID), "disable_notification");
      LastSetOther(w7, "parse_mode", StrOpt(parseMode), "disable_notification");
      LastSetOther(w8, "caption_entities", StrOpt(captionEntities), "disable_notification");
      LastSetOther(w9, "caption", StrOpt(caption), "disable_notification");
      LastSetOther(w11, "protect_content", BoolOpt(protectContent), "disable_notification");
      LastSetOther(w12, "reply_to_message_id", IntOpt(replyToMessageID), "disable_notification");
      LastSetOther(w13, "supports_streaming", BoolOpt(supportsStreaming), "disable_notification");
      LastSetOther(w14, "allow_sending_without_reply", BoolOpt(allowSendingWithoutReply), "disable_notification");
      LastSetOther(w15, "reply_markup", StrOpt(inlineKeyboardMarkup), "disable_notification");
      LastSetOther(w16, "reply_markup", StrOpt(replyKeyboardMarkup), "disable_notification");
      LastSetOther(w17, "reply_markup", StrOpt(replyKeyboardRemove), "disable_notification");
      LastSetOther(w18, "reply_markup", StrOpt(forceReply), "disable_notification");
      WrittenLastSet(w19, "disable_notification");
    }

    /** The value the calls leave at `protect_content`. */
    lemma PlanProtectContent()
      ensures HoldsIfSet(OrEmpty(Written(Plan())), "protect_content", BoolOpt(protectContent))
    {
      var w0 := NoWrites;
      var w1 := Then(w0, "chat_id", IntOpt(chatID));
      var w2 := Then(w1, "animation", FileOpt(animation));
      var w3 := Then(w2, "animation", StrOpt(animationString));
      var w4 := Then(w3, "duration", IntOpt(duration));
      var w5 := Then(w4, "width", IntOpt(width));
      var w6 := Then(w5, "height", IntOpt(height));
      var w7 := Then(w6, "message_thread_id", IntOpt(messageThreadID));
      var w8 := Then(w7, "parse_mode", StrOpt(parseMode));
      var w9 := Then(w8, "caption_entities", StrOpt(captionEntities));
      var w10 := Then(w9, "caption", StrOpt(caption));
      var w11 := Then(w10, "disable_notification", BoolOpt(disableNotification));
      var w12 := Then(w11, "protect_content", BoolOpt(protectContent));
      var w13 := Then(w12, "reply_to_message_id", IntOpt(replyToMessageID));
      var w14 := Then(w13, "supports_streaming", BoolOpt(supportsStreaming));
      var w15 := Then(w14, "allow_sending_without_reply", BoolOpt(allowSendingWithoutReply));
      var w16 := Then(w15, "reply_markup", StrOpt(inlineKeyboardMarkup));
      var w17 := Then(w16, "reply_markup", StrOpt(replyKeyboardMarkup));
      var w18 := Then(w17, "reply_markup", StrOpt(replyKeyboardRemove));
      var w19 := Then(w18, "reply_markup", StrOpt(forceReply));
      LastSetOther(w0, "chat_id", IntOpt(chatID), "protect_content");
      LastSetOther(w1, "animation", FileOpt(animation), "protect_content");
      LastSetOther(w2, "animation", StrOpt(animationString), "protect_content");
      LastSetOther(w3, "duration", IntOpt(duration), "protect_content");
      LastSetOther(w4, "width", IntOpt(width), "protect_content");
      LastSetOther(w5, "height", IntOpt(height), "protect_content");
      LastSetOther(w6, "message_thread_id", IntOpt(messageThreadID), "protect_content");
      LastSetOther(w7, "parse_mode", StrOpt(parseMode), "protect_content");
      LastSetOther(w8, "caption_entities", StrOpt(captionEntities), "protect_content");
      LastSetOther(w9, "caption", StrOpt(caption), "protect_content");
      LastSetOther(w10, "disable_notification", BoolOpt(disableNotification), "protect_content");
      LastSetOther(w12, "reply_to_message_id", IntOpt(replyToMessageID), "protect_content");
      LastSetOther(w13, "supports_streaming", BoolOpt(supportsStreaming), "protect_content");
      LastSetOther(w14, "allow_sending_without_reply", BoolOpt(allowSendingWithoutReply), "protect_content");
      LastSetOther(w15, "reply_markup", StrOpt(inlineKeyboardMarkup), "protect_content");
      LastSetOther(w16, "reply_markup", StrOpt(replyKeyboardMarkup), "protect_content");
      LastSetOther(w17, "reply_markup", StrOpt(replyKeyboardRemove), "protect_content");
      LastSetOther(w18, "reply_markup", StrOpt(forceReply), "protect_content");
      WrittenLastSet(w19, "protect_content");
    }

    /** The value the calls leave at `reply_to_message_id`. */
    lemma PlanReplyToMessageID()
      ensures HoldsIfSet(OrEmpty(Written(Plan())), "reply_to_message_id", IntOpt(replyToMessageID))
    {
      var w0 := NoWrites;
      var w1 := Then(w0, "chat_id", IntOpt(chatID));
      var w2 := Then(w1, "animation", FileOpt(animation));
      var w3 := Then(w2, "animation", StrOpt(animationString));
      var w4 := Then(w3, "duration", IntOpt(duration));
      var w5 := Then(w4, "width", IntOpt(width));
      var w6 := Then(w5, "height", IntOpt(height));
      var w7 := Then(w6, "message_thread_id", IntOpt(messageThreadID));
      var w8 := Then(w7, "parse_mode", StrOpt(parseMode));
      var w9 := Then(w8, "caption_entities", StrOpt(captionEntities));
      var w10 := Then(w9, "caption", StrOpt(caption));
      var w11 := Then(w10, "disable_notification", BoolOpt(disableNotification));
      var w12 := Then(w11, "protect_content", BoolOpt(protectContent));
      var w13 := Then(w12, "reply_to_message_id", IntOpt(replyToMessageID));
      var w14 := Then(w13, "supports_streaming", BoolOpt(supportsStreaming));
      var w15 := Then(w14, "allow_sending_without_reply", BoolOpt(allowSendingWithoutReply));
      var w16 := Then(w15, "reply_markup", StrOpt(inlineKeyboardMarkup));
      var w17 := Then(w16, "reply_markup", StrOpt(replyKeyboardMarkup));
      var w18 := Then(w17, "reply_markup", StrOpt(replyKeyboardRemove));
      var w19 := Then(w18, "reply_markup", StrOpt(forceReply));
      LastSetOther(w0, "chat_id", IntOpt(chatID), "reply_to_message_id");
      LastSetOther(w1, "animation", FileOpt(animation), "reply_to_message_id");
      LastSetOther(w2, "animation", StrOpt(animationString), "reply_to_message_id");
      LastSetOther(w3, "duration", IntOpt(duration), "reply_to_message_id");
      LastSetOther(w4, "width", IntOpt(width), "reply_to_message_id");
      LastSetOther(w5, "height", IntOpt(height), "reply_to_message_id");
      LastSetOther(w6, "message_thread_id", IntOpt(messageThreadID), "reply_to_message_id");
      LastSetOther(w7, "parse_mode", StrOpt(parseMode), "reply_to_message_id");
      LastSetOther(w8, "caption_entities", StrOpt(captionEntities), "reply_to_message_id");
      LastSetOther(w9, "caption", StrOpt(caption), "reply_to_message_id");
      LastSetOther(w10, "disable_notification", BoolOpt(disableNotification), "reply_to_message_id");
      LastSetOther(w11, "protect_content", BoolOpt(protectContent), "reply_to_message_id");
      LastSetOther(w13, "supports_streaming", BoolOpt(supportsStreaming), "reply_to_message_id");
      LastSetOther(w14, "allow_sending_without_reply", BoolOpt(allowSendingWithoutReply), "reply_to_message_id");
      LastSetOther(w15, "reply_markup", StrOpt(inlineKeyboardMarkup), "reply_to_message_id");
      LastSetOther(w16, "reply_markup", StrOpt(replyKeyboardMarkup), "reply_to_message_id");
      LastSetOther(w17, "reply_markup", StrOpt(replyKeyboardRemove), "reply_to_message_id");
      LastSetOther(w18, "reply_markup", StrOpt(forceReply), "reply_to_message_id");
      WrittenLastSet(w19, "reply_to_message_id");
    }

    /** The value the calls leave at `supports_streaming`. */
    lemma PlanSupportsStreaming()
      ensures HoldsIfSet(OrEmpty(Written(Plan())), "supports_streaming", BoolOpt(supportsStreaming))
    {
      var w0 := NoWrites;
      var w1 := Then(w0, "chat_id", IntOpt(chatID));
      var w2 := Then(w1, "animation", FileOpt(animation));
      var w3 := Then(w2, "animation", StrOpt(animationString));
      var w4 := Then(w3, "duration", IntOpt(duration));
      var w5 := Then(w4, "width", IntOpt(width));
      var w6 := Then(w5, "height", IntOpt(height));
      var w7 := Then(w6, "message_thread_id", IntOpt(messageThreadID));
      var w8 := Then(w7, "parse_mode", StrOpt(parseMode));
      var w9 := Then(w8, "caption_entities", StrOpt(captionEntities));
      var w10 := Then(w9, "caption", StrOpt(caption));
      var w11 := Then(w10, "disable_notification", BoolOpt(disableNotification));
      var w12 := Then(w11, "protect_content", BoolOpt(protectContent));
      var w13 := Then(w12, "reply_to_message_id", IntOpt(replyToMessageID));
      var w14 := Then(w13, "supports_streaming", BoolOpt(supportsStreaming));
      var w15 := Then(w14, "allow_sending_without_reply", BoolOpt(allowSendingWithoutReply));
      var w16 := Then(w15, "reply_markup", StrOpt(inlineKeyboardMarkup));
      var w17 := Then(w16, "reply_markup", StrOpt(replyKeyboardMarkup));
      var w18 := Then(w17, "reply_markup", StrOpt(replyKeyboardRemove));
      var w19 := Then(w18, "reply_markup", StrOpt(forceReply));
      LastSetOther(w0, "chat_id", IntOpt(chatID), "supports_streaming");
      LastSetOther(w1, "animation", FileOpt(animation), "supports_streaming");
      LastSetOther(w2, "animation", StrOpt(animationString), "supports_streaming");
      LastSetOther(w3, "duration", IntOpt(duration), "supports_streaming");
      LastSetOther(w4, "width", IntOpt(width), "supports_streaming");
      LastSetOther(w5, "height", IntOpt(height), "supports_streaming");
      LastSetOther(w6, "message_thread_id", IntOpt(messageThreadID), "supports_streaming");
      LastSetOther(w7, "parse_mode", StrOpt(parseMode), "supports_streaming");
      LastSetOther(w8, "caption_entities", StrOpt(captionEntities), "supports_streaming");
      LastSetOther(w9, "caption", StrOpt(caption), "supports_streaming");
      LastSetOther(w10, "disable_notification", BoolOpt(disableNotification), "supports_streaming");
      LastSetOther(w11, "protect_content", BoolOpt(protectContent), "supports_streaming");
      LastSetOther(w12, "reply_to_message_id", IntOpt(replyToMessageID), "supports_streaming");
      LastSetOther(w14, "allow_sending_without_reply", BoolOpt(allowSendingWithoutReply), "supports_streaming");
      LastSetOther(w15, "reply_markup", StrOpt(inlineKeyboardMarkup), "supports_streaming");
      LastSetOther(w16, "reply_markup", StrOpt(replyKeyboardMarkup), "supports_streaming");
      LastSetOther(w17, "reply_markup", StrOpt(replyKeyboardRemove), "supports_streaming");
      LastSetOther(w18, "reply_markup", StrOpt(forceReply), "supports_streaming");
      WrittenLastSet(w19, "supports_streaming");
    }

    /** The value the calls leave at `allow_sending_without_reply`. */
    lemma PlanAllowSendingWithoutReply()
      ensures HoldsIfSet(OrEmpty(Written(Plan())), "allow_sending_without_reply", BoolOpt(allowSendingWithoutReply))
    {
      var w0 := NoWrites;
      var w1 := Then(w0, "chat_id", IntOpt(chatID));
      var w2 := Then(w1, "animation", FileOpt(animation));
      var w3 := Then(w2, "animation", StrOpt(animationString));
      var w4 := Then(w3, "duration", IntOpt(duration));
      var w5 := Then(w4, "width", IntOpt(width));
      var w6 := Then(w5, "height", IntOpt(height));
      var w7 := Then(w6, "message_thread_id", IntOpt(messageThreadID));
      var w8 := Then(w7, "parse_mode", StrOpt(parseMode));
      var w9 := Then(w8, "caption_entities", StrOpt(captionEntities));
      var w10 := Then(w9, "caption", StrOpt(caption));
      var w11 := Then(w10, "disable_notification", BoolOpt(disableNotification));
      var w12 := Then(w11, "protect_content", BoolOpt(protectContent));
      var w13 := Then(w12, "reply_to_message_id", IntOpt(replyToMessageID));
      var w14 := Then(w13, "supports_streaming", BoolOpt(supportsStreaming));
      var w15 := Then(w14, "allow_sending_without_reply", BoolOpt(allowSendingWithoutReply));
      var w16 := Then(w15, "reply_markup", StrOpt(inlineKeyboardMarkup));
      var w17 := Then(w16, "reply_markup", StrOpt(replyKeyboardMarkup));
      var w18 := Then(w17, "reply_markup", StrOpt(replyKeyboardRemove));
      var w19 := Then(w18, "reply_markup", StrOpt(forceReply));
      LastSetOther(w0, "chat_id", IntOpt(chatID), "allow_sending_without_reply");
      LastSetOther(w1, "animation", FileOpt(animation), "allow_sending_without_reply");
      LastSetOther(w2, "animation", StrOpt(animationString), "allow_sending_without_reply");
      LastSetOther(w3, "duration", IntOpt(duration), "allow_sending_without_reply");
      LastSetOther(w4, "width", IntOpt(width), "allow_sending_without_reply");
      LastSetOther(w5, "height", IntOpt(height), "allow_sending_without_reply");
      LastSetOther(w6, "message_thread_id", IntOpt(messageThreadID), "allow_sending_without_reply");
      LastSetOther(w7, "parse_mode", StrOpt(parseMode), "allow_sending_without_reply");
      LastSetOther(w8, "caption_entities", StrOpt(captionEntities), "allow_sending_without_reply");
      LastSetOther(w9, "caption", StrOpt(caption), "allow_sending_without_reply");
      LastSetOther(w10, "disable_notification", BoolOpt(disableNotification), "allow_sending_without_reply");
      LastSetOther(w11, "protect_content", BoolOpt(protectContent), "allow_sending_without_reply");
      LastSetOther(w12, "reply_to_message_id", IntOpt(replyToMessageID), "allow_sending_without_reply");
      LastSetOther(w13, "supports_streaming", BoolOpt(supportsStreaming), "allow_sending_without_reply");
      LastSetOther(w15, "reply_markup", StrOpt(inlineKeyboardMarkup), "allow_sending_without_reply");
      LastSetOther(w16, "reply_markup", StrOpt(replyKeyboardMarkup), "allow_sending_without_reply");
      LastSetOther(w17, "reply_markup", StrOpt(replyKeyboardRemove), "allow_sending_without_reply");
      LastSetOther(w18, "reply_markup", StrOpt(forceReply), "allow_sending_without_reply");
      WrittenLastSet(w19, "allow_sending_without_reply");
    }

    /** The value the calls leave at `reply_markup`: the last one set. */
    lemma PlanReplyMarkup()
      ensures HoldsIfSet(OrEmpty(Written(Plan())), "reply_markup", Later(Later(Later(StrOpt(inlineKeyboardMarkup), StrOpt(replyKeyboardMarkup)), StrOpt(replyKeyboardRemove)), StrOpt(forceReply)))
    {
      var w0 := NoWrites;
      var w1 := Then(w0, "chat_id", IntOpt(chatID));
      var w2 := Then(w1, "animation", FileOpt(animation));
      var w3 := Then(w2, "animation", StrOpt(animationString));
      var w4 := Then(w3, "duration", IntOpt(duration));
      var w5 := Then(w4, "width", IntOpt(width));
      var w6 := Then(w5, "height", IntOpt(height));
      var w7 := Then(w6, "message_thread_id", IntOpt(messageThreadID));
      var w8 := Then(w7, "parse_mode", StrOpt(parseMode));
      var w9 := Then(w8, "caption_entities", StrOpt(captionEntities));
      var w10 := Then(w9, "caption", StrOpt(caption));
      var w11 := Then(w10, "disable_notification", BoolOpt(disableNotification));
      var w12 := Then(w11, "protect_content", BoolOpt(protectContent));
      var w13 := Then(w12, "reply_to_message_id", IntOpt(replyToMessageID));
      var w14 := Then(w13, "supports_streaming", BoolOpt(supportsStreaming));
      var w15 := Then(w14, "allow_sending_without_reply", BoolOpt(allowSendingWithoutReply));
      var w16 := Then(w15, "reply_markup", StrOpt(inlineKeyboardMarkup));
      var w17 := Then(w16, "reply_markup", StrOpt(replyKeyboardMarkup));
      var w18 := Then(w17, "reply_markup", StrOpt(replyKeyboardRemove));
      var w19 := Then(w18, "reply_markup", StrOpt(forceReply));
      LastSetOther(w0, "chat_id", IntOpt(chatID), "reply_markup");
      LastSetOther(w1, "animation", FileOpt(animation), "reply_markup");
      LastSetOther(w2, "animation", StrOpt(animationString), "reply_markup");
      LastSetOther(w3, "duration", IntOpt(duration), "reply_markup");
      LastSetOther(w4, "width", IntOpt(width), "reply_markup");
      LastSetOther(w5, "height", IntOpt(height), "reply_markup");
      LastSetOther(w6, "message_thread_id", IntOpt(messageThreadID), "reply_markup");
      LastSetOther(w7, "parse_mode", StrOpt(parseMode), "reply_markup");
      LastSetOther(w8, "caption_entities", StrOpt(captionEntities), "reply_markup");
      LastSetOther(w9, "caption", StrOpt(caption), "reply_markup");
      LastSetOther(w10, "disable_notification", BoolOpt(disableNotification), "reply_markup");
      LastSetOther(w11, "protect_content", BoolOpt(protectContent), "reply_markup");
      LastSetOther(w12, "reply_to_message_id", IntOpt(replyToMessageID), "reply_markup");
      LastSetOther(w13, "supports_streaming", BoolOpt(supportsStreaming), "reply_markup");
      LastSetOther(w14, "allow_sending_without_reply", BoolOpt(allowSendingWithoutReply), "reply_markup");
      LastSetSame(w15, "reply_markup", StrOpt(inlineKeyboardMarkup));
      LastSetSame(w16, "reply_markup", StrOpt(replyKeyboardMarkup));
      LastSetSame(w17, "reply_markup", StrOpt(replyKeyboardRemove));
      LastSetSame(w18, "reply_markup", StrOpt(forceReply));
      WrittenLastSet(w19, "reply_markup");
    }

    /** The calls write no key but these. */
    lemma PlanOnly()
      ensures OrEmpty(Written(Plan())).Keys <= {"chat_id", "animation", "duration", "width", "height", "message_thread_id", "parse_mode", "caption_entities", "caption", "disable_notification", "protect_content", "reply_to_message_id", "supports_streaming", "allow_sending_without_reply", "reply_markup"}
    {
      var w0 := NoWrites;
      var w1 := Then(w0, "chat_id", IntOpt(chatID));
      var w2 := Then(w1, "animation", FileOpt(animation));
      var w3 := Then(w2, "animation", StrOpt(animationString));
      var w4 := Then(w3, "duration", IntOpt(duration));
      var w5 := Then(w4, "width", IntOpt(width));
      var w6 := Then(w5, "height", IntOpt(height));
      var w7 := Then(w6, "message_thread_id", IntOpt(messageThreadID));
      var w8 := Then(w7, "parse_mode", StrOpt(parseMode));
      var w9 := Then(w8, "caption_entities", StrOpt(captionEntities));
      var w10 := Then(w9, "caption", StrOpt(caption));
      var w11 := Then(w10, "disable_notification", BoolOpt(disableNotification));
      var w12 := Then(w11, "protect_content", BoolOpt(protectContent));
      var w13 := Then(w12, "reply_to_message_id", IntOpt(replyToMessageID));
      var w14 := Then(w13, "supports_streaming", BoolOpt(supportsStreaming));
      var w15 := Then(w14, "allow_sending_without_reply", BoolOpt(allowSendingWithoutReply));
      var w16 := Then(w15, "reply_markup", StrOpt(inlineKeyboardMarkup));
      var w17 := Then(w16, "reply_markup", StrOpt(replyKeyboardMarkup));
      var w18 := Then(w17, "reply_markup", StrOpt(replyKeyboardRemove));
      var w19 := Then(w18, "reply_markup", StrOpt(forceReply));
      forall j | j !in {"chat_id", "animation", "duration", "width", "height", "message_thread_id", "parse_mode", "caption_entities", "caption", "disable_notification", "protect_content", "reply_to_message_id", "supports_streaming", "allow_sending_without_reply", "reply_markup"}
        ensures j !in OrEmpty(Written(w19))
      {
        LastSetOther(w0, "chat_id", IntOpt(chatID), j);
        LastSetOther(w1, "animation", FileOpt(animation), j);
        LastSetOther(w2, "animation", StrOpt(animationString), j);
        LastSetOther(w3, "duration", IntOpt(duration), j);
        LastSetOther(w4, "width", IntOpt(width), j);
        LastSetOther(w5, "height", IntOpt(height), j);
        LastSetOther(w6, "message_thread_id", IntOpt(messageThreadID), j);
        LastSetOther(w7, "parse_mode", StrOpt(parseMode), j);
        LastSetOther(w8, "caption_entities", StrOpt(captionEntities), j);
        LastSetOther(w9, "caption", StrOpt(caption), j);
        LastSetOther(w10, "disable_notification", BoolOpt(disableNotification), j);
        LastSetOther(w11, "protect_content", BoolOpt(protectContent), j);
        LastSetOther(w12, "reply_to_message_id", IntOpt(replyToMessageID), j);
        LastSetOther(w13, "supports_streaming", BoolOpt(supportsStreaming), j);
        LastSetOther(w14, "allow_sending_without_reply", BoolOpt(allowSendingWithoutReply), j);
        LastSetOther(w15, "reply_markup", StrOpt(inlineKeyboardMarkup), j);
        LastSetOther(w16, "reply_markup", StrOpt(replyKeyboardMarkup), j);
        LastSetOther(w17, "reply_markup", StrOpt(replyKeyboardRemove), j);
        LastSetOther(w18, "reply_markup", StrOpt(forceReply), j);
        WrittenLastSet(w19, j);
      }
    }

    /** The request `Do` builds before it calls the API: the endpoint, and a query made
        by the `setParam` calls of `Plan`. */
    method Assemble() returns (r: Request)
      ensures fresh(r)
      ensures r.Fields() == RequestFields(MethodGet, "/sendAnimation", Written(Plan()), None, None, None, "", [])
    {
      r := new Request(MethodGet, "/sendAnimation");
      ghost var done := NoWrites;
      var _ := r.SetParamIfSet("chat_id", IntOpt(chatID), done);
      done := Then(done, "chat_id", IntOpt(chatID));
      var _ := r.SetParamIfSet("animation", FileOpt(animation), done);
      done := Then(done, "animation", FileOpt(animation));
      var _ := r.SetParamIfSet("animation", StrOpt(animationString), done);
      done := Then(done, "animation", StrOpt(animationString));
      var _ := r.SetParamIfSet("duration", IntOpt(duration), done);
      done := Then(done, "duration", IntOpt(duration));
      var _ := r.SetParamIfSet("width", IntOpt(width), done);
      done := Then(done, "width", IntOpt(width));
      var _ := r.SetParamIfSet("height", IntOpt(height), done);
      done := Then(done, "height", IntOpt(height));
      var _ := r.SetParamIfSet("message_thread_id", IntOpt(messageThreadID), done);
      done := Then(done, "message_thread_id", IntOpt(messageThreadID));
      var _ := r.SetParamIfSet("parse_mode", StrOpt(parseMode), done);
      done := Then(done, "parse_mode", StrOpt(parseMode));
      var _ := r.SetParamIfSet("caption_entities", StrOpt(captionEntities), done);
      done := Then(done, "caption_entities", StrOpt(captionEntities));
      var _ := r.SetParamIfSet("caption", StrOpt(caption), done);
      done := Then(done, "caption", StrOpt(caption));
      var _ := r.SetParamIfSet("disable_notification", BoolOpt(disableNotification), done);
      done := Then(done, "disable_notification", BoolOpt(disableNotification));
      var _ := r.SetParamIfSet("protect_content", BoolOpt(protectContent), done);
      done := Then(done, "protect_content", BoolOpt(protectContent));
      var _ := r.SetParamIfSet("reply_to_message_id", IntOpt(replyToMessageID), done);
      done := Then(done, "reply_to_message_id", IntOpt(replyToMessageID));
      var _ := r.SetParamIfSet("supports_streaming", BoolOpt(supportsStreaming), done);
      done := Then(done, "supports_streaming", BoolOpt(supportsStreaming));
      var _ := r.SetParamIfSet("allow_sending_without_reply", BoolOpt(allowSendingWithoutReply), done);
      done := Then(done, "allow_sending_without_reply", BoolOpt(allowSendingWithoutReply));
      var _ := r.SetParamIfSet("reply_markup", StrOpt(inlineKeyboardMarkup), done);
      done := Then(done, "reply_markup", StrOpt(inlineKeyboardMarkup));
      var _ := r.SetParamIfSet("reply_markup", StrOpt(replyKeyboardMarkup), done);
      done := Then(done, "reply_markup", StrOpt(replyKeyboardMarkup));
      var _ := r.SetParamIfSet("reply_markup", StrOpt(replyKeyboardRemove), done);
      done := Then(done, "reply_markup", StrOpt(replyKeyboardRemove));
      var _ := r.SetParamIfSet("reply_markup", StrOpt(forceReply), done);
      done := Then(done, "reply_markup", StrOpt(forceReply));
      assert done == Plan();
    }

    /** `Do`: Always sets `chat_id`; sets each of the other keys only when its field is set; then calls the API. */
    method Do(opts: seq<RequestOption>) returns (assembled: RequestFields, res: Option<Bytes>, err: Option<Error>)
      requires chatID.Some?
      ensures assembled.httpMethod == MethodGet && assembled.endpoint == "/sendAnimation"
      ensures assembled.form == None && assembled.header == None && assembled.body == None
      ensures assembled.fullURL == "" && assembled.json == []
      ensures Holds(Q(assembled), "chat_id", Int(chatID.value as int))
      ensures HoldsIfSet(Q(assembled), "animation", Later(FileOpt(animation), StrOpt(animationString)))
      ensures HoldsIfSet(Q(assembled), "duration", IntOpt(duration))
      ensures HoldsIfSet(Q(assembled), "width", IntOpt(width))
      ensures HoldsIfSet(Q(assembled), "height", IntOpt(height))
      ensures HoldsIfSet(Q(assembled), "message_thread_id", IntOpt(messageThreadID))
      ensures HoldsIfSet(Q(assembled), "parse_mode", StrOpt(parseMode))
      ensures HoldsIfSet(Q(assembled), "caption_entities", StrOpt(captionEntities))
      ensures HoldsIfSet(Q(assembled), "caption", StrOpt(caption))
      ensures HoldsIfSet(Q(assembled), "disable_notification", BoolOpt(disableNotification))
      ensures HoldsIfSet(Q(assembled), "protect_content", BoolOpt(protectContent))
      ensures HoldsIfSet(Q(assembled), "reply_to_message_id", IntOpt(replyToMessageID))
      ensures HoldsIfSet(Q(assembled), "supports_streaming", BoolOpt(supportsStreaming))
      ensures HoldsIfSet(Q(assembled), "allow_sending_without_reply", BoolOpt(allowSendingWithoutReply))
      ensures HoldsIfSet(Q(assembled), "reply_markup", Later(Later(Later(StrOpt(inlineKeyboardMarkup), StrOpt(replyKeyboardMarkup)), StrOpt(replyKeyboardRemove)), StrOpt(forceReply)))
      ensures Q(assembled).Keys <= {"chat_id", "animation", "duration", "width", "height", "message_thread_id", "parse_mode", "caption_entities", "caption", "disable_notification", "protect_content", "reply_to_message_id", "supports_streaming", "allow_sending_without_reply", "reply_markup"}
      ensures caption == None ==> "caption" !in Q(assembled)
      ensures var o := c.Outcome(assembled, opts);
        err == o.1 && res == (if o.1.Some? then None else o.0)
    {
      var r := Assemble();
      assembled := r.Fields();
      var data, e := c.CallAPI(r, opts);
      PlanOnly();
      PlanChatID();
      PlanAnimation();
      PlanDuration();
      PlanWidth();
      PlanHeight();
      PlanMessageThreadID();
      PlanParseMode();
      PlanCaptionEntities();
      PlanCaption();
      PlanDisableNotification();
      PlanProtectContent();
      PlanReplyToMessageID();
      PlanSupportsStreaming();
      PlanAllowSendingWithoutReply();
      PlanReplyMarkup();
      if e.Some? {
        return assembled, None, e;
      }
      res, err := data, None;
    }
  }

  /** `SendVoiceService`: a GET request to `/sendVoice`. */
  class SendVoiceService {
    const c: Client
    var chatID: Option<int64>
    var messageThreadID: Option<int64>
    var voice: Option<InputFile>
    var voiceString: Option<string>
    var caption: Option<string>
    var parseMode: Option<string>
    var captionEntities: Option<string>
    var duration: Option<int64>
    var disableNotification: Option<bool>
    var protectContent: Option<bool>
    var replyToMessageID: Option<int64>
    var allowSendingWithoutReply: Option<bool>
    var inlineKeyboardMarkup: Option<string>
    var replyKeyboardMarkup: Option<string>
    var replyKeyboardRemove: Option<string>
    var forceReply: Option<string>

    /** `NewSendVoiceService`: every field starts out unset. */
    constructor (c: Client)
      ensures this.c == c
      ensures chatID == None && messageThreadID == None && voice == None
      ensures voiceString == None && caption == None && parseMode == None
      ensures captionEntities == None && duration == None && disableNotification == None
      ensures protectContent == None && replyToMessageID == None && allowSendingWithoutReply == None
      ensures inlineKeyboardMarkup == None && replyKeyboardMarkup == None && replyKeyboardRemove == None
      ensures forceReply == None
    {
      this.c := c;
      chatID := None;
      messageThreadID := None;
      voice := None;
      voiceString := None;
      caption := None;
      parseMode := None;
      captionEntities := None;
      duration := None;
      disableNotification := None;
      protectContent := None;
      replyToMessageID := None;
      allowSendingWithoutReply := None;
      inlineKeyboardMarkup := None;
      replyKeyboardMarkup := None;
      replyKeyboardRemove := None;
      forceReply := None;
    }

    /** `ChatID`: stores its argument in `chatID`. */
    method ChatID(chatID: int64) returns (t: SendVoiceService)
      modifies this`chatID
      ensures this.chatID == Some(chatID) && t == this
    {
      this.chatID := Some(chatID);
      t := this;
    }

    /** `MessageThreadID`: stores its argument in `messageThreadID`. */
    method MessageThreadID(messageThreadID: int64) returns (t: SendVoiceService)
      modifies this`messageThreadID
      ensures this.messageThreadID == Some(messageThreadID) && t == this
    {
      this.messageThreadID := Some(messageThreadID);
      t := this;
    }

    /** `ParseMode`: stores its argument in `parseMode`. */
    method ParseMode(parseMode: string) returns (t: SendVoiceService)
      modifies this`parseMode
      ensures this.parseMode == Some(parseMode) && t == this
    {
      this.parseMode := Some(parseMode);
      t := this;
    }

    /** `CaptionEntities`: stores the JSON text of its argument in `captionEntities`. `marshalled` is what
        `jsoniter.Marshal` makes of the argument, `None` when marshalling fails; then
        nothing changes and the result is nil. */
    method CaptionEntities(marshalled: Option<string>) returns (t: SendVoiceService?)
      modifies this`captionEntities
      ensures marshalled.None? ==> t == null && captionEntities == old(captionEntities)
      ensures marshalled.Some? ==> t == this && captionEntities == marshalled
    {
      if marshalled.None? {
        return null;
      }
      captionEntities := marshalled;
      t := this;
    }

    /** `Voice`: stores its argument in `voice`. */
    method Voice(voice: InputFile) returns (t: SendVoiceService)
      modifies this`voice
      ensures this.voice == Some(voice) && t == this
    {
      this.voice := Some(voice);
      t := this;
    }

    /** `VoiceString`: stores its argument in `voiceString`. */
    method VoiceString(voiceString: string) returns (t: SendVoiceService)
      modifies this`voiceString
      ensures this.voiceString == Some(voiceString) && t == this
    {
      this.voiceString := Some(voiceString);
      t := this;
    }

    /** `Duration`: stores its argument in `duration`. */
    method Duration(duration: int64) returns (t: SendVoiceService)
      modifies this`duration
      ensures this.duration == Some(duration) && t == this
    {
      this.duration := Some(duration);
      t := this;
    }

    /** `DisableNotification`: stores its argument in `disableNotification`. */
    method DisableNotification(disableNotification: bool) returns (t: SendVoiceService)
      modifies this`disableNotification
      ensures this.disableNotification == Some(disableNotification) && t == this
    {
      this.disableNotification := Some(disableNotification);
      t := this;
    }

    /** `ProtectContent`: stores its argument in `protectContent`. */
    method ProtectContent(protectContent: bool) returns (t: SendVoiceService)
      modifies this`protectContent
      ensures this.protectContent == Some(protectContent) && t == this
    {
      this.protectContent := Some(protectContent);
      t := this;
    }

    /** `ReplyToMessageID`: stores its argument in `replyToMessageID`. */
    method ReplyToMessageID(replyToMessageID: int64) returns (t: SendVoiceService)
      modifies this`replyToMessageID
      ensures this.replyToMessageID == Some(replyToMessageID) && t == this
    {
      this.replyToMessageID := Some(replyToMessageID);
      t := this;
    }

    /** `AllowSendingWithoutReply`: stores its argument in `allowSendingWithoutReply`. */
    method AllowSendingWithoutReply(allowSendingWithoutReply: bool) returns (t: SendVoiceService)
      modifies this`allowSendingWithoutReply
      ensures this.allowSendingWithoutReply == Some(allowSendingWithoutReply) && t == this
    {
      this.allowSendingWithoutReply := Some(allowSendingWithoutReply);
      t := this;
    }

    /** `InlineKeyboardMarkup`: stores the JSON text of its argument in `inlineKeyboardMarkup`. `marshalled` is what
        `jsoniter.Marshal` makes of the argument, `None` when marshalling fails; then
        nothing changes and the result is nil. */
    method InlineKeyboardMarkup(marshalled: Option<string>) returns (t: SendVoiceService?)
      modifies this`inlineKeyboardMarkup
      ensures marshalled.None? ==> t == null && inlineKeyboardMarkup == old(inlineKeyboardMarkup)
      ensures marshalled.Some? ==> t == this && inlineKeyboardMarkup == marshalled
    {
      if marshalled.None? {
        return null;
      }
      inlineKeyboardMarkup := marshalled;
      t := this;
    }

    /** `ReplyKeyboardMarkup`: stores the JSON text of its argument in `replyKeyboardMarkup`. `marshalled` is what
        `jsoniter.Marshal` makes of the argument, `None` when marshalling fails; then
        nothing changes and the result is nil. */
    method ReplyKeyboardMarkup(marshalled: Option<string>) returns (t: SendVoiceService?)
      modifies this`replyKeyboardMarkup
      ensures marshalled.None? ==> t == null && replyKeyboardMarkup == old(replyKeyboardMarkup)
      ensures marshalled.Some? ==> t == this && replyKeyboardMarkup == marshalled
    {
      if marshalled.None? {
        return null;
      }
      replyKeyboardMarkup := marshalled;
      t := this;
    }

    /** `ReplyKeyboardRemove`: stores the JSON text of its argument in `replyKeyboardRemove`. `marshalled` is what
        `jsoniter.Marshal` makes of the argument, `None` when marshalling fails; then
        nothing changes and the result is nil. */
    method ReplyKeyboardRemove(marshalled: Option<string>) returns (t: SendVoiceService?)
      modifies this`replyKeyboardRemove
      ensures marshalled.None? ==> t == null && replyKeyboardRemove == old(replyKeyboardRemove)
      ensures marshalled.Some? ==> t == this && replyKeyboardRemove == marshalled
    {
      if marshalled.None? {
        return null;
      }
      replyKeyboardRemove := marshalled;
      t := this;
    }

    /** `ForceReply`: stores the JSON text of its argument in `forceReply`. `marshalled` is what
        `jsoniter.Marshal` makes of the argument, `None` when marshalling fails; then
        nothing changes and the result is nil. */
    method ForceReply(marshalled: Option<string>) returns (t: SendVoiceService?)
      modifies this`forceReply
      ensures marshalled.None? ==> t == null && forceReply == old(forceReply)
      ensures marshalled.Some? ==> t == this && forceReply == marshalled
    {
      if marshalled.None? {
        return null;
      }
      forceReply := marshalled;
      t := this;
    }

    /** The `setParam` calls `Do` makes, in order; a call that is skipped because its
        field is unset has value `None`. */
    ghost function Plan(): Writes
      reads this
    {
      var w1 := Then(NoWrites, "chat_id", IntOpt(chatID));
      var w2 := Then(w1, "voice", FileOpt(voice));
      var w3 := Then(w2, "voice", StrOpt(voiceString));
      var w4 := Then(w3, "duration", IntOpt(duration));
      var w5 := Then(w4, "message_thread_id", IntOpt(messageThreadID));
      var w6 := Then(w5, "parse_mode", StrOpt(parseMode));
      var w7 := Then(w6, "caption_entities", StrOpt(captionEntities));
      var w8 := Then(w7, "caption", StrOpt(caption));
      var w9 := Then(w8, "disable_notification", BoolOpt(disableNotification));
      var w10 := Then(w9, "protect_content", BoolOpt(protectContent));
      var w11 := Then(w10, "reply_to_message_id", IntOpt(replyToMessageID));
      var w12 := Then(w11, "allow_sending_without_reply", BoolOpt(allowSendingWithoutReply));
      var w13 := Then(w12, "reply_markup", StrOpt(inlineKeyboardMarkup));
      var w14 := Then(w13, "reply_markup", StrOpt(replyKeyboardMarkup));
      var w15 := Then(w14, "reply_markup", StrOpt(replyKeyboardRemove));
      var w16 := Then(w15, "reply_markup", StrOpt(forceReply));
      w16
    }

    /** The value the calls leave at `chat_id`. */
    lemma PlanChatID()
      ensures HoldsIfSet(OrEmpty(Written(Plan())), "chat_id", IntOpt(chatID))
    {
      var w0 := NoWrites;
      var w1 := Then(w0, "chat_id", IntOpt(chatID));
      var w2 := Then(w1, "voice", FileOpt(voice));
      var w3 := Then(w2, "voice", StrOpt(voiceString));
      var w4 := Then(w3, "duration", IntOpt(duration));
      var w5 := Then(w4, "message_thread_id", IntOpt(messageThreadID));
      var w6 := Then(w5, "parse_mode", StrOpt(parseMode));
      var w7 := Then(w6, "caption_entities", StrOpt(captionEntities));
      var w8 := Then(w7, "caption", StrOpt(caption));
      var w9 := Then(w8, "disable_notification", BoolOpt(disableNotification));
      var w10 := Then(w9, "protect_content", BoolOpt(protectContent));
      var w11 := Then(w10, "reply_to_message_id", IntOpt(replyToMessageID));
      var w12 := Then(w11, "allow_sending_without_reply", BoolOpt(allowSendingWithoutReply));
      var w13 := Then(w12, "reply_markup", StrOpt(inlineKeyboardMarkup));
      var w14 := Then(w13, "reply_markup", StrOpt(replyKeyboardMarkup));
      var w15 := Then(w14, "reply_markup", StrOpt(replyKeyboardRemove));
      var w16 := Then(w15, "reply_markup", StrOpt(forceReply));
      LastSetOther(w1, "voice", FileOpt(voice), "chat_id");
      LastSetOther(w2, "voice", StrOpt(voiceString), "chat_id");
      LastSetOther(w3, "duration", IntOpt(duration), "chat_id");
      LastSetOther(w4, "message_thread_id", IntOpt(messageThreadID), "chat_id");
      LastSetOther(w5, "parse_mode", StrOpt(parseMode), "chat_id");
      LastSetOther(w6, "caption_entities", StrOpt(captionEntities), "chat_id");
      LastSetOther(w7, "caption", StrOpt(caption), "chat_id");
      LastSetOther(w8, "disable_notification", BoolOpt(disableNotification), "chat_id");
      LastSetOther(w9, "protect_content", BoolOpt(protectContent), "chat_id");
      LastSetOther(w10, "reply_to_message_id", IntOpt(replyToMessageID), "chat_id");
      LastSetOther(w11, "allow_sending_without_reply", BoolOpt(allowSendingWithoutReply), "chat_id");
      LastSetOther(w12, "reply_markup", StrOpt(inlineKeyboardMarkup), "chat_id");
      LastSetOther(w13, "reply_markup", StrOpt(replyKeyboardMarkup), "chat_id");
      LastSetOther(w14, "reply_markup", StrOpt(replyKeyboardRemove), "chat_id");
      LastSetOther(w15, "reply_markup", StrOpt(forceReply), "chat_id");
      WrittenLastSet(w16, "chat_id");
    }

    /** The value the calls leave at `voice`: the last one set. */
    lemma PlanVoice()
      ensures HoldsIfSet(OrEmpty(Written(Plan())), "voice", Later(FileOpt(voice), StrOpt(voiceString)))
    {
      var w0 := NoWrites;
      var w1 := Then(w0, "chat_id", IntOpt(chatID));
      var w2 := Then(w1, "voice", FileOpt(voice));
      var w3 := Then(w2, "voice", StrOpt(voiceString));
      var w4 := Then(w3, "duration", IntOpt(duration));
      var w5 := Then(w4, "message_thread_id", IntOpt(messageThreadID));
      var w6 := Then(w5, "parse_mode", StrOpt(parseMode));
      var w7 := Then(w6, "caption_entities", StrOpt(captionEntities));
      var w8 := Then(w7, "caption", StrOpt(caption));
      var w9 := Then(w8, "disable_notification", BoolOpt(disableNotification));
      var w10 := Then(w9, "protect_content", BoolOpt(protectContent));
      var w11 := Then(w10, "reply_to_message_id", IntOpt(replyToMessageID));
      var w12 := Then(w11, "allow_sending_without_reply", BoolOpt(allowSendingWithoutReply));
      var w13 := Then(w12, "reply_markup", StrOpt(inlineKeyboardMarkup));
      var w14 := Then(w13, "reply_markup", StrOpt(replyKeyboardMarkup));
      var w15 := Then(w14, "reply_markup", StrOpt(replyKeyboardRemove));
      var w16 := Then(w15, "reply_markup", StrOpt(forceReply));
      LastSetOther(w0, "chat_id", IntOpt(chatID), "voice");
      LastSetSame(w1, "voice", FileOpt(voice));
      LastSetSame(w2, "voice", StrOpt(voiceString));
      LastSetOther(w3, "duration", IntOpt(duration), "voice");
      LastSetOther(w4, "message_thread_id", IntOpt(messageThreadID), "voice");
      LastSetOther(w5, "parse_mode", StrOpt(parseMode), "voice");
      LastSetOther(w6, "caption_entities", StrOpt(captionEntities), "voice");
      LastSetOther(w7, "caption", StrOpt(caption), "voice");
      LastSetOther(w8, "disable_notification", BoolOpt(disableNotification), "voice");
      LastSetOther(w9, "protect_content", BoolOpt(protectContent), "voice");
      LastSetOther(w10, "reply_to_message_id", IntOpt(replyToMessageID), "voice");
      LastSetOther(w11, "allow_sending_without_reply", BoolOpt(allowSendingWithoutReply), "voice");
      LastSetOther(w12, "reply_markup", StrOpt(inlineKeyboardMarkup), "voice");
      LastSetOther(w13, "reply_markup", StrOpt(replyKeyboardMarkup), "voice");
      LastSetOther(w14, "reply_markup", StrOpt(replyKeyboardRemove), "voice");
      LastSetOther(w15, "reply_markup", StrOpt(forceReply), "voice");
      WrittenLastSet(w16, "voice");
    }

    /** The value the calls leave at `duration`. */
    lemma PlanDuration()
      ensures HoldsIfSet(OrEmpty(Written(Plan())), "duration", IntOpt(duration))
    {
      var w0 := NoWrites;
      var w1 := Then(w0, "chat_id", IntOpt(chatID));
      var w2 := Then(w1, "voice", FileOpt(voice));
      var w3 := Then(w2, "voice", StrOpt(voiceString));
      var w4 := Then(w3, "duration", IntOpt(duration));
      var w5 := Then(w4, "message_thread_id", IntOpt(messageThreadID));
      var w6 := Then(w5, "parse_mode", StrOpt(parseMode));
      var w7 := Then(w6, "caption_entities", StrOpt(captionEntities));
      var w8 := Then(w7, "caption", StrOpt(caption));
      var w9 := Then(w8, "disable_notification", BoolOpt(disableNotification));
      var w10 := Then(w9, "protect_content", BoolOpt(protectContent));
      var w11 := Then(w10, "reply_to_message_id", IntOpt(replyToMessageID));
      var w12 := Then(w11, "allow_sending_without_reply", BoolOpt(allowSendingWithoutReply));
      var w13 := Then(w12, "reply_markup", StrOpt(inlineKeyboardMarkup));
      var w14 := Then(w13, "reply_markup", StrOpt(replyKeyboardMarkup));
      var w15 := Then(w14, "reply_markup", StrOpt(replyKeyboardRemove));
      var w16 := Then(w15, "reply_markup", StrOpt(forceReply));
      LastSetOther(w0, "chat_id", IntOpt(chatID), "duration");
      LastSetOther(w1, "voice", FileOpt(voice), "duration");
      LastSetOther(w2, "voice", StrOpt(voiceString), "duration");
      LastSetOther(w4, "message_thread_id", IntOpt(messageThreadID), "duration");
      LastSetOther(w5, "parse_mode", StrOpt(parseMode), "duration");
      LastSetOther(w6, "caption_entities", StrOpt(captionEntities), "duration");
      LastSetOther(w7, "caption", StrOpt(caption), "duration");
      LastSetOther(w8, "disable_notification", BoolOpt(disableNotification), "duration");
      LastSetOther(w9, "protect_content", BoolOpt(protectContent), "duration");
      LastSetOther(w10, "reply_to_message_id", IntOpt(replyToMessageID), "duration");
      LastSetOther(w11, "allow_sending_without_reply", BoolOpt(allowSendingWithoutReply), "duration");
      LastSetOther(w12, "reply_markup", StrOpt(inlineKeyboardMarkup), "duration");
      LastSetOther(w13, "reply_markup", StrOpt(replyKeyboardMarkup), "duration");
      LastSetOther(w14, "reply_markup", StrOpt(replyKeyboardRemove), "duration");
      LastSetOther(w15, "reply_markup", StrOpt(forceReply), "duration");
      WrittenLastSet(w16, "duration");
    }

    /** The value the calls leave at `message_thread_id`. */
    lemma PlanMessageThreadID()
      ensures HoldsIfSet(OrEmpty(Written(Plan())), "message_thread_id", IntOpt(messageThreadID))
    {
      var w0 := NoWrites;
      var w1 := Then(w0, "chat_id", IntOpt(chatID));
      var w2 := Then(w1, "voice", FileOpt(voice));
      var w3 := Then(w2, "voice", StrOpt(voiceString));
      var w4 := Then(w3, "duration", IntOpt(duration));
      var w5 := Then(w4, "message_thread_id", IntOpt(messageThreadID));
      var w6 := Then(w5, "parse_mode", StrOpt(parseMode));
      var w7 := Then(w6, "caption_entities", StrOpt(captionEntities));
      var w8 := Then(w7, "caption", StrOpt(caption));
      var w9 := Then(w8, "disable_notification", BoolOpt(disableNotification));
      var w10 := Then(w9, "protect_content", BoolOpt(protectContent));
      var w11 := Then(w10, "reply_to_message_id", IntOpt(replyToMessageID));
      var w12 := Then(w11, "allow_sending_without_reply", BoolOpt(allowSendingWithoutReply));
      var w13 := Then(w12, "reply_markup", StrOpt(inlineKeyboardMarkup));
      var w14 := Then(w13, "reply_markup", StrOpt(replyKeyboardMarkup));
      var w15 := Then(w14, "reply_markup", StrOpt(replyKeyboardRemove));
      var w16 := Then(w15, "reply_markup", StrOpt(forceReply));
      LastSetOther(w0, "chat_id", IntOpt(chatID), "message_thread_id");
      LastSetOther(w1, "voice", FileOpt(voice), "message_thread_id");
      LastSetOther(w2, "voice", StrOpt(voiceString), "message_thread_id");
      LastSetOther(w3, "duration", IntOpt(duration), "message_thread_id");
      LastSetOther(w5, "parse_mode", StrOpt(parseMode), "message_thread_id");
      LastSetOther(w6, "caption_entities", StrOpt(captionEntities), "message_thread_id");
      LastSetOther(w7, "caption", StrOpt(caption), "message_thread_id");
      LastSetOther(w8, "disable_notification", BoolOpt(disableNotification), "message_thread_id");
      LastSetOther(w9, "protect_content", BoolOpt(protectContent), "message_thread_id");
      LastSetOther(w10, "reply_to_message_id", IntOpt(replyToMessageID), "message_thread_id");
      LastSetOther(w11, "allow_sending_without_reply", BoolOpt(allowSendingWithoutReply), "message_thread_id");
      LastSetOther(w12, "reply_markup", StrOpt(inlineKeyboardMarkup), "message_thread_id");
      LastSetOther(w13, "reply_markup", StrOpt(replyKeyboardMarkup), "message_thread_id");
      LastSetOther(w14, "reply_markup", StrOpt(replyKeyboardRemove), "message_thread_id");
      LastSetOther(w15, "reply_markup", StrOpt(forceReply), "message_thread_id");
      WrittenLastSet(w16, "message_thread_id");
    }

    /** The value the calls leave at `parse_mode`. */
    lemma PlanParseMode()
      ensures HoldsIfSet(OrEmpty(Written(Plan())), "parse_mode", StrOpt(parseMode))
    {
      var w0 := NoWrites;
      var w1 := Then(w0, "chat_id", IntOpt(chatID));
      var w2 := Then(w1, "voice", FileOpt(voice));
      var w3 := Then(w2, "voice", StrOpt(voiceString));
      var w4 := Then(w3, "duration", IntOpt(duration));
      var w5 := Then(w4, "message_thread_id", IntOpt(messageThreadID));
      var w6 := Then(w5, "parse_mode", StrOpt(parseMode));
      var w7 := Then(w6, "caption_entities", StrOpt(captionEntities));
      var w8 := Then(w7, "caption", StrOpt(caption));
      var w9 := Then(w8, "disable_notification", BoolOpt(disableNotification));
      var w10 := Then(w9, "protect_content", BoolOpt(protectContent));
      var w11 := Then(w10, "reply_to_message_id", IntOpt(replyToMessageID));
      var w12 := Then(w11, "allow_sending_without_reply", BoolOpt(allowSendingWithoutReply));
      var w13 := Then(w12, "reply_markup", StrOpt(inlineKeyboardMarkup));
      var w14 := Then(w13, "reply_markup", StrOpt(replyKeyboardMarkup));
      var w15 := Then(w14, "reply_markup", StrOpt(replyKeyboardRemove));
      var w16 := Then(w15, "reply_markup", StrOpt(forceReply));
      LastSetOther(w0, "chat_id", IntOpt(chatID), "parse_mode");
      LastSetOther(w1, "voice", FileOpt(voice), "parse_mode");
      LastSetOther(w2, "voice", StrOpt(voiceString), "parse_mode");
      LastSetOther(w3, "duration", IntOpt(duration), "parse_mode");
      LastSetOther(w4, "message_thread_id", IntOpt(messageThreadID), "parse_mode");
      LastSetOther(w6, "caption_entities", StrOpt(captionEntities), "parse_mode");
      LastSetOther(w7, "caption", StrOpt(caption), "parse_mode");
      LastSetOther(w8, "disable_notification", BoolOpt(disableNotification), "parse_mode");
      LastSetOther(w9, "protect_content", BoolOpt(protectContent), "parse_mode");
      LastSetOther(w10, "reply_to_message_id", IntOpt(replyToMessageID), "parse_mode");
      LastSetOther(w11, "allow_sending_without_reply", BoolOpt(allowSendingWithoutReply), "parse_mode");
      LastSetOther(w12, "reply_markup", StrOpt(inlineKeyboardMarkup), "parse_mode");
      LastSetOther(w13, "reply_markup", StrOpt(replyKeyboardMarkup), "parse_mode");
      LastSetOther(w14, "reply_markup", StrOpt(replyKeyboardRemove), "parse_mode");
      LastSetOther(w15, "reply_markup", StrOpt(forceReply), "parse_mode");
      WrittenLastSet(w16, "parse_mode");
    }

    /** The value the calls leave at `caption_entities`. */
    lemma PlanCaptionEntities()
      ensures HoldsIfSet(OrEmpty(Written(Plan())), "caption_entities", StrOpt(captionEntities))
    {
      var w0 := NoWrites;
      var w1 := Then(w0, "chat_id", IntOpt(chatID));
      var w2 := Then(w1, "voice", FileOpt(voice));
      var w3 := Then(w2, "voice", StrOpt(voiceString));
      var w4 := Then(w3, "duration", IntOpt(duration));
      var w5 := Then(w4, "message_thread_id", IntOpt(messageThreadID));
      var w6 := Then(w5, "parse_mode", StrOpt(parseMode));
      var w7 := Then(w6, "caption_entities", StrOpt(captionEntities));
      var w8 := Then(w7, "caption", StrOpt(caption));
      var w9 := Then(w8, "disable_notification", BoolOpt(disableNotification));
      var w10 := Then(w9, "protect_content", BoolOpt(protectContent));
      var w11 := Then(w10, "reply_to_message_id", IntOpt(replyToMessageID));
      var w12 := Then(w11, "allow_sending_without_reply", BoolOpt(allowSendingWithoutReply));
      var w13 := Then(w12, "reply_markup", StrOpt(inlineKeyboardMarkup));
      var w14 := Then(w13, "reply_markup", StrOpt(replyKeyboardMarkup));
      var w15 := Then(w14, "reply_markup", StrOpt(replyKeyboardRemove));
      var w16 := Then(w15, "reply_markup", StrOpt(forceReply));
      LastSetOther(w0, "chat_id", IntOpt(chatID), "caption_entities");
      LastSetOther(w1, "voice", FileOpt(voice), "caption_entities");
      LastSetOther(w2, "voice", StrOpt(voiceString), "caption_entities");
      LastSetOther(w3, "duration", IntOpt(duration), "caption_entities");
      LastSetOther(w4, "message_thread_id", IntOpt(messageThreadID), "caption_entities");
      LastSetOther(w5, "parse_mode", StrOpt(parseMode), "caption_entities");
      LastSetOther(w7, "caption", StrOpt(caption), "caption_entities");
      LastSetOther(w8, "disable_notification", BoolOpt(disableNotification), "caption_entities");
      LastSetOther(w9, "protect_content", BoolOpt(protectContent), "caption_entities");
      LastSetOther(w10, "reply_to_message_id", IntOpt(replyToMessageID), "caption_entities");
      LastSetOther(w11, "allow_sending_without_reply", BoolOpt(allowSendingWithoutReply), "caption_entities");
      LastSetOther(w12, "reply_markup", StrOpt(inlineKeyboardMarkup), "caption_entities");
      LastSetOther(w13, "reply_markup", StrOpt(replyKeyboardMarkup), "caption_entities");
      LastSetOther(w14, "reply_markup", StrOpt(replyKeyboardRemove), "caption_entities");
      LastSetOther(w15, "reply_markup", StrOpt(forceReply), "caption_entities");
      WrittenLastSet(w16, "caption_entities");
    }

    /** The value the calls leave at `caption`. */
    lemma PlanCaption()
      ensures HoldsIfSet(OrEmpty(Written(Plan())), "caption", StrOpt(caption))
    {
      var w0 := NoWrites;
      var w1 := Then(w0, "chat_id", IntOpt(chatID));
      var w2 := Then(w1, "voice", FileOpt(voice));
      var w3 := Then(w2, "voice", StrOpt(voiceString));
      var w4 := Then(w3, "duration", IntOpt(duration));
      var w5 := Then(w4, "message_thread_id", IntOpt(messageThreadID));
      var w6 := Then(w5, "parse_mode", StrOpt(parseMode));
      var w7 := Then(w6, "caption_entities", StrOpt(captionEntities));
      var w8 := Then(w7, "caption", StrOpt(caption));
      var w9 := Then(w8, "disable_notification", BoolOpt(disableNotification));
      var w10 := Then(w9, "protect_content", BoolOpt(protectContent));
      var w11 := Then(w10, "reply_to_message_id", IntOpt(replyToMessageID));
      var w12 := Then(w11, "allow_sending_without_reply", BoolOpt(allowSendingWithoutReply));
      var w13 := Then(w12, "reply_markup", StrOpt(inlineKeyboardMarkup));
      var w14 := Then(w13, "reply_markup", StrOpt(replyKeyboardMarkup));
      var w15 := Then(w14, "reply_markup", StrOpt(replyKeyboardRemove));
      var w16 := Then(w15, "reply_markup", StrOpt(forceReply));
      LastSetOther(w0, "chat_id", IntOpt(chatID), "caption");
      LastSetOther(w1, "voice", FileOpt(voice), "caption");
      LastSetOther(w2, "voice", StrOpt(voiceString), "caption");
      LastSetOther(w3, "duration", IntOpt(duration), "caption");
      LastSetOther(w4, "message_thread_id", IntOpt(messageThreadID), "caption");
      LastSetOther(w5, "parse_mode", StrOpt(parseMode), "caption");
      LastSetOther(w6, "caption_entities", StrOpt(captionEntities), "caption");
      LastSetOther(w8, "disable_notification", BoolOpt(disableNotification), "caption");
      LastSetOther(w9, "protect_content", BoolOpt(protectContent), "caption");
      LastSetOther(w10, "reply_to_message_id", IntOpt(replyToMessageID), "caption");
      LastSetOther(w11, "allow_sending_without_reply", BoolOpt(allowSendingWithoutReply), "caption");
      LastSetOther(w12, "reply_markup", StrOpt(inlineKeyboardMarkup), "caption");
      LastSetOther(w13, "reply_markup", StrOpt(replyKeyboardMarkup), "caption");
      LastSetOther(w14, "reply_markup", StrOpt(replyKeyboardRemove), "caption");
      LastSetOther(w15, "reply_markup", StrOpt(forceReply), "caption");
      WrittenLastSet(w16, "caption");
    }

    /** The value the calls leave at `disable_notification`. */
    lemma PlanDisableNotification()
      ensures HoldsIfSet(OrEmpty(Written(Plan())), "disable_notification", BoolOpt(disableNotification))
    {
      var w0 := NoWrites;
      var w1 := Then(w0, "chat_id", IntOpt(chatID));
      var w2 := Then(w1, "voice", FileOpt(voice));
      var w3 := Then(w2, "voice", StrOpt(voiceString));
      var w4 := Then(w3, "duration", IntOpt(duration));
      var w5 := Then(w4, "message_thread_id", IntOpt(messageThreadID));
      var w6 := Then(w5, "parse_mode", StrOpt(parseMode));
      var w7 := Then(w6, "caption_entities", StrOpt(captionEntities));
      var w8 := Then(w7, "caption", StrOpt(caption));
      var w9 := Then(w8, "disable_notification", BoolOpt(disableNotification));
      var w10 := Then(w9, "protect_content", BoolOpt(protectContent));
      var w11 := Then(w10, "reply_to_message_id", IntOpt(replyToMessageID));
      var w12 := Then(w11, "allow_sending_without_reply", BoolOpt(allowSendingWithoutReply));
      var w13 := Then(w12, "reply_markup", StrOpt(inlineKeyboardMarkup));
      var w14 := Then(w13, "reply_markup", StrOpt(replyKeyboardMarkup));
      var w15 := Then(w14, "reply_markup", StrOpt(replyKeyboardRemove));
      var w16 := Then(w15, "reply_markup", StrOpt(forceReply));
      LastSetOther(w0, "chat_id", IntOpt(chatID), "disable_notification");
      LastSetOther(w1, "voice", FileOpt(voice), "disable_notification");
      LastSetOther(w2, "voice", StrOpt(voiceString), "disable_notification");
      LastSetOther(w3, "duration", IntOpt(duration), "disable_notification");
      LastSetOther(w4, "message_thread_id", IntOpt(messageThreadID), "disable_notification");
      LastSetOther(w5, "parse_mode", StrOpt(parseMode), "disable_notification");
      LastSetOther(w6, "caption_entities", StrOpt(captionEntities), "disable_notification");
      LastSetOther(w7, "caption", StrOpt(caption), "disable_notification");
      LastSetOther(w9, "protect_content", BoolOpt(protectContent), "disable_notification");
      LastSetOther(w10, "reply_to_message_id", IntOpt(replyToMessageID), "disable_notification");
      LastSetOther(w11, "allow_sending_without_reply", BoolOpt(allowSendingWithoutReply), "disable_notification");
      LastSetOther(w12, "reply_markup", StrOpt(inlineKeyboardMarkup), "disable_notification");
      LastSetOther(w13, "reply_markup", StrOpt(replyKeyboardMarkup), "disable_notification");
      LastSetOther(w14, "reply_markup", StrOpt(replyKeyboardRemove), "disable_notification");
      LastSetOther(w15, "reply_markup", StrOpt(forceReply), "disable_notification");
      WrittenLastSet(w16, "disable_notification");
    }

    /** The value the calls leave at `protect_content`. */
    lemma PlanProtectContent()
      ensures HoldsIfSet(OrEmpty(Written(Plan())), "protect_content", BoolOpt(protectContent))
    {
      var w0 := NoWrites;
      var w1 := Then(w0, "chat_id", IntOpt(chatID));
      var w2 := Then(w1, "voice", FileOpt(voice));
      var w3 := Then(w2, "voice", StrOpt(voiceString));
      var w4 := Then(w3, "duration", IntOpt(duration));
      var w5 := Then(w4, "message_thread_id", IntOpt(messageThreadID));
      var w6 := Then(w5, "parse_mode", StrOpt(parseMode));
      var w7 := Then(w6, "caption_entities", StrOpt(captionEntities));
      var w8 := Then(w7, "caption", StrOpt(caption));
      var w9 := Then(w8, "disable_notification", BoolOpt(disableNotification));
      var w10 := Then(w9, "protect_content", BoolOpt(protectContent));
      var w11 := Then(w10, "reply_to_message_id", IntOpt(replyToMessageID));
      var w12 := Then(w11, "allow_sending_without_reply", BoolOpt(allowSendingWithoutReply));
      var w13 := Then(w12, "reply_markup", StrOpt(inlineKeyboardMarkup));
      var w14 := Then(w13, "reply_markup", StrOpt(replyKeyboardMarkup));
      var w15 := Then(w14, "reply_markup", StrOpt(replyKeyboardRemove));
      var w16 := Then(w15, "reply_markup", StrOpt(forceReply));
      LastSetOther(w0, "chat_id", IntOpt(chatID), "protect_content");
      LastSetOther(w1, "voice", FileOpt(voice), "protect_content");
      LastSetOther(w2, "voice", StrOpt(voiceString), "protect_content");
      LastSetOther(w3, "duration", IntOpt(duration), "protect_content");
      LastSetOther(w4, "message_thread_id", IntOpt(messageThreadID), "protect_content");
      LastSetOther(w5, "parse_mode", StrOpt(parseMode), "protect_content");
      LastSetOther(w6, "caption_entities", StrOpt(captionEntities), "protect_content");
      LastSetOther(w7, "caption", StrOpt(caption), "protect_content");
      LastSetOther(w8, "disable_notification", BoolOpt(disableNotification), "protect_content");
      LastSetOther(w10, "reply_to_message_id", IntOpt(replyToMessageID), "protect_content");
      LastSetOther(w11, "allow_sending_without_reply", BoolOpt(allowSendingWithoutReply), "protect_content");
      LastSetOther(w12, "reply_markup", StrOpt(inlineKeyboardMarkup), "protect_content");
      LastSetOther(w13, "reply_markup", StrOpt(replyKeyboardMarkup), "protect_content");
      LastSetOther(w14, "reply_markup", StrOpt(replyKeyboardRemove), "protect_content");
      LastSetOther(w15, "reply_markup", StrOpt(forceReply), "protect_content");
      WrittenLastSet(w16, "protect_content");
    }

    /** The value the calls leave at `reply_to_message_id`. */
    lemma PlanReplyToMessageID()
      ensures HoldsIfSet(OrEmpty(Written(Plan())), "reply_to_message_id", IntOpt(replyToMessageID))
    {
      var w0 := NoWrites;
      var w1 := Then(w0, "chat_id", IntOpt(chatID));
      var w2 := Then(w1, "voice", FileOpt(voice));
      var w3 := Then(w2, "voice", StrOpt(voiceString));
      var w4 := Then(w3, "duration", IntOpt(duration));
      var w5 := Then(w4, "message_thread_id", IntOpt(messageThreadID));
      var w6 := Then(w5, "parse_mode", StrOpt(parseMode));
      var w7 := Then(w6, "caption_entities", StrOpt(captionEntities));
      var w8 := Then(w7, "caption", StrOpt(caption));
      var w9 := Then(w8, "disable_notification", BoolOpt(disableNotification));
      var w10 := Then(w9, "protect_content", BoolOpt(protectContent));
      var w11 := Then(w10, "reply_to_message_id", IntOpt(replyToMessageID));
      var w12 := Then(w11, "allow_sending_without_reply", BoolOpt(allowSendingWithoutReply));
      var w13 := Then(w12, "reply_markup", StrOpt(inlineKeyboardMarkup));
      var w14 := Then(w13, "reply_markup", StrOpt(replyKeyboardMarkup));
      var w15 := Then(w14, "reply_markup", StrOpt(replyKeyboardRemove));
      var w16 := Then(w15, "reply_markup", StrOpt(forceReply));
      LastSetOther(w0, "chat_id", IntOpt(chatID), "reply_to_message_id");
      LastSetOther(w1, "voice", FileOpt(voice), "reply_to_message_id");
      LastSetOther(w2, "voice", StrOpt(voiceString), "reply_to_message_id");
      LastSetOther(w3, "duration", IntOpt(duration), "reply_to_message_id");
      LastSetOther(w4, "message_thread_id", IntOpt(messageThreadID), "reply_to_message_id");
      LastSetOther(w5, "parse_mode", StrOpt(parseMode), "reply_to_message_id");
      LastSetOther(w6, "caption_entities", StrOpt(captionEntities), "reply_to_message_id");
      LastSetOther(w7, "caption", StrOpt(caption), "reply_to_message_id");
      LastSetOther(w8, "disable_notification", BoolOpt(disableNotification), "reply_to_message_id");
      LastSetOther(w9, "protect_content", BoolOpt(protectContent), "reply_to_message_id");
      LastSetOther(w11, "allow_sending_without_reply", BoolOpt(allowSendingWithoutReply), "reply_to_message_id");
      LastSetOther(w12, "reply_markup", StrOpt(inlineKeyboardMarkup), "reply_to_message_id");
      LastSetOther(w13, "reply_markup", StrOpt(replyKeyboardMarkup), "reply_to_message_id");
      LastSetOther(w14, "reply_markup", StrOpt(replyKeyboardRemove), "reply_to_message_id");
      LastSetOther(w15, "reply_markup", StrOpt(forceReply), "reply_to_message_id");
      WrittenLastSet(w16, "reply_to_message_id");
    }

    /** The value the calls leave at `allow_sending_without_reply`. */
    lemma PlanAllowSendingWithoutReply()
      ensures HoldsIfSet(OrEmpty(Written(Plan())), "allow_sending_without_reply", BoolOpt(allowSendingWithoutReply))
    {
      var w0 := NoWrites;
      var w1 := Then(w0, "chat_id", IntOpt(chatID));
      var w2 := Then(w1, "voice", FileOpt(voice));
      var w3 := Then(w2, "voice", StrOpt(voiceString));
      var w4 := Then(w3, "duration", IntOpt(duration));
      var w5 := Then(w4, "message_thread_id", IntOpt(messageThreadID));
      var w6 := Then(w5, "parse_mode", StrOpt(parseMode));
      var w7 := Then(w6, "caption_entities", StrOpt(captionEntities));
      var w8 := Then(w7, "caption", StrOpt(caption));
      var w9 := Then(w8, "disable_notification", BoolOpt(disableNotification));
      var w10 := Then(w9, "protect_content", BoolOpt(protectContent));
      var w11 := Then(w10, "reply_to_message_id", IntOpt(replyToMessageID));
      var w12 := Then(w11, "allow_sending_without_reply", BoolOpt(allowSendingWithoutReply));
      var w13 := Then(w12, "reply_markup", StrOpt(inlineKeyboardMarkup));
      var w14 := Then(w13, "reply_markup", StrOpt(replyKeyboardMarkup));
      var w15 := Then(w14, "reply_markup", StrOpt(replyKeyboardRemove));
      var w16 := Then(w15, "reply_markup", StrOpt(forceReply));
      LastSetOther(w0, "chat_id", IntOpt(chatID), "allow_sending_without_reply");
      LastSetOther(w1, "voice", FileOpt(voice), "allow_sending_without_reply");
      LastSetOther(w2, "voice", StrOpt(voiceString), "allow_sending_without_reply");
      LastSetOther(w3, "duration", IntOpt(duration), "allow_sending_without_reply");
      LastSetOther(w4, "message_thread_id", IntOpt(messageThreadID), "allow_sending_without_reply");
      LastSetOther(w5, "parse_mode", StrOpt(parseMode), "allow_sending_without_reply");
      LastSetOther(w6, "caption_entities", StrOpt(captionEntities), "allow_sending_without_reply");
      LastSetOther(w7, "caption", StrOpt(caption), "allow_sending_without_reply");
      LastSetOther(w8, "disable_notification", BoolOpt(disableNotification), "allow_sending_without_reply");
      LastSetOther(w9, "protect_content", BoolOpt(protectContent), "allow_sending_without_reply");
      LastSetOther(w10, "reply_to_message_id", IntOpt(replyToMessageID), "allow_sending_without_reply");
      LastSetOther(w12, "reply_markup", StrOpt(inlineKeyboardMarkup), "allow_sending_without_reply");
      LastSetOther(w13, "reply_markup", StrOpt(replyKeyboardMarkup), "allow_sending_without_reply");
      LastSetOther(w14, "reply_markup", StrOpt(replyKeyboardRemove), "allow_sending_without_reply");
      LastSetOther(w15, "reply_markup", StrOpt(forceReply), "allow_sending_without_reply");
      WrittenLastSet(w16, "allow_sending_without_reply");
    }

    /** The value the calls leave at `reply_markup`: the last one set. */
    lemma PlanReplyMarkup()
      ensures HoldsIfSet(OrEmpty(Written(Plan())), "reply_markup", Later(Later(Later(StrOpt(inlineKeyboardMarkup), StrOpt(replyKeyboardMarkup)), StrOpt(replyKeyboardRemove)), StrOpt(forceReply)))
    {
      var w0 := NoWrites;
      var w1 := Then(w0, "chat_id", IntOpt(chatID));
      var w2 := Then(w1, "voice", FileOpt(voice));
      var w3 := Then(w2, "voice", StrOpt(voiceString));
      var w4 := Then(w3, "duration", IntOpt(duration));
      var w5 := Then(w4, "message_thread_id", IntOpt(messageThreadID));
      var w6 := Then(w5, "parse_mode", StrOpt(parseMode));
      var w7 := Then(w6, "caption_entities", StrOpt(captionEntities));
      var w8 := Then(w7, "caption", StrOpt(caption));
      var w9 := Then(w8, "disable_notification", BoolOpt(disableNotification));
      var w10 := Then(w9, "protect_content", BoolOpt(protectContent));
      var w11 := Then(w10, "reply_to_message_id", IntOpt(replyToMessageID));
      var w12 := Then(w11, "allow_sending_without_reply", BoolOpt(allowSendingWithoutReply));
      var w13 := Then(w12, "reply_markup", StrOpt(inlineKeyboardMarkup));
      var w14 := Then(w13, "reply_markup", StrOpt(replyKeyboardMarkup));
      var w15 := Then(w14, "reply_markup", StrOpt(replyKeyboardRemove));
      var w16 := Then(w15, "reply_markup", StrOpt(forceReply));
      LastSetOther(w0, "chat_id", IntOpt(chatID), "reply_markup");
      LastSetOther(w1, "voice", FileOpt(voice), "reply_markup");
      LastSetOther(w2, "voice", StrOpt(voiceString), "reply_markup");
      LastSetOther(w3, "duration", IntOpt(duration), "reply_markup");
      LastSetOther(w4, "message_thread_id", IntOpt(messageThreadID), "reply_markup");
      LastSetOther(w5, "parse_mode", StrOpt(parseMode), "reply_markup");
      LastSetOther(w6, "caption_entities", StrOpt(captionEntities), "reply_markup");
      LastSetOther(w7, "caption", StrOpt(caption), "reply_markup");
      LastSetOther(w8, "disable_notification", BoolOpt(disableNotification), "reply_markup");
      LastSetOther(w9, "protect_content", BoolOpt(protectContent), "reply_markup");
      LastSetOther(w10, "reply_to_message_id", IntOpt(replyToMessageID), "reply_markup");
      LastSetOther(w11, "allow_sending_without_reply", BoolOpt(allowSendingWithoutReply), "reply_markup");
      LastSetSame(w12, "reply_markup", StrOpt(inlineKeyboardMarkup));
      LastSetSame(w13, "reply_markup", StrOpt(replyKeyboardMarkup));
      LastSetSame(w14, "reply_markup", StrOpt(replyKeyboardRemove));
      LastSetSame(w15, "reply_markup", StrOpt(forceReply));
      WrittenLastSet(w16, "reply_markup");
    }

    /** The calls write no key but these. */
    lemma PlanOnly()
      ensures OrEmpty(Written(Plan())).Keys <= {"chat_id", "voice", "duration", "message_thread_id", "parse_mode", "caption_entities", "caption", "disable_notification", "protect_content", "reply_to_message_id", "allow_sending_without_reply", "reply_markup"}
    {
      var w0 := NoWrites;
      var w1 := Then(w0, "chat_id", IntOpt(chatID));
      var w2 := Then(w1, "voice", FileOpt(voice));
      var w3 := Then(w2, "voice", StrOpt(voiceString));
      var w4 := Then(w3, "duration", IntOpt(duration));
      var w5 := Then(w4, "message_thread_id", IntOpt(messageThreadID));
      var w6 := Then(w5, "parse_mode", StrOpt(parseMode));
      var w7 := Then(w6, "caption_entities", StrOpt(captionEntities));
      var w8 := Then(w7, "caption", StrOpt(caption));
      var w9 := Then(w8, "disable_notification", BoolOpt(disableNotification));
      var w10 := Then(w9, "protect_content", BoolOpt(protectContent));
      var w11 := Then(w10, "reply_to_message_id", IntOpt(replyToMessageID));
      var w12 := Then(w11, "allow_sending_without_reply", BoolOpt(allowSendingWithoutReply));
      var w13 := Then(w12, "reply_markup", StrOpt(inlineKeyboardMarkup));
      var w14 := Then(w13, "reply_markup", StrOpt(replyKeyboardMarkup));
      var w15 := Then(w14, "reply_markup", StrOpt(replyKeyboardRemove));
      var w16 := Then(w15, "reply_markup", StrOpt(forceReply));
      forall j | j !in {"chat_id", "voice", "duration", "message_thread_id", "parse_mode", "caption_entities", "caption", "disable_notification", "protect_content", "reply_to_message_id", "allow_sending_without_reply", "reply_markup"}
        ensures j !in OrEmpty(Written(w16))
      {
        LastSetOther(w0, "chat_id", IntOpt(chatID), j);
        LastSetOther(w1, "voice", FileOpt(voice), j);
        LastSetOther(w2, "voice", StrOpt(voiceString), j);
        LastSetOther(w3, "duration", IntOpt(duration), j);
        LastSetOther(w4, "message_thread_id", IntOpt(messageThreadID), j);
        LastSetOther(w5, "parse_mode", StrOpt(parseMode), j);
        LastSetOther(w6, "caption_entities", StrOpt(captionEntities), j);
        LastSetOther(w7, "caption", StrOpt(caption), j);
        LastSetOther(w8, "disable_notification", BoolOpt(disableNotification), j);
        LastSetOther(w9, "protect_content", BoolOpt(protectContent), j);
        LastSetOther(w10, "reply_to_message_id", IntOpt(replyToMessageID), j);
        LastSetOther(w11, "allow_sending_without_reply", BoolOpt(allowSendingWithoutReply), j);
        LastSetOther(w12, "reply_markup", StrOpt(inlineKeyboardMarkup), j);
        LastSetOther(w13, "reply_markup", StrOpt(replyKeyboardMarkup), j);
        LastSetOther(w14, "reply_markup", StrOpt(replyKeyboardRemove), j);
        LastSetOther(w15, "reply_markup", StrOpt(forceReply), j);
        WrittenLastSet(w16, j);
      }
    }

    /** The request `Do` builds before it calls the API: the endpoint, and a query made
        by the `setParam` calls of `Plan`. */
    method Assemble() returns (r: Request)
      ensures fresh(r)
      ensures r.Fields() == RequestFields(MethodGet, "/sendVoice", Written(Plan()), None, None, None, "", [])
    {
      r := new Request(MethodGet, "/sendVoice");
      ghost var done := NoWrites;
      var _ := r.SetParamIfSet("chat_id", IntOpt(chatID), done);
      done := Then(done, "chat_id", IntOpt(chatID));
      var _ := r.SetParamIfSet("voice", FileOpt(voice), done);
      done := Then(done, "voice", FileOpt(voice));
      var _ := r.SetParamIfSet("voice", StrOpt(voiceString), done);
      done := Then(done, "voice", StrOpt(voiceString));
      var _ := r.SetParamIfSet("duration", IntOpt(duration), done);
      done := Then(done, "duration", IntOpt(duration));
      var _ := r.SetParamIfSet("message_thread_id", IntOpt(messageThreadID), done);
      done := Then(done, "message_thread_id", IntOpt(messageThreadID));
      var _ := r.SetParamIfSet("parse_mode", StrOpt(parseMode), done);
      done := Then(done, "parse_mode", StrOpt(parseMode));
      var _ := r.SetParamIfSet("caption_entities", StrOpt(captionEntities), done);
      done := Then(done, "caption_entities", StrOpt(captionEntities));
      var _ := r.SetParamIfSet("caption", StrOpt(caption), done);
      done := Then(done, "caption", StrOpt(caption));
      var _ := r.SetParamIfSet("disable_notification", BoolOpt(disableNotification), done);
      done := Then(done, "disable_notification", BoolOpt(disableNotification));
      var _ := r.SetParamIfSet("protect_content", BoolOpt(protectContent), done);
      done := Then(done, "protect_content", BoolOpt(protectContent));
      var _ := r.SetParamIfSet("reply_to_message_id", IntOpt(replyToMessageID), done);
      done := Then(done, "reply_to_message_id", IntOpt(replyToMessageID));
      var _ := r.SetParamIfSet("allow_sending_without_reply", BoolOpt(allowSendingWithoutReply), done);
      done := Then(done, "allow_sending_without_reply", BoolOpt(allowSendingWithoutReply));
      var _ := r.SetParamIfSet("reply_markup", StrOpt(inlineKeyboardMarkup), done);
      done := Then(done, "reply_markup", StrOpt(inlineKeyboardMarkup));
      var _ := r.SetParamIfSet("reply_markup", StrOpt(replyKeyboardMarkup), done);
      done := Then(done, "reply_markup", StrOpt(replyKeyboardMarkup));
      var _ := r.SetParamIfSet("reply_markup", StrOpt(replyKeyboardRemove), done);
      done := Then(done, "reply_markup", StrOpt(replyKeyboardRemove));
      var _ := r.SetParamIfSet("reply_markup", StrOpt(forceReply), done);
      done := Then(done, "reply_markup", StrOpt(forceReply));
      assert done == Plan();
    }

    /** `Do`: Always sets `chat_id`; sets each of the other keys only when its field is set; then calls the API. */
    method Do(opts: seq<RequestOption>) returns (assembled: RequestFields, res: Option<Bytes>, err: Option<Error>)
      requires chatID.Some?
      ensures assembled.httpMethod == MethodGet && assembled.endpoint == "/sendVoice"
      ensures assembled.form == None && assembled.header == None && assembled.body == None
      ensures assembled.fullURL == "" && assembled.json == []
      ensures Holds(Q(assembled), "chat_id", Int(chatID.value as int))
      ensures HoldsIfSet(Q(assembled), "voice", Later(FileOpt(voice), StrOpt(voiceString)))
      ensures HoldsIfSet(Q(assembled), "duration", IntOpt(duration))
      ensures HoldsIfSet(Q(assembled), "message_thread_id", IntOpt(messageThreadID))
      ensures HoldsIfSet(Q(assembled), "parse_mode", StrOpt(parseMode))
      ensures HoldsIfSet(Q(assembled), "caption_entities", StrOpt(captionEntities))
      ensures HoldsIfSet(Q(assembled), "caption", StrOpt(caption))
      ensures HoldsIfSet(Q(assembled), "disable_notification", BoolOpt(disableNotification))
      ensures HoldsIfSet(Q(assembled), "protect_content", BoolOpt(protectContent))
      ensures HoldsIfSet(Q(assembled), "reply_to_message_id", IntOpt(replyToMessageID))
      ensures HoldsIfSet(Q(assembled), "allow_sending_without_reply", BoolOpt(allowSendingWithoutReply))
      ensures HoldsIfSet(Q(assembled), "reply_markup", Later(Later(Later(StrOpt(inlineKeyboardMarkup), StrOpt(replyKeyboardMarkup)), StrOpt(replyKeyboardRemove)), StrOpt(forceReply)))
      ensures Q(assembled).Keys <= {"chat_id", "voice", "duration", "message_thread_id", "parse_mode", "caption_entities", "caption", "disable_notification", "protect_content", "reply_to_message_id", "allow_sending_without_reply", "reply_markup"}
      ensures caption == None ==> "caption" !in Q(assembled)
      ensures var o := c.Outcome(assembled, opts);
        err == o.1 && res == (if o.1.Some? then None else o.0)
    {
      var r := Assemble();
      assembled := r.Fields();
      var data, e := c.CallAPI(r, opts);
      PlanOnly();
      PlanChatID();
      PlanVoice();
      PlanDuration();
      PlanMessageThreadID();
      PlanParseMode();
      PlanCaptionEntities();
      PlanCaption();
      PlanDisableNotification();
      PlanProtectContent();
      PlanReplyToMessageID();
      PlanAllowSendingWithoutReply();
      PlanReplyMarkup();
      if e.Some? {
        return assembled, None, e;
      }
      res, err := data, None;
    }
  }

  /** `SendVideoNoteService`: a GET request to `/sendVideoNote`. */
  class SendVideoNoteService {
    const c: Client
    var chatID: Option<int64>
    var messageThreadID: Option<int64>
    var videoNote: Option<InputFile>
    var videoNoteString: Option<string>
    var duration: Option<int64>
    var length: Option<int64>
    var thumbnail: Option<InputFile>
    var thumbnailString: Option<string>
    var disableNotification: Option<bool>
    var protectContent: Option<bool>
    var replyToMessageID: Option<int64>
    var allowSendingWithoutReply: Option<bool>
    var inlineKeyboardMarkup: Option<string>
    var replyKeyboardMarkup: Option<string>
    var replyKeyboardRemove: Option<string>
    var forceReply: Option<string>

    /** `NewSendVideoNoteService`: every field starts out unset. */
    constructor (c: Client)
      ensures this.c == c
      ensures chatID == None && messageThreadID == None && videoNote == None
      ensures videoNoteString == None && duration == None && length == None
      ensures thumbnail == None && thumbnailString == None && disableNotification == None
      ensures protectContent == None && replyToMessageID == None && allowSendingWithoutReply == None
      ensures inlineKeyboardMarkup == None && replyKeyboardMarkup == None && replyKeyboardRemove == None
      ensures forceReply == None
    {
      this.c := c;
      chatID := None;
      messageThreadID := None;
      videoNote := None;
      videoNoteString := None;
      duration := None;
      length := None;
      thumbnail := None;
      thumbnailString := None;
      disableNotification := None;
      protectContent := None;
      replyToMessageID := None;
      allowSendingWithoutReply := None;
      inlineKeyboardMarkup := None;
      replyKeyboardMarkup := None;
      replyKeyboardRemove := None;
      forceReply := None;
    }

    /** `ChatID`: stores its argument in `chatID`. */
    method ChatID(chatID: int64) returns (t: SendVideoNoteService)
      modifies this`chatID
      ensures this.chatID == Some(chatID) && t == this
    {
      this.chatID := Some(chatID);
      t := this;
    }

    /** `MessageThreadID`: stores its argument in `messageThreadID`. */
    method MessageThreadID(messageThreadID: int64) returns (t: SendVideoNoteService)
      modifies this`messageThreadID
      ensures this.messageThreadID == Some(messageThreadID) && t == this
    {
      this.messageThreadID := Some(messageThreadID);
      t := this;
    }

    /** `Animation`: stores its argument in `videoNote`. */
    method Animation(videoNote: InputFile) returns (t: SendVideoNoteService)
      modifies this`videoNote
      ensures this.videoNote == Some(videoNote) && t == this
    {
      this.videoNote := Some(videoNote);
      t := this;
    }

    /** `AnimationString`: stores its argument in `videoNoteString`. */
    method AnimationString(videoNoteString: string) returns (t: SendVideoNoteService)
      modifies this`videoNoteString
      ensures this.videoNoteString == Some(videoNoteString) && t == this
    {
      this.videoNoteString := Some(videoNoteString);
      t := this;
    }

    /** `Duration`: stores its argument in `duration`. */
    method Duration(duration: int64) returns (t: SendVideoNoteService)
      modifies this`duration
      ensures this.duration == Some(duration) && t == this
    {
      this.duration := Some(duration);
      t := this;
    }

    /** `Length`: stores its argument in `length`. */
    method Length(length: int64) returns (t: SendVideoNoteService)
      modifies this`length
      ensures this.length == Some(length) && t == this
    {
      this.length := Some(length);
      t := this;
    }

    /** `Thumbnail`: stores its argument in `thumbnail`. */
    method Thumbnail(thumbnail: InputFile) returns (t: SendVideoNoteService)
      modifies this`thumbnail
      ensures this.thumbnail == Some(thumbnail) && t == this
    {
      this.thumbnail := Some(thumbnail);
      t := this;
    }

    /** `ThumbnailString`: stores its argument in `thumbnailString`. */
    method ThumbnailString(thumbnailString: string) returns (t: SendVideoNoteService)
      modifies this`thumbnailString
      ensures this.thumbnailString == Some(thumbnailString) && t == this
    {
      this.thumbnailString := Some(thumbnailString);
      t := this;
    }

    /** `DisableNotification`: stores its argument in `disableNotification`. */
    method DisableNotification(disableNotification: bool) returns (t: SendVideoNoteService)
      modifies this`disableNotification
      ensures this.disableNotification == Some(disableNotification) && t == this
    {
      this.disableNotification := Some(disableNotification);
      t := this;
    }

    /** `ProtectContent`: stores its argument in `protectContent`. */
    method ProtectContent(protectContent: bool) returns (t: SendVideoNoteService)
      modifies this`protectContent
      ensures this.protectContent == Some(protectContent) && t == this
    {
      this.protectContent := Some(protectContent);
      t := this;
    }

    /** `ReplyToMessageID`: stores its argument in `replyToMessageID`. */
    method ReplyToMessageID(replyToMessageID: int64) returns (t: SendVideoNoteService)
      modifies this`replyToMessageID
      ensures this.replyToMessageID == Some(replyToMessageID) && t == this
    {
      this.replyToMessageID := Some(replyToMessageID);
      t := this;
    }

    /** `AllowSendingWithoutReply`: stores its argument in `allowSendingWithoutReply`. */
    method AllowSendingWithoutReply(allowSendingWithoutReply: bool) returns (t: SendVideoNoteService)
      modifies this`allowSendingWithoutReply
      ensures this.allowSendingWithoutReply == Some(allowSendingWithoutReply) && t == this
    {
      this.allowSendingWithoutReply := Some(allowSendingWithoutReply);
      t := this;
    }

    /** `InlineKeyboardMarkup`: stores the JSON text of its argument in `inlineKeyboardMarkup`. `marshalled` is what
        `jsoniter.Marshal` makes of the argument, `None` when marshalling fails; then
        nothing changes and the result is nil. */
    method InlineKeyboardMarkup(marshalled: Option<string>) returns (t: SendVideoNoteService?)
      modifies this`inlineKeyboardMarkup
      ensures marshalled.None? ==> t == null && inlineKeyboardMarkup == old(inlineKeyboardMarkup)
      ensures marshalled.Some? ==> t == this && inlineKeyboardMarkup == marshalled
    {
      if marshalled.None? {
        return null;
      }
      inlineKeyboardMarkup := marshalled;
      t := this;
    }

    /** `ReplyKeyboardMarkup`: stores the JSON text of its argument in `replyKeyboardMarkup`. `marshalled` is what
        `jsoniter.Marshal` makes of the argument, `None` when marshalling fails; then
        nothing changes and the result is nil. */
    method ReplyKeyboardMarkup(marshalled: Option<string>) returns (t: SendVideoNoteService?)
      modifies this`replyKeyboardMarkup
      ensures marshalled.None? ==> t == null && replyKeyboardMarkup == old(replyKeyboardMarkup)
      ensures marshalled.Some? ==> t == this && replyKeyboardMarkup == marshalled
    {
      if marshalled.None? {
        return null;
      }
      replyKeyboardMarkup := marshalled;
      t := this;
    }

    /** `ReplyKeyboardRemove`: stores the JSON text of its argument in `replyKeyboardRemove`. `marshalled` is what
        `jsoniter.Marshal` makes of the argument, `None` when marshalling fails; then
        nothing changes and the result is nil. */
    method ReplyKeyboardRemove(marshalled: Option<string>) returns (t: SendVideoNoteService?)
      modifies this`replyKeyboardRemove
      ensures marshalled.None? ==> t == null && replyKeyboardRemove == old(replyKeyboardRemove)
      ensures marshalled.Some? ==> t == this && replyKeyboardRemove == marshalled
    {
      if marshalled.None? {
        return null;
      }
      replyKeyboardRemove := marshalled;
      t := this;
    }

    /** `ForceReply`: stores the JSON text of its argument in `forceReply`. `marshalled` is what
        `jsoniter.Marshal` makes of the argument, `None` when marshalling fails; then
        nothing changes and the result is nil. */
    method ForceReply(marshalled: Option<string>) returns (t: SendVideoNoteService?)
      modifies this`forceReply
      ensures marshalled.None? ==> t == null && forceReply == old(forceReply)
      ensures marshalled.Some? ==> t == this && forceReply == marshalled
    {
      if marshalled.None? {
        return null;
      }
      forceReply := marshalled;
      t := this;
    }

    /** The `setParam` calls `Do` makes, in order; a call that is skipped because its
        field is unset has value `None`. */
    ghost function Plan(): Writes
      reads this
    {
      var w1 := Then(NoWrites, "chat_id", IntOpt(chatID));
      var w2 := Then(w1, "video_note", FileOpt(videoNote));
      var w3 := Then(w2, "video_note", StrOpt(videoNoteString));
      var w4 := Then(w3, "duration", IntOpt(duration));
      var w5 := Then(w4, "length", IntOpt(length));
      var w6 := Then(w5, "message_thread_id", IntOpt(messageThreadID));
      var w7 := Then(w6, "disable_notification", BoolOpt(disableNotification));
      var w8 := Then(w7, "protect_content", BoolOpt(protectContent));
      var w9 := Then(w8, "reply_to_message_id", IntOpt(replyToMessageID));
      var w10 := Then(w9, "allow_sending_without_reply", BoolOpt(allowSendingWithoutReply));
      var w11 := Then(w10, "reply_markup", StrOpt(inlineKeyboardMarkup));
      var w12 := Then(w11, "reply_markup", StrOpt(replyKeyboardMarkup));
      var w13 := Then(w12, "reply_markup", StrOpt(replyKeyboardRemove));
      var w14 := Then(w13, "reply_markup", StrOpt(forceReply));
      w14
    }

    /** The value the calls leave at `chat_id`. */
    lemma PlanChatID()
      ensures HoldsIfSet(OrEmpty(Written(Plan())), "chat_id", IntOpt(chatID))
    {
      var w0 := NoWrites;
      var w1 := Then(w0, "chat_id", IntOpt(chatID));
      var w2 := Then(w1, "video_note", FileOpt(videoNote));
      var w3 := Then(w2, "video_note", StrOpt(videoNoteString));
      var w4 := Then(w3, "duration", IntOpt(duration));
      var w5 := Then(w4, "length", IntOpt(length));
      var w6 := Then(w5, "message_thread_id", IntOpt(messageThreadID));
      var w7 := Then(w6, "disable_notification", BoolOpt(disableNotification));
      var w8 := Then(w7, "protect_content", BoolOpt(protectContent));
      var w9 := Then(w8, "reply_to_message_id", IntOpt(replyToMessageID));
      var w10 := Then(w9, "allow_sending_without_reply", BoolOpt(allowSendingWithoutReply));
      var w11 := Then(w10, "reply_markup", StrOpt(inlineKeyboardMarkup));
      var w12 := Then(w11, "reply_markup", StrOpt(replyKeyboardMarkup));
      var w13 := Then(w12, "reply_markup", StrOpt(replyKeyboardRemove));
      var w14 := Then(w13, "reply_markup", StrOpt(forceReply));
      LastSetOther(w1, "video_note", FileOpt(videoNote), "chat_id");
      LastSetOther(w2, "video_note", StrOpt(videoNoteString), "chat_id");
      LastSetOther(w3, "duration", IntOpt(duration), "chat_id");
      LastSetOther(w4, "length", IntOpt(length), "chat_id");
      LastSetOther(w5, "message_thread_id", IntOpt(messageThreadID), "chat_id");
      LastSetOther(w6, "disable_notification", BoolOpt(disableNotification), "chat_id");
      LastSetOther(w7, "protect_content", BoolOpt(protectContent), "chat_id");
      LastSetOther(w8, "reply_to_message_id", IntOpt(replyToMessageID), "chat_id");
      LastSetOther(w9, "allow_sending_without_reply", BoolOpt(allowSendingWithoutReply), "chat_id");
      LastSetOther(w10, "reply_markup", StrOpt(inlineKeyboardMarkup), "chat_id");
      LastSetOther(w11, "reply_markup", StrOpt(replyKeyboardMarkup), "chat_id");
      LastSetOther(w12, "reply_markup", StrOpt(replyKeyboardRemove), "chat_id");
      LastSetOther(w13, "reply_markup", StrOpt(forceReply), "chat_id");
      WrittenLastSet(w14, "chat_id");
    }

    /** The value the calls leave at `video_note`: the last one set. */
    lemma PlanVideoNote()
      ensures HoldsIfSet(OrEmpty(Written(Plan())), "video_note", Later(FileOpt(videoNote), StrOpt(videoNoteString)))
    {
      var w0 := NoWrites;
      var w1 := Then(w0, "chat_id", IntOpt(chatID));
      var w2 := Then(w1, "video_note", FileOpt(videoNote));
      var w3 := Then(w2, "video_note", StrOpt(videoNoteString));
      var w4 := Then(w3, "duration", IntOpt(duration));
      var w5 := Then(w4, "length", IntOpt(length));
      var w6 := Then(w5, "message_thread_id", IntOpt(messageThreadID));
      var w7 := Then(w6, "disable_notification", BoolOpt(disableNotification));
      var w8 := Then(w7, "protect_content", BoolOpt(protectContent));
      var w9 := Then(w8, "reply_to_message_id", IntOpt(replyToMessageID));
      var w10 := Then(w9, "allow_sending_without_reply", BoolOpt(allowSendingWithoutReply));
      var w11 := Then(w10, "reply_markup", StrOpt(inlineKeyboardMarkup));
      var w12 := Then(w11, "reply_markup", StrOpt(replyKeyboardMarkup));
      var w13 := Then(w12, "reply_markup", StrOpt(replyKeyboardRemove));
      var w14 := Then(w13, "reply_markup", StrOpt(forceReply));
      LastSetOther(w0, "chat_id", IntOpt(chatID), "video_note");
      LastSetSame(w1, "video_note", FileOpt(videoNote));
      LastSetSame(w2, "video_note", StrOpt(videoNoteString));
      LastSetOther(w3, "duration", IntOpt(duration), "video_note");
      LastSetOther(w4, "length", IntOpt(length), "video_note");
      LastSetOther(w5, "message_thread_id", IntOpt(messageThreadID), "video_note");
      LastSetOther(w6, "disable_notification", BoolOpt(disableNotification), "video_note");
      LastSetOther(w7, "protect_content", BoolOpt(protectContent), "video_note");
      LastSetOther(w8, "reply_to_message_id", IntOpt(replyToMessageID), "video_note");
      LastSetOther(w9, "allow_sending_without_reply", BoolOpt(allowSendingWithoutReply), "video_note");
      LastSetOther(w10, "reply_markup", StrOpt(inlineKeyboardMarkup), "video_note");
      LastSetOther(w11, "reply_markup", StrOpt(replyKeyboardMarkup), "video_note");
      LastSetOther(w12, "reply_markup", StrOpt(replyKeyboardRemove), "video_note");
      LastSetOther(w13, "reply_markup", StrOpt(forceReply), "video_note");
      WrittenLastSet(w14, "video_note");
    }

    /** The value the calls leave at `duration`. */
    lemma PlanDuration()
      ensures HoldsIfSet(OrEmpty(Written(Plan())), "duration", IntOpt(duration))
    {
      var w0 := NoWrites;
      var w1 := Then(w0, "chat_id", IntOpt(chatID));
      var w2 := Then(w1, "video_note", FileOpt(videoNote));
      var w3 := Then(w2, "video_note", StrOpt(videoNoteString));
      var w4 := Then(w3, "duration", IntOpt(duration));
      var w5 := Then(w4, "length", IntOpt(length));
      var w6 := Then(w5, "message_thread_id", IntOpt(messageThreadID));
      var w7 := Then(w6, "disable_notification", BoolOpt(disableNotification));
      var w8 := Then(w7, "protect_content", BoolOpt(protectContent));
      var w9 := Then(w8, "reply_to_message_id", IntOpt(replyToMessageID));
      var w10 := Then(w9, "allow_sending_without_reply", BoolOpt(allowSendingWithoutReply));
      var w11 := Then(w10, "reply_markup", StrOpt(inlineKeyboardMarkup));
      var w12 := Then(w11, "reply_markup", StrOpt(replyKeyboardMarkup));
      var w13 := Then(w12, "reply_markup", StrOpt(replyKeyboardRemove));
      var w14 := Then(w13, "reply_markup", StrOpt(forceReply));
      LastSetOther(w0, "chat_id", IntOpt(chatID), "duration");
      LastSetOther(w1, "video_note", FileOpt(videoNote), "duration");
      LastSetOther(w2, "video_note", StrOpt(videoNoteString), "duration");
      LastSetOther(w4, "length", IntOpt(length), "duration");
      LastSetOther(w5, "message_thread_id", IntOpt(messageThreadID), "duration");
      LastSetOther(w6, "disable_notification", BoolOpt(disableNotification), "duration");
      LastSetOther(w7, "protect_content", BoolOpt(protectContent), "duration");
      LastSetOther(w8, "reply_to_message_id", IntOpt(replyToMessageID), "duration");
      LastSetOther(w9, "allow_sending_without_reply", BoolOpt(allowSendingWithoutReply), "duration");
      LastSetOther(w10, "reply_markup", StrOpt(inlineKeyboardMarkup), "duration");
      LastSetOther(w11, "reply_markup", StrOpt(replyKeyboardMarkup), "duration");
      LastSetOther(w12, "reply_markup", StrOpt(replyKeyboardRemove), "duration");
      LastSetOther(w13, "reply_markup", StrOpt(forceReply), "duration");
      WrittenLastSet(w14, "duration");
    }

    /** The value the calls leave at `length`. */
    lemma PlanLength()
      ensures HoldsIfSet(OrEmpty(Written(Plan())), "length", IntOpt(length))
    {
      var w0 := NoWrites;
      var w1 := Then(w0, "chat_id", IntOpt(chatID));
      var w2 := Then(w1, "video_note", FileOpt(videoNote));
      var w3 := Then(w2, "video_note", StrOpt(videoNoteString));
      var w4 := Then(w3, "duration", IntOpt(duration));
      var w5 := Then(w4, "length", IntOpt(length));
      var w6 := Then(w5, "message_thread_id", IntOpt(messageThreadID));
      var w7 := Then(w6, "disable_notification", BoolOpt(disableNotification));
      var w8 := Then(w7, "protect_content", BoolOpt(protectContent));
      var w9 := Then(w8, "reply_to_message_id", IntOpt(replyToMessageID));
      var w10 := Then(w9, "allow_sending_without_reply", BoolOpt(allowSendingWithoutReply));
      var w11 := Then(w10, "reply_markup", StrOpt(inlineKeyboardMarkup));
      var w12 := Then(w11, "reply_markup", StrOpt(replyKeyboardMarkup));
      var w13 := Then(w12, "reply_markup", StrOpt(replyKeyboardRemove));
      var w14 := Then(w13, "reply_markup", StrOpt(forceReply));
      LastSetOther(w0, "chat_id", IntOpt(chatID), "length");
      LastSetOther(w1, "video_note", FileOpt(videoNote), "length");
      LastSetOther(w2, "video_note", StrOpt(videoNoteString), "length");
      LastSetOther(w3, "duration", IntOpt(duration), "length");
      LastSetOther(w5, "message_thread_id", IntOpt(messageThreadID), "length");
      LastSetOther(w6, "disable_notification", BoolOpt(disableNotification), "length");
      LastSetOther(w7, "protect_content", BoolOpt(protectContent), "length");
      LastSetOther(w8, "reply_to_message_id", IntOpt(replyToMessageID), "length");
      LastSetOther(w9, "allow_sending_without_reply", BoolOpt(allowSendingWithoutReply), "length");
      LastSetOther(w10, "reply_markup", StrOpt(inlineKeyboardMarkup), "length");
      LastSetOther(w11, "reply_markup", StrOpt(replyKeyboardMarkup), "length");
      LastSetOther(w12, "reply_markup", StrOpt(replyKeyboardRemove), "length");
      LastSetOther(w13, "reply_markup", StrOpt(forceReply), "length");
      WrittenLastSet(w14, "length");
    }

    /** The value the calls leave at `message_thread_id`. */
    lemma PlanMessageThreadID()
      ensures HoldsIfSet(OrEmpty(Written(Plan())), "message_thread_id", IntOpt(messageThreadID))
    {
      var w0 := NoWrites;
      var w1 := Then(w0, "chat_id", IntOpt(chatID));
      var w2 := Then(w1, "video_note", FileOpt(videoNote));
      var w3 := Then(w2, "video_note", StrOpt(videoNoteString));
      var w4 := Then(w3, "duration", IntOpt(duration));
      var w5 := Then(w4, "length", IntOpt(length));
      var w6 := Then(w5, "message_thread_id", IntOpt(messageThreadID));
      var w7 := Then(w6, "disable_notification", BoolOpt(disableNotification));
      var w8 := Then(w7, "protect_content", BoolOpt(protectContent));
      var w9 := Then(w8, "reply_to_message_id", IntOpt(replyToMessageID));
      var w10 := Then(w9, "allow_sending_without_reply", BoolOpt(allowSendingWithoutReply));
      var w11 := Then(w10, "reply_markup", StrOpt(inlineKeyboardMarkup));
      var w12 := Then(w11, "reply_markup", StrOpt(replyKeyboardMarkup));
      var w13 := Then(w12, "reply_markup", StrOpt(replyKeyboardRemove));
      var w14 := Then(w13, "reply_markup", StrOpt(forceReply));
      LastSetOther(w0, "chat_id", IntOpt(chatID), "message_thread_id");
      LastSetOther(w1, "video_note", FileOpt(videoNote), "message_thread_id");
      LastSetOther(w2, "video_note", StrOpt(videoNoteString), "message_thread_id");
      LastSetOther(w3, "duration", IntOpt(duration), "message_thread_id");
      LastSetOther(w4, "length", IntOpt(length), "message_thread_id");
      LastSetOther(w6, "disable_notification", BoolOpt(disableNotification), "message_thread_id");
      LastSetOther(w7, "protect_content", BoolOpt(protectContent), "message_thread_id");
      LastSetOther(w8, "reply_to_message_id", IntOpt(replyToMessageID), "message_thread_id");
      LastSetOther(w9, "allow_sending_without_reply", BoolOpt(allowSendingWithoutReply), "message_thread_id");
      LastSetOther(w10, "reply_markup", StrOpt(inlineKeyboardMarkup), "message_thread_id");
      LastSetOther(w11, "reply_markup", StrOpt(replyKeyboardMarkup), "message_thread_id");
      LastSetOther(w12, "reply_markup", StrOpt(replyKeyboardRemove), "message_thread_id");
      LastSetOther(w13, "reply_markup", StrOpt(forceReply), "message_thread_id");
      WrittenLastSet(w14, "message_thread_id");
    }

    /** The value the calls leave at `disable_notification`. */
    lemma PlanDisableNotification()
      ensures HoldsIfSet(OrEmpty(Written(Plan())), "disable_notification", BoolOpt(disableNotification))
    {
      var w0 := NoWrites;
      var w1 := Then(w0, "chat_id", IntOpt(chatID));
      var w2 := Then(w1, "video_note", FileOpt(videoNote));
      var w3 := Then(w2, "video_note", StrOpt(videoNoteString));
      var w4 := Then(w3, "duration", IntOpt(duration));
      var w5 := Then(w4, "length", IntOpt(length));
      var w6 := Then(w5, "message_thread_id", IntOpt(messageThreadID));
      var w7 := Then(w6, "disable_notification", BoolOpt(disableNotification));
      var w8 := Then(w7, "protect_content", BoolOpt(protectContent));
      var w9 := Then(w8, "reply_to_message_id", IntOpt(replyToMessageID));
      var w10 := Then(w9, "allow_sending_without_reply", BoolOpt(allowSendingWithoutReply));
      var w11 := Then(w10, "reply_markup", StrOpt(inlineKeyboardMarkup));
      var w12 := Then(w11, "reply_markup", StrOpt(replyKeyboardMarkup));
      var w13 := Then(w12, "reply_markup", StrOpt(replyKeyboardRemove));
      var w14 := Then(w13, "reply_markup", StrOpt(forceReply));
      LastSetOther(w0, "chat_id", IntOpt(chatID), "disable_notification");
      LastSetOther(w1, "video_note", FileOpt(videoNote), "disable_notification");
      LastSetOther(w2, "video_note", StrOpt(videoNoteString), "disable_notification");
      LastSetOther(w3, "duration", IntOpt(duration), "disable_notification");
      LastSetOther(w4, "length", IntOpt(length), "disable_notification");
      LastSetOther(w5, "message_thread_id", IntOpt(messageThreadID), "disable_notification");
      LastSetOther(w7, "protect_content", BoolOpt(protectContent), "disable_notification");
      LastSetOther(w8, "reply_to_message_id", IntOpt(replyToMessageID), "disable_notification");
      LastSetOther(w9, "allow_sending_without_reply", BoolOpt(allowSendingWithoutReply), "disable_notification");
      LastSetOther(w10, "reply_markup", StrOpt(inlineKeyboardMarkup), "disable_notification");
      LastSetOther(w11, "reply_markup", StrOpt(replyKeyboardMarkup), "disable_notification");
      LastSetOther(w12, "reply_markup", StrOpt(replyKeyboardRemove), "disable_notification");
      LastSetOther(w13, "reply_markup", StrOpt(forceReply), "disable_notification");
      WrittenLastSet(w14, "disable_notification");
    }

    /** The value the calls leave at `protect_content`. */
    lemma PlanProtectContent()
      ensures HoldsIfSet(OrEmpty(Written(Plan())), "protect_content", BoolOpt(protectContent))
    {
      var w0 := NoWrites;
      var w1 := Then(w0, "chat_id", IntOpt(chatID));
      var w2 := Then(w1, "video_note", FileOpt(videoNote));
      var w3 := Then(w2, "video_note", StrOpt(videoNoteString));
      var w4 := Then(w3, "duration", IntOpt(duration));
      var w5 := Then(w4, "length", IntOpt(length));
      var w6 := Then(w5, "message_thread_id", IntOpt(messageThreadID));
      var w7 := Then(w6, "disable_notification", BoolOpt(disableNotification));
      var w8 := Then(w7, "protect_content", BoolOpt(protectContent));
      var w9 := Then(w8, "reply_to_message_id", IntOpt(replyToMessageID));
      var w10 := Then(w9, "allow_sending_without_reply", BoolOpt(allowSendingWithoutReply));
      var w11 := Then(w10, "reply_markup", StrOpt(inlineKeyboardMarkup));
      var w12 := Then(w11, "reply_markup", StrOpt(replyKeyboardMarkup));
      var w13 := Then(w12, "reply_markup", StrOpt(replyKeyboardRemove));
      var w14 := Then(w13, "reply_markup", StrOpt(forceReply));
      LastSetOther(w0, "chat_id", IntOpt(chatID), "protect_content");
      LastSetOther(w1, "video_note", FileOpt(videoNote), "protect_content");
      LastSetOther(w2, "video_note", StrOpt(videoNoteString), "protect_content");
      LastSetOther(w3, "duration", IntOpt(duration), "protect_content");
      LastSetOther(w4, "length", IntOpt(length), "protect_content");
      LastSetOther(w5, "message_thread_id", IntOpt(messageThreadID), "protect_content");
      LastSetOther(w6, "disable_notification", BoolOpt(disableNotification), "protect_content");
      LastSetOther(w8, "reply_to_message_id", IntOpt(replyToMessageID), "protect_content");
      LastSetOther(w9, "allow_sending_without_reply", BoolOpt(allowSendingWithoutReply), "protect_content");
      LastSetOther(w10, "reply_markup", StrOpt(inlineKeyboardMarkup), "protect_content");
      LastSetOther(w11, "reply_markup", StrOpt(replyKeyboardMarkup), "protect_content");
      LastSetOther(w12, "reply_markup", StrOpt(replyKeyboardRemove), "protect_content");
      LastSetOther(w13, "reply_markup", StrOpt(forceReply), "protect_content");
      WrittenLastSet(w14, "protect_content");
    }

    /** The value the calls leave at `reply_to_message_id`. */
    lemma PlanReplyToMessageID()
      ensures HoldsIfSet(OrEmpty(Written(Plan())), "reply_to_message_id", IntOpt(replyToMessageID))
    {
      var w0 := NoWrites;
      var w1 := Then(w0, "chat_id", IntOpt(chatID));
      var w2 := Then(w1, "video_note", FileOpt(videoNote));
      var w3 := Then(w2, "video_note", StrOpt(videoNoteString));
      var w4 := Then(w3, "duration", IntOpt(duration));
      var w5 := Then(w4, "length", IntOpt(length));
      var w6 := Then(w5, "message_thread_id", IntOpt(messageThreadID));
      var w7 := Then(w6, "disable_notification", BoolOpt(disableNotification));
      var w8 := Then(w7, "protect_content", BoolOpt(protectContent));
      var w9 := Then(w8, "reply_to_message_id", IntOpt(replyToMessageID));
      var w10 := Then(w9, "allow_sending_without_reply", BoolOpt(allowSendingWithoutReply));
      var w11 := Then(w10, "reply_markup", StrOpt(inlineKeyboardMarkup));
      var w12 := Then(w11, "reply_markup", StrOpt(replyKeyboardMarkup));
      var w13 := Then(w12, "reply_markup", StrOpt(replyKeyboardRemove));
      var w14 := Then(w13, "reply_markup", StrOpt(forceReply));
      LastSetOther(w0, "chat_id", IntOpt(chatID), "reply_to_message_id");
      LastSetOther(w1, "video_note", FileOpt(videoNote), "reply_to_message_id");
      LastSetOther(w2, "video_note", StrOpt(videoNoteString), "reply_to_message_id");
      LastSetOther(w3, "duration", IntOpt(duration), "reply_to_message_id");
      LastSetOther(w4, "length", IntOpt(length), "reply_to_message_id");
      LastSetOther(w5, "message_thread_id", IntOpt(messageThreadID), "reply_to_message_id");
      LastSetOther(w6, "disable_notification", BoolOpt(disableNotification), "reply_to_message_id");
      LastSetOther(w7, "protect_content", BoolOpt(protectContent), "reply_to_message_id");
      LastSetOther(w9, "allow_sending_without_reply", BoolOpt(allowSendingWithoutReply), "reply_to_message_id");
      LastSetOther(w10, "reply_markup", StrOpt(inlineKeyboardMarkup), "reply_to_message_id");
      LastSetOther(w11, "reply_markup", StrOpt(replyKeyboardMarkup), "reply_to_message_id");
      LastSetOther(w12, "reply_markup", StrOpt(replyKeyboardRemove), "reply_to_message_id");
      LastSetOther(w13, "reply_markup", StrOpt(forceReply), "reply_to_message_id");
      WrittenLastSet(w14, "reply_to_message_id");
    }

    /** The value the calls leave at `allow_sending_without_reply`. */
    lemma PlanAllowSendingWithoutReply()
      ensures HoldsIfSet(OrEmpty(Written(Plan())), "allow_sending_without_reply", BoolOpt(allowSendingWithoutReply))
    {
      var w0 := NoWrites;
      var w1 := Then(w0, "chat_id", IntOpt(chatID));
      var w2 := Then(w1, "video_note", FileOpt(videoNote));
      var w3 := Then(w2, "video_note", StrOpt(videoNoteString));
      var w4 := Then(w3, "duration", IntOpt(duration));
      var w5 := Then(w4, "length", IntOpt(length));
      var w6 := Then(w5, "message_thread_id", IntOpt(messageThreadID));
      var w7 := Then(w6, "disable_notification", BoolOpt(disableNotification));
      var w8 := Then(w7, "protect_content", BoolOpt(protectContent));
      var w9 := Then(w8, "reply_to_message_id", IntOpt(replyToMessageID));
      var w10 := Then(w9, "allow_sending_without_reply", BoolOpt(allowSendingWithoutReply));
      var w11 := Then(w10, "reply_markup", StrOpt(inlineKeyboardMarkup));
      var w12 := Then(w11, "reply_markup", StrOpt(replyKeyboardMarkup));
      var w13 := Then(w12, "reply_markup", StrOpt(replyKeyboardRemove));
      var w14 := Then(w13, "reply_markup", StrOpt(forceReply));
      LastSetOther(w0, "chat_id", IntOpt(chatID), "allow_sending_without_reply");
      LastSetOther(w1, "video_note", FileOpt(videoNote), "allow_sending_without_reply");
      LastSetOther(w2, "video_note", StrOpt(videoNoteString), "allow_sending_without_reply");
      LastSetOther(w3, "duration", IntOpt(duration), "allow_sending_without_reply");
      LastSetOther(w4, "length", IntOpt(length), "allow_sending_without_reply");
      LastSetOther(w5, "message_thread_id", IntOpt(messageThreadID), "allow_sending_without_reply");
      LastSetOther(w6, "disable_notification", BoolOpt(disableNotification), "allow_sending_without_reply");
      LastSetOther(w7, "protect_content", BoolOpt(protectContent), "allow_sending_without_reply");
      LastSetOther(w8, "reply_to_message_id", IntOpt(replyToMessageID), "allow_sending_without_reply");
      LastSetOther(w10, "reply_markup", StrOpt(inlineKeyboardMarkup), "allow_sending_without_reply");
      LastSetOther(w11, "reply_markup", StrOpt(replyKeyboardMarkup), "allow_sending_without_reply");
      LastSetOther(w12, "reply_markup", StrOpt(replyKeyboardRemove), "allow_sending_without_reply");
      LastSetOther(w13, "reply_markup", StrOpt(forceReply), "allow_sending_without_reply");
      WrittenLastSet(w14, "allow_sending_without_reply");
    }

    /** The value the calls leave at `reply_markup`: the last one set. */
    lemma PlanReplyMarkup()
      ensures HoldsIfSet(OrEmpty(Written(Plan())), "reply_markup", Later(Later(Later(StrOpt(inlineKeyboardMarkup), StrOpt(replyKeyboardMarkup)), StrOpt(replyKeyboardRemove)), StrOpt(forceReply)))
    {
      var w0 := NoWrites;
      var w1 := Then(w0, "chat_id", IntOpt(chatID));
      var w2 := Then(w1, "video_note", FileOpt(videoNote));
      var w3 := Then(w2, "video_note", StrOpt(videoNoteString));
      var w4 := Then(w3, "duration", IntOpt(duration));
      var w5 := Then(w4, "length", IntOpt(length));
      var w6 := Then(w5, "message_thread_id", IntOpt(messageThreadID));
      var w7 := Then(w6, "disable_notification", BoolOpt(disableNotification));
      var w8 := Then(w7, "protect_content", BoolOpt(protectContent));
      var w9 := Then(w8, "reply_to_message_id", IntOpt(replyToMessageID));
      var w10 := Then(w9, "allow_sending_without_reply", BoolOpt(allowSendingWithoutReply));
      var w11 := Then(w10, "reply_markup", StrOpt(inlineKeyboardMarkup));
      var w12 := Then(w11, "reply_markup", StrOpt(replyKeyboardMarkup));
      var w13 := Then(w12, "reply_markup", StrOpt(replyKeyboardRemove));
      var w14 := Then(w13, "reply_markup", StrOpt(forceReply));
      LastSetOther(w0, "chat_id", IntOpt(chatID), "reply_markup");
      LastSetOther(w1, "video_note", FileOpt(videoNote), "reply_markup");
      LastSetOther(w2, "video_note", StrOpt(videoNoteString), "reply_markup");
      LastSetOther(w3, "duration", IntOpt(duration), "reply_markup");
      LastSetOther(w4, "length", IntOpt(length), "reply_markup");
      LastSetOther(w5, "message_thread_id", IntOpt(messageThreadID), "reply_markup");
      LastSetOther(w6, "disable_notification", BoolOpt(disableNotification), "reply_markup");
      LastSetOther(w7, "protect_content", BoolOpt(protectContent), "reply_markup");
      LastSetOther(w8, "reply_to_message_id", IntOpt(replyToMessageID), "reply_markup");
      LastSetOther(w9, "allow_sending_without_reply", BoolOpt(allowSendingWithoutReply), "reply_markup");
      LastSetSame(w10, "reply_markup", StrOpt(inlineKeyboardMarkup));
      LastSetSame(w11, "reply_markup", StrOpt(replyKeyboardMarkup));
      LastSetSame(w12, "reply_markup", StrOpt(replyKeyboardRemove));
      LastSetSame(w13, "reply_markup", StrOpt(forceReply));
      WrittenLastSet(w14, "reply_markup");
    }

    /** The calls write no key but these. */
    lemma PlanOnly()
      ensures OrEmpty(Written(Plan())).Keys <= {"chat_id", "video_note", "duration", "length", "message_thread_id", "disable_notification", "protect_content", "reply_to_message_id", "allow_sending_without_reply", "reply_markup"}
    {
      var w0 := NoWrites;
      var w1 := Then(w0, "chat_id", IntOpt(chatID));
      var w2 := Then(w1, "video_note", FileOpt(videoNote));
      var w3 := Then(w2, "video_note", StrOpt(videoNoteString));
      var w4 := Then(w3, "duration", IntOpt(duration));
      var w5 := Then(w4, "length", IntOpt(length));
      var w6 := Then(w5, "message_thread_id", IntOpt(messageThreadID));
      var w7 := Then(w6, "disable_notification", BoolOpt(disableNotification));
      var w8 := Then(w7, "protect_content", BoolOpt(protectContent));
      var w9 := Then(w8, "reply_to_message_id", IntOpt(replyToMessageID));
      var w10 := Then(w9, "allow_sending_without_reply", BoolOpt(allowSendingWithoutReply));
      var w11 := Then(w10, "reply_markup", StrOpt(inlineKeyboardMarkup));
      var w12 := Then(w11, "reply_markup", StrOpt(replyKeyboardMarkup));
      var w13 := Then(w12, "reply_markup", StrOpt(replyKeyboardRemove));
      var w14 := Then(w13, "reply_markup", StrOpt(forceReply));
      forall j | j !in {"chat_id", "video_note", "duration", "length", "message_thread_id", "disable_notification", "protect_content", "reply_to_message_id", "allow_sending_without_reply", "reply_markup"}
        ensures j !in OrEmpty(Written(w14))
      {
        LastSetOther(w0, "chat_id", IntOpt(chatID), j);
        LastSetOther(w1, "video_note", FileOpt(videoNote), j);
        LastSetOther(w2, "video_note", StrOpt(videoNoteString), j);
        LastSetOther(w3, "duration", IntOpt(duration), j);
        LastSetOther(w4, "length", IntOpt(length), j);
        LastSetOther(w5, "message_thread_id", IntOpt(messageThreadID), j);
        LastSetOther(w6, "disable_notification", BoolOpt(disableNotification), j);
        LastSetOther(w7, "protect_content", BoolOpt(protectContent), j);
        LastSetOther(w8, "reply_to_message_id", IntOpt(replyToMessageID), j);
        LastSetOther(w9, "allow_sending_without_reply", BoolOpt(allowSendingWithoutReply), j);
        LastSetOther(w10, "reply_markup", StrOpt(inlineKeyboardMarkup), j);
        LastSetOther(w11, "reply_markup", StrOpt(replyKeyboardMarkup), j);
        LastSetOther(w12, "reply_markup", StrOpt(replyKeyboardRemove), j);
        LastSetOther(w13, "reply_markup", StrOpt(forceReply), j);
        WrittenLastSet(w14, j);
      }
    }

    /** The request `Do` builds before it calls the API: the endpoint, and a query made
        by the `setParam` calls of `Plan`. */
    method Assemble() returns (r: Request)
      ensures fresh(r)
      ensures r.Fields() == RequestFields(MethodGet, "/sendVideoNote", Written(Plan()), None, None, None, "", [])
    {
      r := new Request(MethodGet, "/sendVideoNote");
      ghost var done := NoWrites;
      var _ := r.SetParamIfSet("chat_id", IntOpt(chatID), done);
      done := Then(done, "chat_id", IntOpt(chatID));
      var _ := r.SetParamIfSet("video_note", FileOpt(videoNote), done);
      done := Then(done, "video_note", FileOpt(videoNote));
      var _ := r.SetParamIfSet("video_note", StrOpt(videoNoteString), done);
      done := Then(done, "video_note", StrOpt(videoNoteString));
      var _ := r.SetParamIfSet("duration", IntOpt(duration), done);
      done := Then(done, "duration", IntOpt(duration));
      var _ := r.SetParamIfSet("length", IntOpt(length), done);
      done := Then(done, "length", IntOpt(length));
      var _ := r.SetParamIfSet("message_thread_id", IntOpt(messageThreadID), done);
      done := Then(done, "message_thread_id", IntOpt(messageThreadID));
      var _ := r.SetParamIfSet("disable_notification", BoolOpt(disableNotification), done);
      done := Then(done, "disable_notification", BoolOpt(disableNotification));
      var _ := r.SetParamIfSet("protect_content", BoolOpt(protectContent), done);
      done := Then(done, "protect_content", BoolOpt(protectContent));
      var _ := r.SetParamIfSet("reply_to_message_id", IntOpt(replyToMessageID), done);
      done := Then(done, "reply_to_message_id", IntOpt(replyToMessageID));
      var _ := r.SetParamIfSet("allow_sending_without_reply", BoolOpt(allowSendingWithoutReply), done);
      done := Then(done, "allow_sending_without_reply", BoolOpt(allowSendingWithoutReply));
      var _ := r.SetParamIfSet("reply_markup", StrOpt(inlineKeyboardMarkup), done);
      done := Then(done, "reply_markup", StrOpt(inlineKeyboardMarkup));
      var _ := r.SetParamIfSet("reply_markup", StrOpt(replyKeyboardMarkup), done);
      done := Then(done, "reply_markup", StrOpt(replyKeyboardMarkup));
      var _ := r.SetParamIfSet("reply_markup", StrOpt(replyKeyboardRemove), done);
      done := Then(done, "reply_markup", StrOpt(replyKeyboardRemove));
      var _ := r.SetParamIfSet("reply_markup", StrOpt(forceReply), done);
      done := Then(done, "reply_markup", StrOpt(forceReply));
      assert done == Plan();
    }

    /** `Do`: Always sets `chat_id`; sets each of the other keys only when its field is set; then calls the API. */
    method Do(opts: seq<RequestOption>) returns (assembled: RequestFields, res: Option<Bytes>, err: Option<Error>)
      requires chatID.Some?
      ensures assembled.httpMethod == MethodGet && assembled.endpoint == "/sendVideoNote"
      ensures assembled.form == None && assembled.header == None && assembled.body == None
      ensures assembled.fullURL == "" && assembled.json == []
      ensures Holds(Q(assembled), "chat_id", Int(chatID.value as int))
      ensures HoldsIfSet(Q(assembled), "video_note", Later(FileOpt(videoNote), StrOpt(videoNoteString)))
      ensures HoldsIfSet(Q(assembled), "duration", IntOpt(duration))
      ensures HoldsIfSet(Q(assembled), "length", IntOpt(length))
      ensures HoldsIfSet(Q(assembled), "message_thread_id", IntOpt(messageThreadID))
      ensures HoldsIfSet(Q(assembled), "disable_notification", BoolOpt(disableNotification))
      ensures HoldsIfSet(Q(assembled), "protect_content", BoolOpt(protectContent))
      ensures HoldsIfSet(Q(assembled), "reply_to_message_id", IntOpt(replyToMessageID))
      ensures HoldsIfSet(Q(assembled), "allow_sending_without_reply", BoolOpt(allowSendingWithoutReply))
      ensures HoldsIfSet(Q(assembled), "reply_markup", Later(Later(Later(StrOpt(inlineKeyboardMarkup), StrOpt(replyKeyboardMarkup)), StrOpt(replyKeyboardRemove)), StrOpt(forceReply)))
      ensures Q(assembled).Keys <= {"chat_id", "video_note", "duration", "length", "message_thread_id", "disable_notification", "protect_content", "reply_to_message_id", "allow_sending_without_reply", "reply_markup"}
      ensures var o := c.Outcome(assembled, opts);
        err == o.1 && res == (if o.1.Some? then None else o.0)
    {
      var r := Assemble();
      assembled := r.Fields();
      var data, e := c.CallAPI(r, opts);
      PlanOnly();
      PlanChatID();
      PlanVideoNote();
      PlanDuration();
      PlanLength();
      PlanMessageThreadID();
      PlanDisableNotification();
      PlanProtectContent();
      PlanReplyToMessageID();
      PlanAllowSendingWithoutReply();
      PlanReplyMarkup();
      if e.Some? {
        return assembled, None, e;
      }
      res, err := data, None;
    }
  }

  /** `SendMediaGroupService`: a GET request to `/sendMediaGroup`. */
  class SendMediaGroupService {
    const c: Client
    var chatID: Option<int64>
    var messageThreadID: Option<int64>
    var inputMediaAudio: Option<string>
    var inputMediaDocument: Option<string>
    var inputMediaPhoto: Option<string>
    var inputMediaVideo: Option<string>
    var disableNotification: Option<bool>
    var protectContent: Option<bool>
    var replyToMessageID: Option<int64>
    var allowSendingWithoutReply: Option<bool>

    /** `NewSendMediaGroupService`: every field starts out unset. */
    constructor (c: Client)
      ensures this.c == c
      ensures chatID == None && messageThreadID == None && inputMediaAudio == None
      ensures inputMediaDocument == None && inputMediaPhoto == None && inputMediaVideo == None
      ensures disableNotification == None && protectContent == None && replyToMessageID == None
      ensures allowSendingWithoutReply == None
    {
      this.c := c;
      chatID := None;
      messageThreadID := None;
      inputMediaAudio := None;
      inputMediaDocument := None;
      inputMediaPhoto := None;
      inputMediaVideo := None;
      disableNotification := None;
      protectContent := None;
      replyToMessageID := None;
      allowSendingWithoutReply := None;
    }

    /** `ChatID`: stores its argument in `chatID`. */
    method ChatID(chatID: int64) returns (t: SendMediaGroupService)
      modifies this`chatID
      ensures this.chatID == Some(chatID) && t == this
    {
      this.chatID := Some(chatID);
      t := this;
    }

    /** `MessageThreadID`: stores its argument in `messageThreadID`. */
    method MessageThreadID(messageThreadID: int64) returns (t: SendMediaGroupService)
      modifies this`messageThreadID
      ensures this.messageThreadID == Some(messageThreadID) && t == this
    {
      this.messageThreadID := Some(messageThreadID);
      t := this;
    }

    /** `DisableNotification`: stores its argument in `disableNotification`. */
    method DisableNotification(disableNotification: bool) returns (t: SendMediaGroupService)
      modifies this`disableNotification
      ensures this.disableNotification == Some(disableNotification) && t == this
    {
      this.disableNotification := Some(disableNotification);
      t := this;
    }

    /** `ProtectContent`: stores its argument in `protectContent`. */
    method ProtectContent(protectContent: bool) returns (t: SendMediaGroupService)
      modifies this`protectContent
      ensures this.protectContent == Some(protectContent) && t == this
    {
      this.protectContent := Some(protectContent);
      t := this;
    }

    /** `ReplyToMessageID`: stores its argument in `replyToMessageID`. */
    method ReplyToMessageID(replyToMessageID: int64) returns (t: SendMediaGroupService)
      modifies this`replyToMessageID
      ensures this.replyToMessageID == Some(replyToMessageID) && t == this
    {
      this.replyToMessageID := Some(replyToMessageID);
      t := this;
    }

    /** `AllowSendingWithoutReply`: stores its argument in `allowSendingWithoutReply`. */
    method AllowSendingWithoutReply(allowSendingWithoutReply: bool) returns (t: SendMediaGroupService)
      modifies this`allowSendingWithoutReply
      ensures this.allowSendingWithoutReply == Some(allowSendingWithoutReply) && t == this
    {
      this.allowSendingWithoutReply := Some(allowSendingWithoutReply);
      t := this;
    }

    /** `InputMediaAudio`: stores the JSON text of its argument in `inputMediaAudio`. `marshalled` is what
        `jsoniter.Marshal` makes of the argument, `None` when marshalling fails; then
        nothing changes and the result is nil. */
    method InputMediaAudio(marshalled: Option<string>) returns (t: SendMediaGroupService?)
      modifies this`inputMediaAudio
      ensures marshalled.None? ==> t == null && inputMediaAudio == old(inputMediaAudio)
      ensures marshalled.Some? ==> t == this && inputMediaAudio == marshalled
    {
      if marshalled.None? {
        return null;
      }
      inputMediaAudio := marshalled;
      t := this;
    }

    /** `InputMediaDocument`: stores the JSON text of its argument in `inputMediaDocument`. `marshalled` is what
        `jsoniter.Marshal` makes of the argument, `None` when marshalling fails; then
        nothing changes and the result is nil. */
    method InputMediaDocument(marshalled: Option<string>) returns (t: SendMediaGroupService?)
      modifies this`inputMediaDocument
      ensures marshalled.None? ==> t == null && inputMediaDocument == old(inputMediaDocument)
      ensures marshalled.Some? ==> t == this && inputMediaDocument == marshalled
    {
      if marshalled.None? {
        return null;
      }
      inputMediaDocument := marshalled;
      t := this;
    }

    /** `InputMediaPhoto`: stores the JSON text of its argument in `inputMediaPhoto`. `marshalled` is what
        `jsoniter.Marshal` makes of the argument, `None` when marshalling fails; then
        nothing changes and the result is nil. */
    method InputMediaPhoto(marshalled: Option<string>) returns (t: SendMediaGroupService?)
      modifies this`inputMediaPhoto
      ensures marshalled.None? ==> t == null && inputMediaPhoto == old(inputMediaPhoto)
      ensures marshalled.Some? ==> t == this && inputMediaPhoto == marshalled
    {
      if marshalled.None? {
        return null;
      }
      inputMediaPhoto := marshalled;
      t := this;
    }

    /** `MediaInputMediaVideo`: stores the JSON text of its argument in `inputMediaVideo`. `marshalled` is what
        `jsoniter.Marshal` makes of the argument, `None` when marshalling fails; then
        nothing changes and the result is nil. */
    method MediaInputMediaVideo(marshalled: Option<string>) returns (t: SendMediaGroupService?)
      modifies this`inputMediaVideo
      ensures marshalled.None? ==> t == null && inputMediaVideo == old(inputMediaVideo)
      ensures marshalled.Some? ==> t == this && inputMediaVideo == marshalled
    {
      if marshalled.None? {
        return null;
      }
      inputMediaVideo := marshalled;
      t := this;
    }

    /** The `setParam` calls `Do` makes, in order; a call that is skipped because its
        field is unset has value `None`. */
    ghost function Plan(): Writes
      reads this
    {
      var w1 := Then(NoWrites, "chat_id", IntOpt(chatID));
      var w2 := Then(w1, "message_thread_id", IntOpt(messageThreadID));
      var w3 := Then(w2, "disable_notification", BoolOpt(disableNotification));
      var w4 := Then(w3, "protect_content", BoolOpt(protectContent));
      var w5 := Then(w4, "reply_to_message_id", IntOpt(replyToMessageID));
      var w6 := Then(w5, "allow_sending_without_reply", BoolOpt(allowSendingWithoutReply));
      var w7 := Then(w6, "media", StrOpt(inputMediaAudio));
      var w8 := Then(w7, "media", StrOpt(inputMediaDocument));
      var w9 := Then(w8, "media", StrOpt(inputMediaPhoto));
      var w10 := Then(w9, "media", StrOpt(inputMediaVideo));
      w10
    }

    /** The value the calls leave at `chat_id`. */
    lemma PlanChatID()
      ensures HoldsIfSet(OrEmpty(Written(Plan())), "chat_id", IntOpt(chatID))
    {
      var w0 := NoWrites;
      var w1 := Then(w0, "chat_id", IntOpt(chatID));
      var w2 := Then(w1, "message_thread_id", IntOpt(messageThreadID));
      var w3 := Then(w2, "disable_notification", BoolOpt(disableNotification));
      var w4 := Then(w3, "protect_content", BoolOpt(protectContent));
      var w5 := Then(w4, "reply_to_message_id", IntOpt(replyToMessageID));
      var w6 := Then(w5, "allow_sending_without_reply", BoolOpt(allowSendingWithoutReply));
      var w7 := Then(w6, "media", StrOpt(inputMediaAudio));
      var w8 := Then(w7, "media", StrOpt(inputMediaDocument));
      var w9 := Then(w8, "media", StrOpt(inputMediaPhoto));
      var w10 := Then(w9, "media", StrOpt(inputMediaVideo));
      LastSetOther(w1, "message_thread_id", IntOpt(messageThreadID), "chat_id");
      LastSetOther(w2, "disable_notification", BoolOpt(disableNotification), "chat_id");
      LastSetOther(w3, "protect_content", BoolOpt(protectContent), "chat_id");
      LastSetOther(w4, "reply_to_message_id", IntOpt(replyToMessageID), "chat_id");
      LastSetOther(w5, "allow_sending_without_reply", BoolOpt(allowSendingWithoutReply), "chat_id");
      LastSetOther(w6, "media", StrOpt(inputMediaAudio), "chat_id");
      LastSetOther(w7, "media", StrOpt(inputMediaDocument), "chat_id");
      LastSetOther(w8, "media", StrOpt(inputMediaPhoto), "chat_id");
      LastSetOther(w9, "media", StrOpt(inputMediaVideo), "chat_id");
      WrittenLastSet(w10, "chat_id");
    }

    /** The value the calls leave at `message_thread_id`. */
    lemma PlanMessageThreadID()
      ensures HoldsIfSet(OrEmpty(Written(Plan())), "message_thread_id", IntOpt(messageThreadID))
    {
      var w0 := NoWrites;
      var w1 := Then(w0, "chat_id", IntOpt(chatID));
      var w2 := Then(w1, "message_thread_id", IntOpt(messageThreadID));
      var w3 := Then(w2, "disable_notification", BoolOpt(disableNotification));
      var w4 := Then(w3, "protect_content", BoolOpt(protectContent));
      var w5 := Then(w4, "reply_to_message_id", IntOpt(replyToMessageID));
      var w6 := Then(w5, "allow_sending_without_reply", BoolOpt(allowSendingWithoutReply));
      var w7 := Then(w6, "media", StrOpt(inputMediaAudio));
      var w8 := Then(w7, "media", StrOpt(inputMediaDocument));
      var w9 := Then(w8, "media", StrOpt(inputMediaPhoto));
      var w10 := Then(w9, "media", StrOpt(inputMediaVideo));
      LastSetOther(w0, "chat_id", IntOpt(chatID), "message_thread_id");
      LastSetOther(w2, "disable_notification", BoolOpt(disableNotification), "message_thread_id");
      LastSetOther(w3, "protect_content", BoolOpt(protectContent), "message_thread_id");
      LastSetOther(w4, "reply_to_message_id", IntOpt(replyToMessageID), "message_thread_id");
      LastSetOther(w5, "allow_sending_without_reply", BoolOpt(allowSendingWithoutReply), "message_thread_id");
      LastSetOther(w6, "media", StrOpt(inputMediaAudio), "message_thread_id");
      LastSetOther(w7, "media", StrOpt(inputMediaDocument), "message_thread_id");
      LastSetOther(w8, "media", StrOpt(inputMediaPhoto), "message_thread_id");
      LastSetOther(w9, "media", StrOpt(inputMediaVideo), "message_thread_id");
      WrittenLastSet(w10, "message_thread_id");
    }

    /** The value the calls leave at `disable_notification`. */
    lemma PlanDisableNotification()
      ensures HoldsIfSet(OrEmpty(Written(Plan())), "disable_notification", BoolOpt(disableNotification))
    {
      var w0 := NoWrites;
      var w1 := Then(w0, "chat_id", IntOpt(chatID));
      var w2 := Then(w1, "message_thread_id", IntOpt(messageThreadID));
      var w3 := Then(w2, "disable_notification", BoolOpt(disableNotification));
      var w4 := Then(w3, "protect_content", BoolOpt(protectContent));
      var w5 := Then(w4, "reply_to_message_id", IntOpt(replyToMessageID));
      var w6 := Then(w5, "allow_sending_without_reply", BoolOpt(allowSendingWithoutReply));
      var w7 := Then(w6, "media", StrOpt(inputMediaAudio));
      var w8 := Then(w7, "media", StrOpt(inputMediaDocument));
      var w9 := Then(w8, "media", StrOpt(inputMediaPhoto));
      var w10 := Then(w9, "media", StrOpt(inputMediaVideo));
      LastSetOther(w0, "chat_id", IntOpt(chatID), "disable_notification");
      LastSetOther(w1, "message_thread_id", IntOpt(messageThreadID), "disable_notification");
      LastSetOther(w3, "protect_content", BoolOpt(protectContent), "disable_notification");
      LastSetOther(w4, "reply_to_message_id", IntOpt(replyToMessageID), "disable_notification");
      LastSetOther(w5, "allow_sending_without_reply", BoolOpt(allowSendingWithoutReply), "disable_notification");
      LastSetOther(w6, "media", StrOpt(inputMediaAudio), "disable_notification");
      LastSetOther(w7, "media", StrOpt(inputMediaDocument), "disable_notification");
      LastSetOther(w8, "media", StrOpt(inputMediaPhoto), "disable_notification");
      LastSetOther(w9, "media", StrOpt(inputMediaVideo), "disable_notification");
      WrittenLastSet(w10, "disable_notification");
    }

    /** The value the calls leave at `protect_content`. */
    lemma PlanProtectContent()
      ensures HoldsIfSet(OrEmpty(Written(Plan())), "protect_content", BoolOpt(protectContent))
    {
      var w0 := NoWrites;
      var w1 := Then(w0, "chat_id", IntOpt(chatID));
      var w2 := Then(w1, "message_thread_id", IntOpt(messageThreadID));
      var w3 := Then(w2, "disable_notification", BoolOpt(disableNotification));
      var w4 := Then(w3, "protect_content", BoolOpt(protectContent));
      var w5 := Then(w4, "reply_to_message_id", IntOpt(replyToMessageID));
      var w6 := Then(w5, "allow_sending_without_reply", BoolOpt(allowSendingWithoutReply));
      var w7 := Then(w6, "media", StrOpt(inputMediaAudio));
      var w8 := Then(w7, "media", StrOpt(inputMediaDocument));
      var w9 := Then(w8, "media", StrOpt(inputMediaPhoto));
      var w10 := Then(w9, "media", StrOpt(inputMediaVideo));
      LastSetOther(w0, "chat_id", IntOpt(chatID), "protect_content");
      LastSetOther(w1, "message_thread_id", IntOpt(messageThreadID), "protect_content");
      LastSetOther(w2, "disable_notification", BoolOpt(disableNotification), "protect_content");
      LastSetOther(w4, "reply_to_message_id", IntOpt(replyToMessageID), "protect_content");
      LastSetOther(w5, "allow_sending_without_reply", BoolOpt(allowSendingWithoutReply), "protect_content");
      LastSetOther(w6, "media", StrOpt(inputMediaAudio), "protect_content");
      LastSetOther(w7, "media", StrOpt(inputMediaDocument), "protect_content");
      LastSetOther(w8, "media", StrOpt(inputMediaPhoto), "protect_content");
      LastSetOther(w9, "media", StrOpt(inputMediaVideo), "protect_content");
      WrittenLastSet(w10, "protect_content");
    }

    /** The value the calls leave at `reply_to_message_id`. */
    lemma PlanReplyToMessageID()
      ensures HoldsIfSet(OrEmpty(Written(Plan())), "reply_to_message_id", IntOpt(replyToMessageID))
    {
      var w0 := NoWrites;
      var w1 := Then(w0, "chat_id", IntOpt(chatID));
      var w2 := Then(w1, "message_thread_id", IntOpt(messageThreadID));
      var w3 := Then(w2, "disable_notification", BoolOpt(disableNotification));
      var w4 := Then(w3, "protect_content", BoolOpt(protectContent));
      var w5 := Then(w4, "reply_to_message_id", IntOpt(replyToMessageID));
      var w6 := Then(w5, "allow_sending_without_reply", BoolOpt(allowSendingWithoutReply));
      var w7 := Then(w6, "media", StrOpt(inputMediaAudio));
      var w8 := Then(w7, "media", StrOpt(inputMediaDocument));
      var w9 := Then(w8, "media", StrOpt(inputMediaPhoto));
      var w10 := Then(w9, "media", StrOpt(inputMediaVideo));
      LastSetOther(w0, "chat_id", IntOpt(chatID), "reply_to_message_id");
      LastSetOther(w1, "message_thread_id", IntOpt(messageThreadID), "reply_to_message_id");
      LastSetOther(w2, "disable_notification", BoolOpt(disableNotification), "reply_to_message_id");
      LastSetOther(w3, "protect_content", BoolOpt(protectContent), "reply_to_message_id");
      LastSetOther(w5, "allow_sending_without_reply", BoolOpt(allowSendingWithoutReply), "reply_to_message_id");
      LastSetOther(w6, "media", StrOpt(inputMediaAudio), "reply_to_message_id");
      LastSetOther(w7, "media", StrOpt(inputMediaDocument), "reply_to_message_id");
      LastSetOther(w8, "media", StrOpt(inputMediaPhoto), "reply_to_message_id");
      LastSetOther(w9, "media", StrOpt(inputMediaVideo), "reply_to_message_id");
      WrittenLastSet(w10, "reply_to_message_id");
    }

    /** The value the calls leave at `allow_sending_without_reply`. */
    lemma PlanAllowSendingWithoutReply()
      ensures HoldsIfSet(OrEmpty(Written(Plan())), "allow_sending_without_reply", BoolOpt(allowSendingWithoutReply))
    {
      var w0 := NoWrites;
      var w1 := Then(w0, "chat_id", IntOpt(chatID));
      var w2 := Then(w1, "message_thread_id", IntOpt(messageThreadID));
      var w3 := Then(w2, "disable_notification", BoolOpt(disableNotification));
      var w4 := Then(w3, "protect_content", BoolOpt(protectContent));
      var w5 := Then(w4, "reply_to_message_id", IntOpt(replyToMessageID));
      var w6 := Then(w5, "allow_sending_without_reply", BoolOpt(allowSendingWithoutReply));
      var w7 := Then(w6, "media", StrOpt(inputMediaAudio));
      var w8 := Then(w7, "media", StrOpt(inputMediaDocument));
      var w9 := Then(w8, "media", StrOpt(inputMediaPhoto));
      var w10 := Then(w9, "media", StrOpt(inputMediaVideo));
      LastSetOther(w0, "chat_id", IntOpt(chatID), "allow_sending_without_reply");
      LastSetOther(w1, "message_thread_id", IntOpt(messageThreadID), "allow_sending_without_reply");
      LastSetOther(w2, "disable_notification", BoolOpt(disableNotification), "allow_sending_without_reply");
      LastSetOther(w3, "protect_content", BoolOpt(protectContent), "allow_sending_without_reply");
      LastSetOther(w4, "reply_to_message_id", IntOpt(replyToMessageID), "allow_sending_without_reply");
      LastSetOther(w6, "media", StrOpt(inputMediaAudio), "allow_sending_without_reply");
      LastSetOther(w7, "media", StrOpt(inputMediaDocument), "allow_sending_without_reply");
      LastSetOther(w8, "media", StrOpt(inputMediaPhoto), "allow_sending_without_reply");
      LastSetOther(w9, "media", StrOpt(inputMediaVideo), "allow_sending_without_reply");
      WrittenLastSet(w10, "allow_sending_without_reply");
    }

    /** The value the calls leave at `media`: the last one set. */
    lemma PlanMedia()
      ensures HoldsIfSet(OrEmpty(Written(Plan())), "media", Later(Later(Later(StrOpt(inputMediaAudio), StrOpt(inputMediaDocument)), StrOpt(inputMediaPhoto)), StrOpt(inputMediaVideo)))
    {
      var w0 := NoWrites;
      var w1 := Then(w0, "chat_id", IntOpt(chatID));
      var w2 := Then(w1, "message_thread_id", IntOpt(messageThreadID));
      var w3 := Then(w2, "disable_notification", BoolOpt(disableNotification));
      var w4 := Then(w3, "protect_content", BoolOpt(protectContent));
      var w5 := Then(w4, "reply_to_message_id", IntOpt(replyToMessageID));
      var w6 := Then(w5, "allow_sending_without_reply", BoolOpt(allowSendingWithoutReply));
      var w7 := Then(w6, "media", StrOpt(inputMediaAudio));
      var w8 := Then(w7, "media", StrOpt(inputMediaDocument));
      var w9 := Then(w8, "media", StrOpt(inputMediaPhoto));
      var w10 := Then(w9, "media", StrOpt(inputMediaVideo));
      LastSetOther(w0, "chat_id", IntOpt(chatID), "media");
      LastSetOther(w1, "message_thread_id", IntOpt(messageThreadID), "media");
      LastSetOther(w2, "disable_notification", BoolOpt(disableNotification), "media");
      LastSetOther(w3, "protect_content", BoolOpt(protectContent), "media");
      LastSetOther(w4, "reply_to_message_id", IntOpt(replyToMessageID), "media");
      LastSetOther(w5, "allow_sending_without_reply", BoolOpt(allowSendingWithoutReply), "media");
      LastSetSame(w6, "media", StrOpt(inputMediaAudio));
      LastSetSame(w7, "media", StrOpt(inputMediaDocument));
      LastSetSame(w8, "media", StrOpt(inputMediaPhoto));
      LastSetSame(w9, "media", StrOpt(inputMediaVideo));
      WrittenLastSet(w10, "media");
    }

    /** The calls write no key but these. */
    lemma PlanOnly()
      ensures OrEmpty(Written(Plan())).Keys <= {"chat_id", "message_thread_id", "disable_notification", "protect_content", "reply_to_message_id", "allow_sending_without_reply", "media"}
    {
      var w0 := NoWrites;
      var w1 := Then(w0, "chat_id", IntOpt(chatID));
      var w2 := Then(w1, "message_thread_id", IntOpt(messageThreadID));
      var w3 := Then(w2, "disable_notification", BoolOpt(disableNotification));
      var w4 := Then(w3, "protect_content", BoolOpt(protectContent));
      var w5 := Then(w4, "reply_to_message_id", IntOpt(replyToMessageID));
      var w6 := Then(w5, "allow_sending_without_reply", BoolOpt(allowSendingWithoutReply));
      var w7 := Then(w6, "media", StrOpt(inputMediaAudio));
      var w8 := Then(w7, "media", StrOpt(inputMediaDocument));
      var w9 := Then(w8, "media", StrOpt(inputMediaPhoto));
      var w10 := Then(w9, "media", StrOpt(inputMediaVideo));
      forall j | j !in {"chat_id", "message_thread_id", "disable_notification", "protect_content", "reply_to_message_id", "allow_sending_without_reply", "media"}
        ensures j !in OrEmpty(Written(w10))
      {
        LastSetOther(w0, "chat_id", IntOpt(chatID), j);
        LastSetOther(w1, "message_thread_id", IntOpt(messageThreadID), j);
        LastSetOther(w2, "disable_notification", BoolOpt(disableNotification), j);
        LastSetOther(w3, "protect_content", BoolOpt(protectContent), j);
        LastSetOther(w4, "reply_to_message_id", IntOpt(replyToMessageID), j);
        LastSetOther(w5, "allow_sending_without_reply", BoolOpt(allowSendingWithoutReply), j);
        LastSetOther(w6, "media", StrOpt(inputMediaAudio), j);
        LastSetOther(w7, "media", StrOpt(inputMediaDocument), j);
        LastSetOther(w8, "media", StrOpt(inputMediaPhoto), j);
        LastSetOther(w9, "media", StrOpt(inputMediaVideo), j);
        WrittenLastSet(w10, j);
      }
    }

    /** The request `Do` builds before it calls the API: the endpoint, and a query made
        by the `setParam` calls of `Plan`. */
    method Assemble() returns (r: Request)
      ensures fresh(r)
      ensures r.Fields() == RequestFields(MethodGet, "/sendMediaGroup", Written(Plan()), None, None, None, "", [])
    {
      r := new Request(MethodGet, "/sendMediaGroup");
      ghost var done := NoWrites;
      var _ := r.SetParamIfSet("chat_id", IntOpt(chatID), done);
      done := Then(done, "chat_id", IntOpt(chatID));
      var _ := r.SetParamIfSet("message_thread_id", IntOpt(messageThreadID), done);
      done := Then(done, "message_thread_id", IntOpt(messageThreadID));
      var _ := r.SetParamIfSet("disable_notification", BoolOpt(disableNotification), done);
      done := Then(done, "disable_notification", BoolOpt(disableNotification));
      var _ := r.SetParamIfSet("protect_content", BoolOpt(protectContent), done);
      done := Then(done, "protect_content", BoolOpt(protectContent));
      var _ := r.SetParamIfSet("reply_to_message_id", IntOpt(replyToMessageID), done);
      done := Then(done, "reply_to_message_id", IntOpt(replyToMessageID));
      var _ := r.SetParamIfSet("allow_sending_without_reply", BoolOpt(allowSendingWithoutReply), done);
      done := Then(done, "allow_sending_without_reply", BoolOpt(allowSendingWithoutReply));
      var _ := r.SetParamIfSet("media", StrOpt(inputMediaAudio), done);
      done := Then(done, "media", StrOpt(inputMediaAudio));
      var _ := r.SetParamIfSet("media", StrOpt(inputMediaDocument), done);
      done := Then(done, "media", StrOpt(inputMediaDocument));
      var _ := r.SetParamIfSet("media", StrOpt(inputMediaPhoto), done);
      done := Then(done, "media", StrOpt(inputMediaPhoto));
      var _ := r.SetParamIfSet("media", StrOpt(inputMediaVideo), done);
      done := Then(done, "media", StrOpt(inputMediaVideo));
      assert done == Plan();
    }

    /** `Do`: Always sets `chat_id`; sets each of the other keys only when its field is set; then calls the API. */
    method Do(opts: seq<RequestOption>) returns (assembled: RequestFields, res: Option<Bytes>, err: Option<Error>)
      requires chatID.Some?
      ensures assembled.httpMethod == MethodGet && assembled.endpoint == "/sendMediaGroup"
      ensures assembled.form == None && assembled.header == None && assembled.body == None
      ensures assembled.fullURL == "" && assembled.json == []
      ensures Holds(Q(assembled), "chat_id", Int(chatID.value as int))
      ensures HoldsIfSet(Q(assembled), "message_thread_id", IntOpt(messageThreadID))
      ensures HoldsIfSet(Q(assembled), "disable_notification", BoolOpt(disableNotification))
      ensures HoldsIfSet(Q(assembled), "protect_content", BoolOpt(protectContent))
      ensures HoldsIfSet(Q(assembled), "reply_to_message_id", IntOpt(replyToMessageID))
      ensures HoldsIfSet(Q(assembled), "allow_sending_without_reply", BoolOpt(allowSendingWithoutReply))
      ensures HoldsIfSet(Q(assembled), "media", Later(Later(Later(StrOpt(inputMediaAudio), StrOpt(inputMediaDocument)), StrOpt(inputMediaPhoto)), StrOpt(inputMediaVideo)))
      ensures Q(assembled).Keys <= {"chat_id", "message_thread_id", "disable_notification", "protect_content", "reply_to_message_id", "allow_sending_without_reply", "media"}
      ensures var o := c.Outcome(assembled, opts);
        err == o.1 && res == (if o.1.Some? then None else o.0)
    {
      var r := Assemble();
      assembled := r.Fields();
      var data, e := c.CallAPI(r, opts);
      PlanOnly();
      PlanChatID();
      PlanMessageThreadID();
      PlanDisableNotification();
      PlanProtectContent();
      PlanReplyToMessageID();
      PlanAllowSendingWithoutReply();
      PlanMedia();
      if e.Some? {
        return assembled, None, e;
      }
      res, err := data, None;
    }
  }

  /** `SendLocationService`: a GET request to `/sendLocation`. */
  class SendLocationService {
    const c: Client
    var chatID: Option<int64>
    var messageThreadID: Option<int64>
    var latitude: Option<Float64>
    var longitude: Option<Float64>
    var horizontalAccuracy: Option<Float64>
    var livePeriod: Option<int64>
    var heading: Option<int64>
    var proximityAlertRadius: Option<int64>
    var disableNotification: Option<bool>
    var protectContent: Option<bool>
    var replyToMessageID: Option<int64>
    var allowSendingWithoutReply: Option<bool>
    var inlineKeyboardMarkup: Option<string>
    var replyKeyboardMarkup: Option<string>
    var replyKeyboardRemove: Option<string>
    var forceReply: Option<string>

    /** `NewSendLocationService`: every field starts out unset. */
    constructor (c: Client)
      ensures this.c == c
      ensures chatID == None && messageThreadID == None && latitude == None
      ensures longitude == None && horizontalAccuracy == None && livePeriod == None
      ensures heading == None && proximityAlertRadius == None && disableNotification == None
      ensures protectContent == None && replyToMessageID == None && allowSendingWithoutReply == None
      ensures inlineKeyboardMarkup == None && replyKeyboardMarkup == None && replyKeyboardRemove == None
      ensures forceReply == None
    {
      this.c := c;
      chatID := None;
      messageThreadID := None;
      latitude := None;
      longitude := None;
      horizontalAccuracy := None;
      livePeriod := None;
      heading := None;
      proximityAlertRadius := None;
      disableNotification := None;
      protectContent := None;
      replyToMessageID := None;
      allowSendingWithoutReply := None;
      inlineKeyboardMarkup := None;
      replyKeyboardMarkup := None;
      replyKeyboardRemove := None;
      forceReply := None;
    }

    /** `ChatID`: stores its argument in `chatID`. */
    method ChatID(chatID: int64) returns (t: SendLocationService)
      modifies this`chatID
      ensures this.chatID == Some(chatID) && t == this
    {
      this.chatID := Some(chatID);
      t := this;
    }

    /** `MessageThreadID`: stores its argument in `messageThreadID`. */
    method MessageThreadID(messageThreadID: int64) returns (t: SendLocationService)
      modifies this`messageThreadID
      ensures this.messageThreadID == Some(messageThreadID) && t == this
    {
      this.messageThreadID := Some(messageThreadID);
      t := this;
    }

    /** `Latitude`: stores its argument in `latitude`. */
    method Latitude(latitude: Float64) returns (t: SendLocationService)
      modifies this`latitude
      ensures this.latitude == Some(latitude) && t == this
    {
      this.latitude := Some(latitude);
      t := this;
    }

    /** `Longitude`: stores its argument in `longitude`. */
    method Longitude(longitude: Float64) returns (t: SendLocationService)
      modifies this`longitude
      ensures this.longitude == Some(longitude) && t == this
    {
      this.longitude := Some(longitude);
      t := this;
    }

    /** `HorizontalAccuracy`: stores its argument in `horizontalAccuracy`. */
    method HorizontalAccuracy(horizontalAccuracy: Float64) returns (t: SendLocationService)
      modifies this`horizontalAccuracy
      ensures this.horizontalAccuracy == Some(horizontalAccuracy) && t == this
    {
      this.horizontalAccuracy := Some(horizontalAccuracy);
      t := this;
    }

    /** `LivePeriod`: stores its argument in `livePeriod`. */
    method LivePeriod(livePeriod: int64) returns (t: SendLocationService)
      modifies this`livePeriod
      ensures this.livePeriod == Some(livePeriod) && t == this
    {
      this.livePeriod := Some(livePeriod);
      t := this;
    }

    /** `Heading`: stores its argument in `heading`. */
    method Heading(heading: int64) returns (t: SendLocationService)
      modifies this`heading
      ensures this.heading == Some(heading) && t == this
    {
      this.heading := Some(heading);
      t := this;
    }

    /** `ProximityAlertRadius`: stores its argument in `proximityAlertRadius`. */
    method ProximityAlertRadius(proximityAlertRadius: int64) returns (t: SendLocationService)
      modifies this`proximityAlertRadius
      ensures this.proximityAlertRadius == Some(proximityAlertRadius) && t == this
    {
      this.proximityAlertRadius := Some(proximityAlertRadius);
      t := this;
    }

    /** `DisableNotification`: stores its argument in `disableNotification`. */
    method DisableNotification(disableNotification: bool) returns (t: SendLocationService)
      modifies this`disableNotification
      ensures this.disableNotification == Some(disableNotification) && t == this
    {
      this.disableNotification := Some(disableNotification);
      t := this;
    }

    /** `ProtectContent`: stores its argument in `protectContent`. */
    method ProtectContent(protectContent: bool) returns (t: SendLocationService)
      modifies this`protectContent
      ensures this.protectContent == Some(protectContent) && t == this
    {
      this.protectContent := Some(protectContent);
      t := this;
    }

    /** `ReplyToMessageID`: stores its argument in `replyToMessageID`. */
    method ReplyToMessageID(replyToMessageID: int64) returns (t: SendLocationService)
      modifies this`replyToMessageID
      ensures this.replyToMessageID == Some(replyToMessageID) && t == this
    {
      this.replyToMessageID := Some(replyToMessageID);
      t := this;
    }

    /** `AllowSendingWithoutReply`: stores its argument in `allowSendingWithoutReply`. */
    method AllowSendingWithoutReply(allowSendingWithoutReply: bool) returns (t: SendLocationService)
      modifies this`allowSendingWithoutReply
      ensures this.allowSendingWithoutReply == Some(allowSendingWithoutReply) && t == this
    {
      this.allowSendingWithoutReply := Some(allowSendingWithoutReply);
      t := this;
    }

    /** `InlineKeyboardMarkup`: stores the JSON text of its argument in `inlineKeyboardMarkup`. `marshalled` is what
        `jsoniter.Marshal` makes of the argument, `None` when marshalling fails; then
        nothing changes and the result is nil. */
    method InlineKeyboardMarkup(marshalled: Option<string>) returns (t: SendLocationService?)
      modifies this`inlineKeyboardMarkup
      ensures marshalled.None? ==> t == null && inlineKeyboardMarkup == old(inlineKeyboardMarkup)
      ensures marshalled.Some? ==> t == this && inlineKeyboardMarkup == marshalled
    {
      if marshalled.None? {
        return null;
      }
      inlineKeyboardMarkup := marshalled;
      t := this;
    }

    /** `ReplyKeyboardMarkup`: stores the JSON text of its argument in `replyKeyboardMarkup`. `marshalled` is what
        `jsoniter.Marshal` makes of the argument, `None` when marshalling fails; then
        nothing changes and the result is nil. */
    method ReplyKeyboardMarkup(marshalled: Option<string>) returns (t: SendLocationService?)
      modifies this`replyKeyboardMarkup
      ensures marshalled.None? ==> t == null && replyKeyboardMarkup == old(replyKeyboardMarkup)
      ensures marshalled.Some? ==> t == this && replyKeyboardMarkup == marshalled
    {
      if marshalled.None? {
        return null;
      }
      replyKeyboardMarkup := marshalled;
      t := this;
    }

    /** `ReplyKeyboardRemove`: stores the JSON text of its argument in `replyKeyboardRemove`. `marshalled` is what
        `jsoniter.Marshal` makes of the argument, `None` when marshalling fails; then
        nothing changes and the result is nil. */
    method ReplyKeyboardRemove(marshalled: Option<string>) returns (t: SendLocationService?)
      modifies this`replyKeyboardRemove
      ensures marshalled.None? ==> t == null && replyKeyboardRemove == old(replyKeyboardRemove)
      ensures marshalled.Some? ==> t == this && replyKeyboardRemove == marshalled
    {
      if marshalled.None? {
        return null;
      }
      replyKeyboardRemove := marshalled;
      t := this;
    }

    /** `ForceReply`: stores the JSON text of its argument in `forceReply`. `marshalled` is what
        `jsoniter.Marshal` makes of the argument, `None` when marshalling fails; then
        nothing changes and the result is nil. */
    method ForceReply(marshalled: Option<string>) returns (t: SendLocationService?)
      modifies this`forceReply
      ensures marshalled.None? ==> t == null && forceReply == old(forceReply)
      ensures marshalled.Some? ==> t == this && forceReply == marshalled
    {
      if marshalled.None? {
        return null;
      }
      forceReply := marshalled;
      t := this;
    }

    /** The `setParam` calls `Do` makes, in order; a call that is skipped because its
        field is unset has value `None`. */
    ghost function Plan(): Writes
      reads this
    {
      var w1 := Then(NoWrites, "chat_id", IntOpt(chatID));
      var w2 := Then(w1, "latitude", FloatOpt(latitude));
      var w3 := Then(w2, "longitude", FloatOpt(longitude));
      var w4 := Then(w3, "horizontal_accuracy", FloatOpt(horizontalAccuracy));
      var w5 := Then(w4, "live_period", IntOpt(livePeriod));
      var w6 := Then(w5, "heading", IntOpt(heading));
      var w7 := Then(w6, "proximity_alert_radius", IntOpt(proximityAlertRadius));
      var w8 := Then(w7, "message_thread_id", IntOpt(messageThreadID));
      var w9 := Then(w8, "disable_notification", BoolOpt(disableNotification));
      var w10 := Then(w9, "protect_content", BoolOpt(protectContent));
      var w11 := Then(w10, "reply_to_message_id", IntOpt(replyToMessageID));
      var w12 := Then(w11, "allow_sending_without_reply", BoolOpt(allowSendingWithoutReply));
      var w13 := Then(w12, "reply_markup", StrOpt(inlineKeyboardMarkup));
      var w14 := Then(w13, "reply_markup", StrOpt(replyKeyboardMarkup));
      var w15 := Then(w14, "reply_markup", StrOpt(replyKeyboardRemove));
      var w16 := Then(w15, "reply_markup", StrOpt(forceReply));
      w16
    }

    /** The value the calls leave at `chat_id`. */
    lemma PlanChatID()
      ensures HoldsIfSet(OrEmpty(Written(Plan())), "chat_id", IntOpt(chatID))
    {
      var w0 := NoWrites;
      var w1 := Then(w0, "chat_id", IntOpt(chatID));
      var w2 := Then(w1, "latitude", FloatOpt(latitude));
      var w3 := Then(w2, "longitude", FloatOpt(longitude));
      var w4 := Then(w3, "horizontal_accuracy", FloatOpt(horizontalAccuracy));
      var w5 := Then(w4, "live_period", IntOpt(livePeriod));
      var w6 := Then(w5, "heading", IntOpt(heading));
      var w7 := Then(w6, "proximity_alert_radius", IntOpt(proximityAlertRadius));
      var w8 := Then(w7, "message_thread_id", IntOpt(messageThreadID));
      var w9 := Then(w8, "disable_notification", BoolOpt(disableNotification));
      var w10 := Then(w9, "protect_content", BoolOpt(protectContent));
      var w11 := Then(w10, "reply_to_message_id", IntOpt(replyToMessageID));
      var w12 := Then(w11, "allow_sending_without_reply", BoolOpt(allowSendingWithoutReply));
      var w13 := Then(w12, "reply_markup", StrOpt(inlineKeyboardMarkup));
      var w14 := Then(w13, "reply_markup", StrOpt(replyKeyboardMarkup));
      var w15 := Then(w14, "reply_markup", StrOpt(replyKeyboardRemove));
      var w16 := Then(w15, "reply_markup", StrOpt(forceReply));
      LastSetOther(w1, "latitude", FloatOpt(latitude), "chat_id");
      LastSetOther(w2, "longitude", FloatOpt(longitude), "chat_id");
      LastSetOther(w3, "horizontal_accuracy", FloatOpt(horizontalAccuracy), "chat_id");
      LastSetOther(w4, "live_period", IntOpt(livePeriod), "chat_id");
      LastSetOther(w5, "heading", IntOpt(heading), "chat_id");
      LastSetOther(w6, "proximity_alert_radius", IntOpt(proximityAlertRadius), "chat_id");
      LastSetOther(w7, "message_thread_id", IntOpt(messageThreadID), "chat_id");
      LastSetOther(w8, "disable_notification", BoolOpt(disableNotification), "chat_id");
      LastSetOther(w9, "protect_content", BoolOpt(protectContent), "chat_id");
      LastSetOther(w10, "reply_to_message_id", IntOpt(replyToMessageID), "chat_id");
      LastSetOther(w11, "allow_sending_without_reply", BoolOpt(allowSendingWithoutReply), "chat_id");
      LastSetOther(w12, "reply_markup", StrOpt(inlineKeyboardMarkup), "chat_id");
      LastSetOther(w13, "reply_markup", StrOpt(replyKeyboardMarkup), "chat_id");
      LastSetOther(w14, "reply_markup", StrOpt(replyKeyboardRemove), "chat_id");
      LastSetOther(w15, "reply_markup", StrOpt(forceReply), "chat_id");
      WrittenLastSet(w16, "chat_id");
    }

    /** The value the calls leave at `latitude`. */
    lemma PlanLatitude()
      ensures HoldsIfSet(OrEmpty(Written(Plan())), "latitude", FloatOpt(latitude))
    {
      var w0 := NoWrites;
      var w1 := Then(w0, "chat_id", IntOpt(chatID));
      var w2 := Then(w1, "latitude", FloatOpt(latitude));
      var w3 := Then(w2, "longitude", FloatOpt(longitude));
      var w4 := Then(w3, "horizontal_accuracy", FloatOpt(horizontalAccuracy));
      var w5 := Then(w4, "live_period", IntOpt(livePeriod));
      var w6 := Then(w5, "heading", IntOpt(heading));
      var w7 := Then(w6, "proximity_alert_radius", IntOpt(proximityAlertRadius));
      var w8 := Then(w7, "message_thread_id", IntOpt(messageThreadID));
      var w9 := Then(w8, "disable_notification", BoolOpt(disableNotification));
      var w10 := Then(w9, "protect_content", BoolOpt(protectContent));
      var w11 := Then(w10, "reply_to_message_id", IntOpt(replyToMessageID));
      var w12 := Then(w11, "allow_sending_without_reply", BoolOpt(allowSendingWithoutReply));
      var w13 := Then(w12, "reply_markup", StrOpt(inlineKeyboardMarkup));
      var w14 := Then(w13, "reply_markup", StrOpt(replyKeyboardMarkup));
      var w15 := Then(w14, "reply_markup", StrOpt(replyKeyboardRemove));
      var w16 := Then(w15, "reply_markup", StrOpt(forceReply));
      LastSetOther(w0, "chat_id", IntOpt(chatID), "latitude");
      LastSetOther(w2, "longitude", FloatOpt(longitude), "latitude");
      LastSetOther(w3, "horizontal_accuracy", FloatOpt(horizontalAccuracy), "latitude");
      LastSetOther(w4, "live_period", IntOpt(livePeriod), "latitude");
      LastSetOther(w5, "heading", IntOpt(heading), "latitude");
      LastSetOther(w6, "proximity_alert_radius", IntOpt(proximityAlertRadius), "latitude");
      LastSetOther(w7, "message_thread_id", IntOpt(messageThreadID), "latitude");
      LastSetOther(w8, "disable_notification", BoolOpt(disableNotification), "latitude");
      LastSetOther(w9, "protect_content", BoolOpt(protectContent), "latitude");
      LastSetOther(w10, "reply_to_message_id", IntOpt(replyToMessageID), "latitude");
      LastSetOther(w11, "allow_sending_without_reply", BoolOpt(allowSendingWithoutReply), "latitude");
      LastSetOther(w12, "reply_markup", StrOpt(inlineKeyboardMarkup), "latitude");
      LastSetOther(w13, "reply_markup", StrOpt(replyKeyboardMarkup), "latitude");
      LastSetOther(w14, "reply_markup", StrOpt(replyKeyboardRemove), "latitude");
      LastSetOther(w15, "reply_markup", StrOpt(forceReply), "latitude");
      WrittenLastSet(w16, "latitude");
    }

    /** The value the calls leave at `longitude`. */
    lemma PlanLongitude()
      ensures HoldsIfSet(OrEmpty(Written(Plan())), "longitude", FloatOpt(longitude))
    {
      var w0 := NoWrites;
      var w1 := Then(w0, "chat_id", IntOpt(chatID));
      var w2 := Then(w1, "latitude", FloatOpt(latitude));
      var w3 := Then(w2, "longitude", FloatOpt(longitude));
      var w4 := Then(w3, "horizontal_accuracy", FloatOpt(horizontalAccuracy));
      var w5 := Then(w4, "live_period", IntOpt(livePeriod));
      var w6 := Then(w5, "heading", IntOpt(heading));
      var w7 := Then(w6, "proximity_alert_radius", IntOpt(proximityAlertRadius));
      var w8 := Then(w7, "message_thread_id", IntOpt(messageThreadID));
      var w9 := Then(w8, "disable_notification", BoolOpt(disableNotification));
      var w10 := Then(w9, "protect_content", BoolOpt(protectContent));
      var w11 := Then(w10, "reply_to_message_id", IntOpt(replyToMessageID));
      var w12 := Then(w11, "allow_sending_without_reply", BoolOpt(allowSendingWithoutReply));
      var w13 := Then(w12, "reply_markup", StrOpt(inlineKeyboardMarkup));
      var w14 := Then(w13, "reply_markup", StrOpt(replyKeyboardMarkup));
      var w15 := Then(w14, "reply_markup", StrOpt(replyKeyboardRemove));
      var w16 := Then(w15, "reply_markup", StrOpt(forceReply));
      LastSetOther(w0, "chat_id", IntOpt(chatID), "longitude");
      LastSetOther(w1, "latitude", FloatOpt(latitude), "longitude");
      LastSetOther(w3, "horizontal_accuracy", FloatOpt(horizontalAccuracy), "longitude");
      LastSetOther(w4, "live_period", IntOpt(livePeriod), "longitude");
      LastSetOther(w5, "heading", IntOpt(heading), "longitude");
      LastSetOther(w6, "proximity_alert_radius", IntOpt(proximityAlertRadius), "longitude");
      LastSetOther(w7, "message_thread_id", IntOpt(messageThreadID), "longitude");
      LastSetOther(w8, "disable_notification", BoolOpt(disableNotification), "longitude");
      LastSetOther(w9, "protect_content", BoolOpt(protectContent), "longitude");
      LastSetOther(w10, "reply_to_message_id", IntOpt(replyToMessageID), "longitude");
      LastSetOther(w11, "allow_sending_without_reply", BoolOpt(allowSendingWithoutReply), "longitude");
      LastSetOther(w12, "reply_markup", StrOpt(inlineKeyboardMarkup), "longitude");
      LastSetOther(w13, "reply_markup", StrOpt(replyKeyboardMarkup), "longitude");
      LastSetOther(w14, "reply_markup", StrOpt(replyKeyboardRemove), "longitude");
      LastSetOther(w15, "reply_markup", StrOpt(forceReply), "longitude");
      WrittenLastSet(w16, "longitude");
    }

    /** The value the calls leave at `horizontal_accuracy`. */
    lemma PlanHorizontalAccuracy()
      ensures HoldsIfSet(OrEmpty(Written(Plan())), "horizontal_accuracy", FloatOpt(horizontalAccuracy))
    {
      var w0 := NoWrites;
      var w1 := Then(w0, "chat_id", IntOpt(chatID));
      var w2 := Then(w1, "latitude", FloatOpt(latitude));
      var w3 := Then(w2, "longitude", FloatOpt(longitude));
      var w4 := Then(w3, "horizontal_accuracy", FloatOpt(horizontalAccuracy));
      var w5 := Then(w4, "live_period", IntOpt(livePeriod));
      var w6 := Then(w5, "heading", IntOpt(heading));
      var w7 := Then(w6, "proximity_alert_radius", IntOpt(proximityAlertRadius));
      var w8 := Then(w7, "message_thread_id", IntOpt(messageThreadID));
      var w9 := Then(w8, "disable_notification", BoolOpt(disableNotification));
      var w10 := Then(w9, "protect_content", BoolOpt(protectContent));
      var w11 := Then(w10, "reply_to_message_id", IntOpt(replyToMessageID));
      var w12 := Then(w11, "allow_sending_without_reply", BoolOpt(allowSendingWithoutReply));
      var w13 := Then(w12, "reply_markup", StrOpt(inlineKeyboardMarkup));
      var w14 := Then(w13, "reply_markup", StrOpt(replyKeyboardMarkup));
      var w15 := Then(w14, "reply_markup", StrOpt(replyKeyboardRemove));
      var w16 := Then(w15, "reply_markup", StrOpt(forceReply));
      LastSetOther(w0, "chat_id", IntOpt(chatID), "horizontal_accuracy");
      LastSetOther(w1, "latitude", FloatOpt(latitude), "horizontal_accuracy");
      LastSetOther(w2, "longitude", FloatOpt(longitude), "horizontal_accuracy");
      LastSetOther(w4, "live_period", IntOpt(livePeriod), "horizontal_accuracy");
      LastSetOther(w5, "heading", IntOpt(heading), "horizontal_accuracy");
      LastSetOther(w6, "proximity_alert_radius", IntOpt(proximityAlertRadius), "horizontal_accuracy");
      LastSetOther(w7, "message_thread_id", IntOpt(messageThreadID), "horizontal_accuracy");
      LastSetOther(w8, "disable_notification", BoolOpt(disableNotification), "horizontal_accuracy");
      LastSetOther(w9, "protect_content", BoolOpt(protectContent), "horizontal_accuracy");
      LastSetOther(w10, "reply_to_message_id", IntOpt(replyToMessageID), "horizontal_accuracy");
      LastSetOther(w11, "allow_sending_without_reply", BoolOpt(allowSendingWithoutReply), "horizontal_accuracy");
      LastSetOther(w12, "reply_markup", StrOpt(inlineKeyboardMarkup), "horizontal_accuracy");
      LastSetOther(w13, "reply_markup", StrOpt(replyKeyboardMarkup), "horizontal_accuracy");
      LastSetOther(w14, "reply_markup", StrOpt(replyKeyboardRemove), "horizontal_accuracy");
      LastSetOther(w15, "reply_markup", StrOpt(forceReply), "horizontal_accuracy");
      WrittenLastSet(w16, "horizontal_accuracy");
    }

    /** The value the calls leave at `live_period`. */
    lemma PlanLivePeriod()
      ensures HoldsIfSet(OrEmpty(Written(Plan())), "live_period", IntOpt(livePeriod))
    {
      var w0 := NoWrites;
      var w1 := Then(w0, "chat_id", IntOpt(chatID));
      var w2 := Then(w1, "latitude", FloatOpt(latitude));
      var w3 := Then(w2, "longitude", FloatOpt(longitude));
      var w4 := Then(w3, "horizontal_accuracy", FloatOpt(horizontalAccuracy));
      var w5 := Then(w4, "live_period", IntOpt(livePeriod));
      var w6 := Then(w5, "heading", IntOpt(heading));
      var w7 := Then(w6, "proximity_alert_radius", IntOpt(proximityAlertRadius));
      var w8 := Then(w7, "message_thread_id", IntOpt(messageThreadID));
      var w9 := Then(w8, "disable_notification", BoolOpt(disableNotification));
      var w10 := Then(w9, "protect_content", BoolOpt(protectContent));
      var w11 := Then(w10, "reply_to_message_id", IntOpt(replyToMessageID));
      var w12 := Then(w11, "allow_sending_without_reply", BoolOpt(allowSendingWithoutReply));
      var w13 := Then(w12, "reply_markup", StrOpt(inlineKeyboardMarkup));
      var w14 := Then(w13, "reply_markup", StrOpt(replyKeyboardMarkup));
      var w15 := Then(w14, "reply_markup", StrOpt(replyKeyboardRemove));
      var w16 := Then(w15, "reply_markup", StrOpt(forceReply));
      LastSetOther(w0, "chat_id", IntOpt(chatID), "live_period");
      LastSetOther(w1, "latitude", FloatOpt(latitude), "live_period");
      LastSetOther(w2, "longitude", FloatOpt(longitude), "live_period");
      LastSetOther(w3, "horizontal_accuracy", FloatOpt(horizontalAccuracy), "live_period");
      LastSetOther(w5, "heading", IntOpt(heading), "live_period");
      LastSetOther(w6, "proximity_alert_radius", IntOpt(proximityAlertRadius), "live_period");
      LastSetOther(w7, "message_thread_id", IntOpt(messageThreadID), "live_period");
      LastSetOther(w8, "disable_notification", BoolOpt(disableNotification), "live_period");
      LastSetOther(w9, "protect_content", BoolOpt(protectContent), "live_period");
      LastSetOther(w10, "reply_to_message_id", IntOpt(replyToMessageID), "live_period");
      LastSetOther(w11, "allow_sending_without_reply", BoolOpt(allowSendingWithoutReply), "live_period");
      LastSetOther(w12, "reply_markup", StrOpt(inlineKeyboardMarkup), "live_period");
      LastSetOther(w13, "reply_markup", StrOpt(replyKeyboardMarkup), "live_period");
      LastSetOther(w14, "reply_markup", StrOpt(replyKeyboardRemove), "live_period");
      LastSetOther(w15, "reply_markup", StrOpt(forceReply), "live_period");
      WrittenLastSet(w16, "live_period");
    }

    /** The value the calls leave at `heading`. */
    lemma PlanHeading()
      ensures HoldsIfSet(OrEmpty(Written(Plan())), "heading", IntOpt(heading))
    {
      var w0 := NoWrites;
      var w1 := Then(w0, "chat_id", IntOpt(chatID));
      var w2 := Then(w1, "latitude", FloatOpt(latitude));
      var w3 := Then(w2, "longitude", FloatOpt(longitude));
      var w4 := Then(w3, "horizontal_accuracy", FloatOpt(horizontalAccuracy));
      var w5 := Then(w4, "live_period", IntOpt(livePeriod));
      var w6 := Then(w5, "heading", IntOpt(heading));
      var w7 := Then(w6, "proximity_alert_radius", IntOpt(proximityAlertRadius));
      var w8 := Then(w7, "message_thread_id", IntOpt(messageThreadID));
      var w9 := Then(w8, "disable_notification", BoolOpt(disableNotification));
      var w10 := Then(w9, "protect_content", BoolOpt(protectContent));
      var w11 := Then(w10, "reply_to_message_id", IntOpt(replyToMessageID));
      var w12 := Then(w11, "allow_sending_without_reply", BoolOpt(allowSendingWithoutReply));
      var w13 := Then(w12, "reply_markup", StrOpt(inlineKeyboardMarkup));
      var w14 := Then(w13, "reply_markup", StrOpt(replyKeyboardMarkup));
      var w15 := Then(w14, "reply_markup", StrOpt(replyKeyboardRemove));
      var w16 := Then(w15, "reply_markup", StrOpt(forceReply));
      LastSetOther(w0, "chat_id", IntOpt(chatID), "heading");
      LastSetOther(w1, "latitude", FloatOpt(latitude), "heading");
      LastSetOther(w2, "longitude", FloatOpt(longitude), "heading");
      LastSetOther(w3, "horizontal_accuracy", FloatOpt(horizontalAccuracy), "heading");
      LastSetOther(w4, "live_period", IntOpt(livePeriod), "heading");
      LastSetOther(w6, "proximity_alert_radius", IntOpt(proximityAlertRadius), "heading");
      LastSetOther(w7, "message_thread_id", IntOpt(messageThreadID), "heading");
      LastSetOther(w8, "disable_notification", BoolOpt(disableNotification), "heading");
      LastSetOther(w9, "protect_content", BoolOpt(protectContent), "heading");
      LastSetOther(w10, "reply_to_message_id", IntOpt(replyToMessageID), "heading");
      LastSetOther(w11, "allow_sending_without_reply", BoolOpt(allowSendingWithoutReply), "heading");
      LastSetOther(w12, "reply_markup", StrOpt(inlineKeyboardMarkup), "heading");
      LastSetOther(w13, "reply_markup", StrOpt(replyKeyboardMarkup), "heading");
      LastSetOther(w14, "reply_markup", StrOpt(replyKeyboardRemove), "heading");
      LastSetOther(w15, "reply_markup", StrOpt(forceReply), "heading");
      WrittenLastSet(w16, "heading");
    }

    /** The value the calls leave at `proximity_alert_radius`. */
    lemma PlanProximityAlertRadius()
      ensures HoldsIfSet(OrEmpty(Written(Plan())), "proximity_alert_radius", IntOpt(proximityAlertRadius))
    {
      var w0 := NoWrites;
      var w1 := Then(w0, "chat_id", IntOpt(chatID));
      var w2 := Then(w1, "latitude", FloatOpt(latitude));
      var w3 := Then(w2, "longitude", FloatOpt(longitude));
      var w4 := Then(w3, "horizontal_accuracy", FloatOpt(horizontalAccuracy));
      var w5 := Then(w4, "live_period", IntOpt(livePeriod));
      var w6 := Then(w5, "heading", IntOpt(heading));
      var w7 := Then(w6, "proximity_alert_radius", IntOpt(proximityAlertRadius));
      var w8 := Then(w7, "message_thread_id", IntOpt(messageThreadID));
      var w9 := Then(w8, "disable_notification", BoolOpt(disableNotification));
      var w10 := Then(w9, "protect_content", BoolOpt(protectContent));
      var w11 := Then(w10, "reply_to_message_id", IntOpt(replyToMessageID));
      var w12 := Then(w11, "allow_sending_without_reply", BoolOpt(allowSendingWithoutReply));
      var w13 := Then(w12, "reply_markup", StrOpt(inlineKeyboardMarkup));
      var w14 := Then(w13, "reply_markup", StrOpt(replyKeyboardMarkup));
      var w15 := Then(w14, "reply_markup", StrOpt(replyKeyboardRemove));
      var w16 := Then(w15, "reply_markup", StrOpt(forceReply));
      LastSetOther(w0, "chat_id", IntOpt(chatID), "proximity_alert_radius");
      LastSetOther(w1, "latitude", FloatOpt(latitude), "proximity_alert_radius");
      LastSetOther(w2, "longitude", FloatOpt(longitude), "proximity_alert_radius");
      LastSetOther(w3, "horizontal_accuracy", FloatOpt(horizontalAccuracy), "proximity_alert_radius");
      LastSetOther(w4, "live_period", IntOpt(livePeriod), "proximity_alert_radius");
      LastSetOther(w5, "heading", IntOpt(heading), "proximity_alert_radius");
      LastSetOther(w7, "message_thread_id", IntOpt(messageThreadID), "proximity_alert_radius");
      LastSetOther(w8, "disable_notification", BoolOpt(disableNotification), "proximity_alert_radius");
      LastSetOther(w9, "protect_content", BoolOpt(protectContent), "proximity_alert_radius");
      LastSetOther(w10, "reply_to_message_id", IntOpt(replyToMessageID), "proximity_alert_radius");
      LastSetOther(w11, "allow_sending_without_reply", BoolOpt(allowSendingWithoutReply), "proximity_alert_radius");
      LastSetOther(w12, "reply_markup", StrOpt(inlineKeyboardMarkup), "proximity_alert_radius");
      LastSetOther(w13, "reply_markup", StrOpt(replyKeyboardMarkup), "proximity_alert_radius");
      LastSetOther(w14, "reply_markup", StrOpt(replyKeyboardRemove), "proximity_alert_radius");
      LastSetOther(w15, "reply_markup", StrOpt(forceReply), "proximity_alert_radius");
      WrittenLastSet(w16, "proximity_alert_radius");
    }

    /** The value the calls leave at `message_thread_id`. */
    lemma PlanMessageThreadID()
      ensures HoldsIfSet(OrEmpty(Written(Plan())), "message_thread_id", IntOpt(messageThreadID))
    {
      var w0 := NoWrites;
      var w1 := Then(w0, "chat_id", IntOpt(chatID));
      var w2 := Then(w1, "latitude", FloatOpt(latitude));
      var w3 := Then(w2, "longitude", FloatOpt(longitude));
      var w4 := Then(w3, "horizontal_accuracy", FloatOpt(horizontalAccuracy));
      var w5 := Then(w4, "live_period", IntOpt(livePeriod));
      var w6 := Then(w5, "heading", IntOpt(heading));
      var w7 := Then(w6, "proximity_alert_radius", IntOpt(proximityAlertRadius));
      var w8 := Then(w7, "message_thread_id", IntOpt(messageThreadID));
      var w9 := Then(w8, "disable_notification", BoolOpt(disableNotification));
      var w10 := Then(w9, "protect_content", BoolOpt(protectContent));
      var w11 := Then(w10, "reply_to_message_id", IntOpt(replyToMessageID));
      var w12 := Then(w11, "allow_sending_without_reply", BoolOpt(allowSendingWithoutReply));
      var w13 := Then(w12, "reply_markup", StrOpt(inlineKeyboardMarkup));
      var w14 := Then(w13, "reply_markup", StrOpt(replyKeyboardMarkup));
      var w15 := Then(w14, "reply_markup", StrOpt(replyKeyboardRemove));
      var w16 := Then(w15, "reply_markup", StrOpt(forceReply));
      LastSetOther(w0, "chat_id", IntOpt(chatID), "message_thread_id");
      LastSetOther(w1, "latitude", FloatOpt(latitude), "message_thread_id");
      LastSetOther(w2, "longitude", FloatOpt(longitude), "message_thread_id");
      LastSetOther(w3, "horizontal_accuracy", FloatOpt(horizontalAccuracy), "message_thread_id");
      LastSetOther(w4, "live_period", IntOpt(livePeriod), "message_thread_id");
      LastSetOther(w5, "heading", IntOpt(heading), "message_thread_id");
      LastSetOther(w6, "proximity_alert_radius", IntOpt(proximityAlertRadius), "message_thread_id");
      LastSetOther(w8, "disable_notification", BoolOpt(disableNotification), "message_thread_id");
      LastSetOther(w9, "protect_content", BoolOpt(protectContent), "message_thread_id");
      LastSetOther(w10, "reply_to_message_id", IntOpt(replyToMessageID), "message_thread_id");
      LastSetOther(w11, "allow_sending_without_reply", BoolOpt(allowSendingWithoutReply), "message_thread_id");
      LastSetOther(w12, "reply_markup", StrOpt(inlineKeyboardMarkup), "message_thread_id");
      LastSetOther(w13, "reply_markup", StrOpt(replyKeyboardMarkup), "message_thread_id");
      LastSetOther(w14, "reply_markup", StrOpt(replyKeyboardRemove), "message_thread_id");
      LastSetOther(w15, "reply_markup", StrOpt(forceReply), "message_thread_id");
      WrittenLastSet(w16, "message_thread_id");
    }

    /** The value the calls leave at `disable_notification`. */
    lemma PlanDisableNotification()
      ensures HoldsIfSet(OrEmpty(Written(Plan())), "disable_notification", BoolOpt(disableNotification))
    {
      var w0 := NoWrites;
      var w1 := Then(w0, "chat_id", IntOpt(chatID));
      var w2 := Then(w1, "latitude", FloatOpt(latitude));
      var w3 := Then(w2, "longitude", FloatOpt(longitude));
      var w4 := Then(w3, "horizontal_accuracy", FloatOpt(horizontalAccuracy));
      var w5 := Then(w4, "live_period", IntOpt(livePeriod));
      var w6 := Then(w5, "heading", IntOpt(heading));
      var w7 := Then(w6, "proximity_alert_radius", IntOpt(proximityAlertRadius));
      var w8 := Then(w7, "message_thread_id", IntOpt(messageThreadID));
      var w9 := Then(w8, "disable_notification", BoolOpt(disableNotification));
      var w10 := Then(w9, "protect_content", BoolOpt(protectContent));
      var w11 := Then(w10, "reply_to_message_id", IntOpt(replyToMessageID));
      var w12 := Then(w11, "allow_sending_without_reply", BoolOpt(allowSendingWithoutReply));
      var w13 := Then(w12, "reply_markup", StrOpt(inlineKeyboardMarkup));
      var w14 := Then(w13, "reply_markup", StrOpt(replyKeyboardMarkup));
      var w15 := Then(w14, "reply_markup", StrOpt(replyKeyboardRemove));
      var w16 := Then(w15, "reply_markup", StrOpt(forceReply));
      LastSetOther(w0, "chat_id", IntOpt(chatID), "disable_notification");
      LastSetOther(w1, "latitude", FloatOpt(latitude), "disable_notification");
      LastSetOther(w2, "longitude", FloatOpt(longitude), "disable_notification");
      LastSetOther(w3, "horizontal_accuracy", FloatOpt(horizontalAccuracy), "disable_notification");
      LastSetOther(w4, "live_period", IntOpt(livePeriod), "disable_notification");
      LastSetOther(w5, "heading", IntOpt(heading), "disable_notification");
      LastSetOther(w6, "proximity_alert_radius", IntOpt(proximityAlertRadius), "disable_notification");
      LastSetOther(w7, "message_thread_id", IntOpt(messageThreadID), "disable_notification");
      LastSetOther(w9, "protect_content", BoolOpt(protectContent), "disable_notification");
      LastSetOther(w10, "reply_to_message_id", IntOpt(replyToMessageID), "disable_notification");
      LastSetOther(w11, "allow_sending_without_reply", BoolOpt(allowSendingWithoutReply), "disable_notification");
      LastSetOther(w12, "reply_markup", StrOpt(inlineKeyboardMarkup), "disable_notification");
      LastSetOther(w13, "reply_markup", StrOpt(replyKeyboardMarkup), "disable_notification");
      LastSetOther(w14, "reply_markup", StrOpt(replyKeyboardRemove), "disable_notification");
      LastSetOther(w15, "reply_markup", StrOpt(forceReply), "disable_notification");
      WrittenLastSet(w16, "disable_notification");
    }

    /** The value the calls leave at `protect_content`. */
    lemma PlanProtectContent()
      ensures HoldsIfSet(OrEmpty(Written(Plan())), "protect_content", BoolOpt(protectContent))
    {
      var w0 := NoWrites;
      var w1 := Then(w0, "chat_id", IntOpt(chatID));
      var w2 := Then(w1, "latitude", FloatOpt(latitude));
      var w3 := Then(w2, "longitude", FloatOpt(longitude));
      var w4 := Then(w3, "horizontal_accuracy", FloatOpt(horizontalAccuracy));
      var w5 := Then(w4, "live_period", IntOpt(livePeriod));
      var w6 := Then(w5, "heading", IntOpt(heading));
      var w7 := Then(w6, "proximity_alert_radius", IntOpt(proximityAlertRadius));
      var w8 := Then(w7, "message_thread_id", IntOpt(messageThreadID));
      var w9 := Then(w8, "disable_notification", BoolOpt(disableNotification));
      var w10 := Then(w9, "protect_content", BoolOpt(protectContent));
      var w11 := Then(w10, "reply_to_message_id", IntOpt(replyToMessageID));
      var w12 := Then(w11, "allow_sending_without_reply", BoolOpt(allowSendingWithoutReply));
      var w13 := Then(w12, "reply_markup", StrOpt(inlineKeyboardMarkup));
      var w14 := Then(w13, "reply_markup", StrOpt(replyKeyboardMarkup));
      var w15 := Then(w14, "reply_markup", StrOpt(replyKeyboardRemove));
      var w16 := Then(w15, "reply_markup", StrOpt(forceReply));
      LastSetOther(w0, "chat_id", IntOpt(chatID), "protect_content");
      LastSetOther(w1, "latitude", FloatOpt(latitude), "protect_content");
      LastSetOther(w2, "longitude", FloatOpt(longitude), "protect_content");
      LastSetOther(w3, "horizontal_accuracy", FloatOpt(horizontalAccuracy), "protect_content");
      LastSetOther(w4, "live_period", IntOpt(livePeriod), "protect_content");
      LastSetOther(w5, "heading", IntOpt(heading), "protect_content");
      LastSetOther(w6, "proximity_alert_radius", IntOpt(proximityAlertRadius), "protect_content");
      LastSetOther(w7, "message_thread_id", IntOpt(messageThreadID), "protect_content");
      LastSetOther(w8, "disable_notification", BoolOpt(disableNotification), "protect_content");
      LastSetOther(w10, "reply_to_message_id", IntOpt(replyToMessageID), "protect_content");
      LastSetOther(w11, "allow_sending_without_reply", BoolOpt(allowSendingWithoutReply), "protect_content");
      LastSetOther(w12, "reply_markup", StrOpt(inlineKeyboardMarkup), "protect_content");
      LastSetOther(w13, "reply_markup", StrOpt(replyKeyboardMarkup), "protect_content");
      LastSetOther(w14, "reply_markup", StrOpt(replyKeyboardRemove), "protect_content");
      LastSetOther(w15, "reply_markup", StrOpt(forceReply), "protect_content");
      WrittenLastSet(w16, "protect_content");
    }

    /** The value the calls leave at `reply_to_message_id`. */
    lemma PlanReplyToMessageID()
      ensures HoldsIfSet(OrEmpty(Written(Plan())), "reply_to_message_id", IntOpt(replyToMessageID))
    {
      var w0 := NoWrites;
      var w1 := Then(w0, "chat_id", IntOpt(chatID));
      var w2 := Then(w1, "latitude", FloatOpt(latitude));
      var w3 := Then(w2, "longitude", FloatOpt(longitude));
      var w4 := Then(w3, "horizontal_accuracy", FloatOpt(horizontalAccuracy));
      var w5 := Then(w4, "live_period", IntOpt(livePeriod));
      var w6 := Then(w5, "heading", IntOpt(heading));
      var w7 := Then(w6, "proximity_alert_radius", IntOpt(proximityAlertRadius));
      var w8 := Then(w7, "message_thread_id", IntOpt(messageThreadID));
      var w9 := Then(w8, "disable_notification", BoolOpt(disableNotification));
      var w10 := Then(w9, "protect_content", BoolOpt(protectContent));
      var w11 := Then(w10, "reply_to_message_id", IntOpt(replyToMessageID));
      var w12 := Then(w11, "allow_sending_without_reply", BoolOpt(allowSendingWithoutReply));
      var w13 := Then(w12, "reply_markup", StrOpt(inlineKeyboardMarkup));
      var w14 := Then(w13, "reply_markup", StrOpt(replyKeyboardMarkup));
      var w15 := Then(w14, "reply_markup", StrOpt(replyKeyboardRemove));
      var w16 := Then(w15, "reply_markup", StrOpt(forceReply));
      LastSetOther(w0, "chat_id", IntOpt(chatID), "reply_to_message_id");
      LastSetOther(w1, "latitude", FloatOpt(latitude), "reply_to_message_id");
      LastSetOther(w2, "longitude", FloatOpt(longitude), "reply_to_message_id");
      LastSetOther(w3, "horizontal_accuracy", FloatOpt(horizontalAccuracy), "reply_to_message_id");
      LastSetOther(w4, "live_period", IntOpt(livePeriod), "reply_to_message_id");
      LastSetOther(w5, "heading", IntOpt(heading), "reply_to_message_id");
      LastSetOther(w6, "proximity_alert_radius", IntOpt(proximityAlertRadius), "reply_to_message_id");
      LastSetOther(w7, "message_thread_id", IntOpt(messageThreadID), "reply_to_message_id");
      LastSetOther(w8, "disable_notification", BoolOpt(disableNotification), "reply_to_message_id");
      LastSetOther(w9, "protect_content", BoolOpt(protectContent), "reply_to_message_id");
      LastSetOther(w11, "allow_sending_without_reply", BoolOpt(allowSendingWithoutReply), "reply_to_message_id");
      LastSetOther(w12, "reply_markup", StrOpt(inlineKeyboardMarkup), "reply_to_message_id");
      LastSetOther(w13, "reply_markup", StrOpt(replyKeyboardMarkup), "reply_to_message_id");
      LastSetOther(w14, "reply_markup", StrOpt(replyKeyboardRemove), "reply_to_message_id");
      LastSetOther(w15, "reply_markup", StrOpt(forceReply), "reply_to_message_id");
      WrittenLastSet(w16, "reply_to_message_id");
    }

    /** The value the calls leave at `allow_sending_without_reply`. */
    lemma PlanAllowSendingWithoutReply()
      ensures HoldsIfSet(OrEmpty(Written(Plan())), "allow_sending_without_reply", BoolOpt(allowSendingWithoutReply))
    {
      var w0 := NoWrites;
      var w1 := Then(w0, "chat_id", IntOpt(chatID));
      var w2 := Then(w1, "latitude", FloatOpt(latitude));
      var w3 := Then(w2, "longitude", FloatOpt(longitude));
      var w4 := Then(w3, "horizontal_accuracy", FloatOpt(horizontalAccuracy));
      var w5 := Then(w4, "live_period", IntOpt(livePeriod));
      var w6 := Then(w5, "heading", IntOpt(heading));
      var w7 := Then(w6, "proximity_alert_radius", IntOpt(proximityAlertRadius));
      var w8 := Then(w7, "message_thread_id", IntOpt(messageThreadID));
      var w9 := Then(w8, "disable_notification", BoolOpt(disableNotification));
      var w10 := Then(w9, "protect_content", BoolOpt(protectContent));
      var w11 := Then(w10, "reply_to_message_id", IntOpt(replyToMessageID));
      var w12 := Then(w11, "allow_sending_without_reply", BoolOpt(allowSendingWithoutReply));
      var w13 := Then(w12, "reply_markup", StrOpt(inlineKeyboardMarkup));
      var w14 := Then(w13, "reply_markup", StrOpt(replyKeyboardMarkup));
      var w15 := Then(w14, "reply_markup", StrOpt(replyKeyboardRemove));
      var w16 := Then(w15, "reply_markup", StrOpt(forceReply));
      LastSetOther(w0, "chat_id", IntOpt(chatID), "allow_sending_without_reply");
      LastSetOther(w1, "latitude", FloatOpt(latitude), "allow_sending_without_reply");
      LastSetOther(w2, "longitude", FloatOpt(longitude), "allow_sending_without_reply");
      LastSetOther(w3, "horizontal_accuracy", FloatOpt(horizontalAccuracy), "allow_sending_without_reply");
      LastSetOther(w4, "live_period", IntOpt(livePeriod), "allow_sending_without_reply");
      LastSetOther(w5, "heading", IntOpt(heading), "allow_sending_without_reply");
      LastSetOther(w6, "proximity_alert_radius", IntOpt(proximityAlertRadius), "allow_sending_without_reply");
      LastSetOther(w7, "message_thread_id", IntOpt(messageThreadID), "allow_sending_without_reply");
      LastSetOther(w8, "disable_notification", BoolOpt(disableNotification), "allow_sending_without_reply");
      LastSetOther(w9, "protect_content", BoolOpt(protectContent), "allow_sending_without_reply");
      LastSetOther(w10, "reply_to_message_id", IntOpt(replyToMessageID), "allow_sending_without_reply");
      LastSetOther(w12, "reply_markup", StrOpt(inlineKeyboardMarkup), "allow_sending_without_reply");
      LastSetOther(w13, "reply_markup", StrOpt(replyKeyboardMarkup), "allow_sending_without_reply");
      LastSetOther(w14, "reply_markup", StrOpt(replyKeyboardRemove), "allow_sending_without_reply");
      LastSetOther(w15, "reply_markup", StrOpt(forceReply), "allow_sending_without_reply");
      WrittenLastSet(w16, "allow_sending_without_reply");
    }

    /** The value the calls leave at `reply_markup`: the last one set. */
    lemma PlanReplyMarkup()
      ensures HoldsIfSet(OrEmpty(Written(Plan())), "reply_markup", Later(Later(Later(StrOpt(inlineKeyboardMarkup), StrOpt(replyKeyboardMarkup)), StrOpt(replyKeyboardRemove)), StrOpt(forceReply)))
    {
      var w0 := NoWrites;
      var w1 := Then(w0, "chat_id", IntOpt(chatID));
      var w2 := Then(w1, "latitude", FloatOpt(latitude));
      var w3 := Then(w2, "longitude", FloatOpt(longitude));
      var w4 := Then(w3, "horizontal_accuracy", FloatOpt(horizontalAccuracy));
      var w5 := Then(w4, "live_period", IntOpt(livePeriod));
      var w6 := Then(w5, "heading", IntOpt(heading));
      var w7 := Then(w6, "proximity_alert_radius", IntOpt(proximityAlertRadius));
      var w8 := Then(w7, "message_thread_id", IntOpt(messageThreadID));
      var w9 := Then(w8, "disable_notification", BoolOpt(disableNotification));
      var w10 := Then(w9, "protect_content", BoolOpt(protectContent));
      var w11 := Then(w10, "reply_to_message_id", IntOpt(replyToMessageID));
      var w12 := Then(w11, "allow_sending_without_reply", BoolOpt(allowSendingWithoutReply));
      var w13 := Then(w12, "reply_markup", StrOpt(inlineKeyboardMarkup));
      var w14 := Then(w13, "reply_markup", StrOpt(replyKeyboardMarkup));
      var w15 := Then(w14, "reply_markup", StrOpt(replyKeyboardRemove));
      var w16 := Then(w15, "reply_markup", StrOpt(forceReply));
      LastSetOther(w0, "chat_id", IntOpt(chatID), "reply_markup");
      LastSetOther(w1, "latitude", FloatOpt(latitude), "reply_markup");
      LastSetOther(w2, "longitude", FloatOpt(longitude), "reply_markup");
      LastSetOther(w3, "horizontal_accuracy", FloatOpt(horizontalAccuracy), "reply_markup");
      LastSetOther(w4, "live_period", IntOpt(livePeriod), "reply_markup");
      LastSetOther(w5, "heading", IntOpt(heading), "reply_markup");
      LastSetOther(w6, "proximity_alert_radius", IntOpt(proximityAlertRadius), "reply_markup");
      LastSetOther(w7, "message_thread_id", IntOpt(messageThreadID), "reply_markup");
      LastSetOther(w8, "disable_notification", BoolOpt(disableNotification), "reply_markup");
      LastSetOther(w9, "protect_content", BoolOpt(protectContent), "reply_markup");
      LastSetOther(w10, "reply_to_message_id", IntOpt(replyToMessageID), "reply_markup");
      LastSetOther(w11, "allow_sending_without_reply", BoolOpt(allowSendingWithoutReply), "reply_markup");
      LastSetSame(w12, "reply_markup", StrOpt(inlineKeyboardMarkup));
      LastSetSame(w13, "reply_markup", StrOpt(replyKeyboardMarkup));
      LastSetSame(w14, "reply_markup", StrOpt(replyKeyboardRemove));
      LastSetSame(w15, "reply_markup", StrOpt(forceReply));
      WrittenLastSet(w16, "reply_markup");
    }

    /** The calls write no key but these. */
    lemma PlanOnly()
      ensures OrEmpty(Written(Plan())).Keys <= {"chat_id", "latitude", "longitude", "horizontal_accuracy", "live_period", "heading", "proximity_alert_radius", "message_thread_id", "disable_notification", "protect_content", "reply_to_message_id", "allow_sending_without_reply", "reply_markup"}
    {
      var w0 := NoWrites;
      var w1 := Then(w0, "chat_id", IntOpt(chatID));
      var w2 := Then(w1, "latitude", FloatOpt(latitude));
      var w3 := Then(w2, "longitude", FloatOpt(longitude));
      var w4 := Then(w3, "horizontal_accuracy", FloatOpt(horizontalAccuracy));
      var w5 := Then(w4, "live_period", IntOpt(livePeriod));
      var w6 := Then(w5, "heading", IntOpt(heading));
      var w7 := Then(w6, "proximity_alert_radius", IntOpt(proximityAlertRadius));
      var w8 := Then(w7, "message_thread_id", IntOpt(messageThreadID));
      var w9 := Then(w8, "disable_notification", BoolOpt(disableNotification));
      var w10 := Then(w9, "protect_content", BoolOpt(protectContent));
      var w11 := Then(w10, "reply_to_message_id", IntOpt(replyToMessageID));
      var w12 := Then(w11, "allow_sending_without_reply", BoolOpt(allowSendingWithoutReply));
      var w13 := Then(w12, "reply_markup", StrOpt(inlineKeyboardMarkup));
      var w14 := Then(w13, "reply_markup", StrOpt(replyKeyboardMarkup));
      var w15 := Then(w14, "reply_markup", StrOpt(replyKeyboardRemove));
      var w16 := Then(w15, "reply_markup", StrOpt(forceReply));
      forall j | j !in {"chat_id", "latitude", "longitude", "horizontal_accuracy", "live_period", "heading", "proximity_alert_radius", "message_thread_id", "disable_notification", "protect_content", "reply_to_message_id", "allow_sending_without_reply", "reply_markup"}
        ensures j !in OrEmpty(Written(w16))
      {
        LastSetOther(w0, "chat_id", IntOpt(chatID), j);
        LastSetOther(w1, "latitude", FloatOpt(latitude), j);
        LastSetOther(w2, "longitude", FloatOpt(longitude), j);
        LastSetOther(w3, "horizontal_accuracy", FloatOpt(horizontalAccuracy), j);
        LastSetOther(w4, "live_period", IntOpt(livePeriod), j);
        LastSetOther(w5, "heading", IntOpt(heading), j);
        LastSetOther(w6, "proximity_alert_radius", IntOpt(proximityAlertRadius), j);
        LastSetOther(w7, "message_thread_id", IntOpt(messageThreadID), j);
        LastSetOther(w8, "disable_notification", BoolOpt(disableNotification), j);
        LastSetOther(w9, "protect_content", BoolOpt(protectContent), j);
        LastSetOther(w10, "reply_to_message_id", IntOpt(replyToMessageID), j);
        LastSetOther(w11, "allow_sending_without_reply", BoolOpt(allowSendingWithoutReply), j);
        LastSetOther(w12, "reply_markup", StrOpt(inlineKeyboardMarkup), j);
        LastSetOther(w13, "reply_markup", StrOpt(replyKeyboardMarkup), j);
        LastSetOther(w14, "reply_markup", StrOpt(replyKeyboardRemove), j);
        LastSetOther(w15, "reply_markup", StrOpt(forceReply), j);
        WrittenLastSet(w16, j);
      }
    }

    /** The request `Do` builds before it calls the API: the endpoint, and a query made
        by the `setParam` calls of `Plan`. */
    method Assemble() returns (r: Request)
      ensures fresh(r)
      ensures r.Fields() == RequestFields(MethodGet, "/sendLocation", Written(Plan()), None, None, None, "", [])
    {
      r := new Request(MethodGet, "/sendLocation");
      ghost var done := NoWrites;
      var _ := r.SetParamIfSet("chat_id", IntOpt(chatID), done);
      done := Then(done, "chat_id", IntOpt(chatID));
      var _ := r.SetParamIfSet("latitude", FloatOpt(latitude), done);
      done := Then(done, "latitude", FloatOpt(latitude));
      var _ := r.SetParamIfSet("longitude", FloatOpt(longitude), done);
      done := Then(done, "longitude", FloatOpt(longitude));
      var _ := r.SetParamIfSet("horizontal_accuracy", FloatOpt(horizontalAccuracy), done);
      done := Then(done, "horizontal_accuracy", FloatOpt(horizontalAccuracy));
      var _ := r.SetParamIfSet("live_period", IntOpt(livePeriod), done);
      done := Then(done, "live_period", IntOpt(livePeriod));
      var _ := r.SetParamIfSet("heading", IntOpt(heading), done);
      done := Then(done, "heading", IntOpt(heading));
      var _ := r.SetParamIfSet("proximity_alert_radius", IntOpt(proximityAlertRadius), done);
      done := Then(done, "proximity_alert_radius", IntOpt(proximityAlertRadius));
      var _ := r.SetParamIfSet("message_thread_id", IntOpt(messageThreadID), done);
      done := Then(done, "message_thread_id", IntOpt(messageThreadID));
      var _ := r.SetParamIfSet("disable_notification", BoolOpt(disableNotification), done);
      done := Then(done, "disable_notification", BoolOpt(disableNotification));
      var _ := r.SetParamIfSet("protect_content", BoolOpt(protectContent), done);
      done := Then(done, "protect_content", BoolOpt(protectContent));
      var _ := r.SetParamIfSet("reply_to_message_id", IntOpt(replyToMessageID), done);
      done := Then(done, "reply_to_message_id", IntOpt(replyToMessageID));
      var _ := r.SetParamIfSet("allow_sending_without_reply", BoolOpt(allowSendingWithoutReply), done);
      done := Then(done, "allow_sending_without_reply", BoolOpt(allowSendingWithoutReply));
      var _ := r.SetParamIfSet("reply_markup", StrOpt(inlineKeyboardMarkup), done);
      done := Then(done, "reply_markup", StrOpt(inlineKeyboardMarkup));
      var _ := r.SetParamIfSet("reply_markup", StrOpt(replyKeyboardMarkup), done);
      done := Then(done, "reply_markup", StrOpt(replyKeyboardMarkup));
      var _ := r.SetParamIfSet("reply_markup", StrOpt(replyKeyboardRemove), done);
      done := Then(done, "reply_markup", StrOpt(replyKeyboardRemove));
      var _ := r.SetParamIfSet("reply_markup", StrOpt(forceReply), done);
      done := Then(done, "reply_markup", StrOpt(forceReply));
      assert done == Plan();
    }

    /** `Do`: Always sets `chat_id`, `latitude`, `longitude`; sets each of the other keys only when its field is set; then calls the API. */
    method Do(opts: seq<RequestOption>) returns (assembled: RequestFields, res: Option<Bytes>, err: Option<Error>)
      requires chatID.Some? && latitude.Some? && longitude.Some?
      ensures assembled.httpMethod == MethodGet && assembled.endpoint == "/sendLocation"
      ensures assembled.form == None && assembled.header == None && assembled.body == None
      ensures assembled.fullURL == "" && assembled.json == []
      ensures Holds(Q(assembled), "chat_id", Int(chatID.value as int))
      ensures Holds(Q(assembled), "latitude", Float(latitude.value))
      ensures Holds(Q(assembled), "longitude", Float(longitude.value))
      ensures HoldsIfSet(Q(assembled), "horizontal_accuracy", FloatOpt(horizontalAccuracy))
      ensures HoldsIfSet(Q(assembled), "live_period", IntOpt(livePeriod))
      ensures HoldsIfSet(Q(assembled), "heading", IntOpt(heading))
      ensures HoldsIfSet(Q(assembled), "proximity_alert_radius", IntOpt(proximityAlertRadius))
      ensures HoldsIfSet(Q(assembled), "message_thread_id", IntOpt(messageThreadID))
      ensures HoldsIfSet(Q(assembled), "disable_notification", BoolOpt(disableNotification))
      ensures HoldsIfSet(Q(assembled), "protect_content", BoolOpt(protectContent))
      ensures HoldsIfSet(Q(assembled), "reply_to_message_id", IntOpt(replyToMessageID))
      ensures HoldsIfSet(Q(assembled), "allow_sending_without_reply", BoolOpt(allowSendingWithoutReply))
      ensures HoldsIfSet(Q(assembled), "reply_markup", Later(Later(Later(StrOpt(inlineKeyboardMarkup), StrOpt(replyKeyboardMarkup)), StrOpt(replyKeyboardRemove)), StrOpt(forceReply)))
      ensures Q(assembled).Keys <= {"chat_id", "latitude", "longitude", "horizontal_accuracy", "live_period", "heading", "proximity_alert_radius", "message_thread_id", "disable_notification", "protect_content", "reply_to_message_id", "allow_sending_without_reply", "reply_markup"}
      ensures var o := c.Outcome(assembled, opts);
        err == o.1 && res == (if o.1.Some? then None else o.0)
    {
      var r := Assemble();
      assembled := r.Fields();
      var data, e := c.CallAPI(r, opts);
      PlanOnly();
      PlanChatID();
      PlanLatitude();
      PlanLongitude();
      PlanHorizontalAccuracy();
      PlanLivePeriod();
      PlanHeading();
      PlanProximityAlertRadius();
      PlanMessageThreadID();
      PlanDisableNotification();
      PlanProtectContent();
      PlanReplyToMessageID();
      PlanAllowSendingWithoutReply();
      PlanReplyMarkup();
      if e.Some? {
        return assembled, None, e;
      }
      res, err := data, None;
    }
  }

  /** `SendVenueService`: a GET request to `/sendVenue`. */
  class SendVenueService {
    const c: Client
    var chatID: Option<int64>
    var messageThreadID: Option<int64>
    var latitude: Option<Float64>
    var longitude: Option<Float64>
    var title: Option<string>
    var address: Option<string>
    var foursquareID: Option<string>
    var foursquareType: Option<string>
    var googlePlaceID: Option<string>
    var googlePlaceType: Option<string>
    var disableNotification: Option<bool>
    var protectContent: Option<bool>
    var replyToMessageID: Option<int64>
    var allowSendingWithoutReply: Option<bool>
    var inlineKeyboardMarkup: Option<string>
    var replyKeyboardMarkup: Option<string>
    var replyKeyboardRemove: Option<string>
    var forceReply: Option<string>

    /** `NewSendVenueService`: every field starts out unset. */
    constructor (c: Client)
      ensures this.c == c
      ensures chatID == None && messageThreadID == None && latitude == None
      ensures longitude == None && title == None && address == None
      ensures foursquareID == None && foursquareType == None && googlePlaceID == None
      ensures googlePlaceType == None && disableNotification == None && protectContent == None
      ensures replyToMessageID == None && allowSendingWithoutReply == None && inlineKeyboardMarkup == None
      ensures replyKeyboardMarkup == None && replyKeyboardRemove == None && forceReply == None
    {
      this.c := c;
      chatID := None;
      messageThreadID := None;
      latitude := None;
      longitude := None;
      title := None;
      address := None;
      foursquareID := None;
      foursquareType := None;
      googlePlaceID := None;
      googlePlaceType := None;
      disableNotification := None;
      protectContent := None;
      replyToMessageID := None;
      allowSendingWithoutReply := None;
      inlineKeyboardMarkup := None;
      replyKeyboardMarkup := None;
      replyKeyboardRemove := None;
      forceReply := None;
    }

    /** `ChatID`: stores its argument in `chatID`. */
    method ChatID(chatID: int64) returns (t: SendVenueService)
      modifies this`chatID
      ensures this.chatID == Some(chatID) && t == this
    {
      this.chatID := Some(chatID);
      t := this;
    }

    /** `MessageThreadID`: stores its argument in `messageThreadID`. */
    method MessageThreadID(messageThreadID: int64) returns (t: SendVenueService)
      modifies this`messageThreadID
      ensures this.messageThreadID == Some(messageThreadID) && t == this
    {
      this.messageThreadID := Some(messageThreadID);
      t := this;
    }

    /** `Latitude`: stores its argument in `latitude`. */
    method Latitude(latitude: Float64) returns (t: SendVenueService)
      modifies this`latitude
      ensures this.latitude == Some(latitude) && t == this
    {
      this.latitude := Some(latitude);
      t := this;
    }

    /** `Longitude`: stores its argument in `longitude`. */
    method Longitude(longitude: Float64) returns (t: SendVenueService)
      modifies this`longitude
      ensures this.longitude == Some(longitude) && t == this
    {
      this.longitude := Some(longitude);
      t := this;
    }

    /** `Title`: stores its argument in `title`. */
    method Title(title: string) returns (t: SendVenueService)
      modifies this`title
      ensures this.title == Some(title) && t == this
    {
      this.title := Some(title);
      t := this;
    }

    /** `Address`: stores its argument in `address`. */
    method Address(address: string) returns (t: SendVenueService)
      modifies this`address
      ensures this.address == Some(address) && t == this
    {
      this.address := Some(address);
      t := this;
    }

    /** `FoursquareID`: stores its argument in `foursquareID`. */
    method FoursquareID(foursquareID: string) returns (t: SendVenueService)
      modifies this`foursquareID
      ensures this.foursquareID == Some(foursquareID) && t == this
    {
      this.foursquareID := Some(foursquareID);
      t := this;
    }

    /** `FoursquareType`: stores its argument in `foursquareType`. */
    method FoursquareType(foursquareType: string) returns (t: SendVenueService)
      modifies this`foursquareType
      ensures this.foursquareType == Some(foursquareType) && t == this
    {
      this.foursquareType := Some(foursquareType);
      t := this;
    }

    /** `GooglePlaceID`: stores its argument in `googlePlaceID`. */
    method GooglePlaceID(googlePlaceID: string) returns (t: SendVenueService)
      modifies this`googlePlaceID
      ensures this.googlePlaceID == Some(googlePlaceID) && t == this
    {
      this.googlePlaceID := Some(googlePlaceID);
      t := this;
    }

    /** `GooglePlaceType`: stores its argument in `googlePlaceType`. */
    method GooglePlaceType(googlePlaceType: string) returns (t: SendVenueService)
      modifies this`googlePlaceType
      ensures this.googlePlaceType == Some(googlePlaceType) && t == this
    {
      this.googlePlaceType := Some(googlePlaceType);
      t := this;
    }

    /** `DisableNotification`: stores its argument in `disableNotification`. */
    method DisableNotification(disableNotification: bool) returns (t: SendVenueService)
      modifies this`disableNotification
      ensures this.disableNotification == Some(disableNotification) && t == this
    {
      this.disableNotification := Some(disableNotification);
      t := this;
    }

    /** `ProtectContent`: stores its argument in `protectContent`. */
    method ProtectContent(protectContent: bool) returns (t: SendVenueService)
      modifies this`protectContent
      ensures this.protectContent == Some(protectContent) && t == this
    {
      this.protectContent := Some(protectContent);
      t := this;
    }

    /** `ReplyToMessageID`: stores its argument in `replyToMessageID`. */
    method ReplyToMessageID(replyToMessageID: int64) returns (t: SendVenueService)
      modifies this`replyToMessageID
      ensures this.replyToMessageID == Some(replyToMessageID) && t == this
    {
      this.replyToMessageID := Some(replyToMessageID);
      t := this;
    }

    /** `AllowSendingWithoutReply`: stores its argument in `allowSendingWithoutReply`. */
    method AllowSendingWithoutReply(allowSendingWithoutReply: bool) returns (t: SendVenueService)
      modifies this`allowSendingWithoutReply
      ensures this.allowSendingWithoutReply == Some(allowSendingWithoutReply) && t == this
    {
      this.allowSendingWithoutReply := Some(allowSendingWithoutReply);
      t := this;
    }

    /** `InlineKeyboardMarkup`: stores the JSON text of its argument in `inlineKeyboardMarkup`. `marshalled` is what
        `jsoniter.Marshal` makes of the argument, `None` when marshalling fails; then
        nothing changes and the result is nil. */
    method InlineKeyboardMarkup(marshalled: Option<string>) returns (t: SendVenueService?)
      modifies this`inlineKeyboardMarkup
      ensures marshalled.None? ==> t == null && inlineKeyboardMarkup == old(inlineKeyboardMarkup)
      ensures marshalled.Some? ==> t == this && inlineKeyboardMarkup == marshalled
    {
      if marshalled.None? {
        return null;
      }
      inlineKeyboardMarkup := marshalled;
      t := this;
    }

    /** `ReplyKeyboardMarkup`: stores the JSON text of its argument in `replyKeyboardMarkup`. `marshalled` is what
        `jsoniter.Marshal` makes of the argument, `None` when marshalling fails; then
        nothing changes and the result is nil. */
    method ReplyKeyboardMarkup(marshalled: Option<string>) returns (t: SendVenueService?)
      modifies this`replyKeyboardMarkup
      ensures marshalled.None? ==> t == null && replyKeyboardMarkup == old(replyKeyboardMarkup)
      ensures marshalled.Some? ==> t == this && replyKeyboardMarkup == marshalled
    {
      if marshalled.None? {
        return null;
      }
      replyKeyboardMarkup := marshalled;
      t := this;
    }

    /** `ReplyKeyboardRemove`: stores the JSON text of its argument in `replyKeyboardRemove`. `marshalled` is what
        `jsoniter.Marshal` makes of the argument, `None` when marshalling fails; then
        nothing changes and the result is nil. */
    method ReplyKeyboardRemove(marshalled: Option<string>) returns (t: SendVenueService?)
      modifies this`replyKeyboardRemove
      ensures marshalled.None? ==> t == null && replyKeyboardRemove == old(replyKeyboardRemove)
      ensures marshalled.Some? ==> t == this && replyKeyboardRemove == marshalled
    {
      if marshalled.None? {
        return null;
      }
      replyKeyboardRemove := marshalled;
      t := this;
    }

    /** `ForceReply`: stores the JSON text of its argument in `forceReply`. `marshalled` is what
        `jsoniter.Marshal` makes of the argument, `None` when marshalling fails; then
        nothing changes and the result is nil. */
    method ForceReply(marshalled: Option<string>) returns (t: SendVenueService?)
      modifies this`forceReply
      ensures marshalled.None? ==> t == null && forceReply == old(forceReply)
      ensures marshalled.Some? ==> t == this && forceReply == marshalled
    {
      if marshalled.None? {
        return null;
      }
      forceReply := marshalled;
      t := this;
    }

    /** The `setParam` calls `Do` makes, in order; a call that is skipped because its
        field is unset has value `None`. */
    ghost function Plan(): Writes
      reads this
    {
      var w1 := Then(NoWrites, "chat_id", IntOpt(chatID));
      var w2 := Then(w1, "latitude", FloatOpt(latitude));
      var w3 := Then(w2, "longitude", FloatOpt(longitude));
      var w4 := Then(w3, "title", StrOpt(title));
      var w5 := Then(w4, "address", StrOpt(address));
      var w6 := Then(w5, "foursquare_id", StrOpt(foursquareID));
      var w7 := Then(w6, "foursquare_type", StrOpt(foursquareType));
      var w8 := Then(w7, "google_place_id", StrOpt(googlePlaceID));
      var w9 := Then(w8, "google_place_type", StrOpt(googlePlaceType));
      var w10 := Then(w9, "message_thread_id", IntOpt(messageThreadID));
      var w11 := Then(w10, "disable_notification", BoolOpt(disableNotification));
      var w12 := Then(w11, "protect_content", BoolOpt(protectContent));
      var w13 := Then(w12, "reply_to_message_id", IntOpt(replyToMessageID));
      var w14 := Then(w13, "allow_sending_without_reply", BoolOpt(allowSendingWithoutReply));
      var w15 := Then(w14, "reply_markup", StrOpt(inlineKeyboardMarkup));
      var w16 := Then(w15, "reply_markup", StrOpt(replyKeyboardMarkup));
      var w17 := Then(w16, "reply_markup", StrOpt(replyKeyboardRemove));
      var w18 := Then(w17, "reply_markup", StrOpt(forceReply));
      w18
    }

    /** The value the calls leave at `chat_id`. */
    lemma PlanChatID()
      ensures HoldsIfSet(OrEmpty(Written(Plan())), "chat_id", IntOpt(chatID))
    {
      var w0 := NoWrites;
      var w1 := Then(w0, "chat_id", IntOpt(chatID));
      var w2 := Then(w1, "latitude", FloatOpt(latitude));
      var w3 := Then(w2, "longitude", FloatOpt(longitude));
      var w4 := Then(w3, "title", StrOpt(title));
      var w5 := Then(w4, "address", StrOpt(address));
      var w6 := Then(w5, "foursquare_id", StrOpt(foursquareID));
      var w7 := Then(w6, "foursquare_type", StrOpt(foursquareType));
      var w8 := Then(w7, "google_place_id", StrOpt(googlePlaceID));
      var w9 := Then(w8, "google_place_type", StrOpt(googlePlaceType));
      var w10 := Then(w9, "message_thread_id", IntOpt(messageThreadID));
      var w11 := Then(w10, "disable_notification", BoolOpt(disableNotification));
      var w12 := Then(w11, "protect_content", BoolOpt(protectContent));
      var w13 := Then(w12, "reply_to_message_id", IntOpt(replyToMessageID));
      var w14 := Then(w13, "allow_sending_without_reply", BoolOpt(allowSendingWithoutReply));
      var w15 := Then(w14, "reply_markup", StrOpt(inlineKeyboardMarkup));
      var w16 := Then(w15, "reply_markup", StrOpt(replyKeyboardMarkup));
      var w17 := Then(w16, "reply_markup", StrOpt(replyKeyboardRemove));
      var w18 := Then(w17, "reply_markup", StrOpt(forceReply));
      LastSetOther(w1, "latitude", FloatOpt(latitude), "chat_id");
      LastSetOther(w2, "longitude", FloatOpt(longitude), "chat_id");
      LastSetOther(w3, "title", StrOpt(title), "chat_id");
      LastSetOther(w4, "address", StrOpt(address), "chat_id");
      LastSetOther(w5, "foursquare_id", StrOpt(foursquareID), "chat_id");
      LastSetOther(w6, "foursquare_type", StrOpt(foursquareType), "chat_id");
      LastSetOther(w7, "google_place_id", StrOpt(googlePlaceID), "chat_id");
      LastSetOther(w8, "google_place_type", StrOpt(googlePlaceType), "chat_id");
      LastSetOther(w9, "message_thread_id", IntOpt(messageThreadID), "chat_id");
      LastSetOther(w10, "disable_notification", BoolOpt(disableNotification), "chat_id");
      LastSetOther(w11, "protect_content", BoolOpt(protectContent), "chat_id");
      LastSetOther(w12, "reply_to_message_id", IntOpt(replyToMessageID), "chat_id");
      LastSetOther(w13, "allow_sending_without_reply", BoolOpt(allowSendingWithoutReply), "chat_id");
      LastSetOther(w14, "reply_markup", StrOpt(inlineKeyboardMarkup), "chat_id");
      LastSetOther(w15, "reply_markup", StrOpt(replyKeyboardMarkup), "chat_id");
      LastSetOther(w16, "reply_markup", StrOpt(replyKeyboardRemove), "chat_id");
      LastSetOther(w17, "reply_markup", StrOpt(forceReply), "chat_id");
      WrittenLastSet(w18, "chat_id");
    }

    /** The value the calls leave at `latitude`. */
    lemma PlanLatitude()
      ensures HoldsIfSet(OrEmpty(Written(Plan())), "latitude", FloatOpt(latitude))
    {
      var w0 := NoWrites;
      var w1 := Then(w0, "chat_id", IntOpt(chatID));
      var w2 := Then(w1, "latitude", FloatOpt(latitude));
      var w3 := Then(w2, "longitude", FloatOpt(longitude));
      var w4 := Then(w3, "title", StrOpt(title));
      var w5 := Then(w4, "address", StrOpt(address));
      var w6 := Then(w5, "foursquare_id", StrOpt(foursquareID));
      var w7 := Then(w6, "foursquare_type", StrOpt(foursquareType));
      var w8 := Then(w7, "google_place_id", StrOpt(googlePlaceID));
      var w9 := Then(w8, "google_place_type", StrOpt(googlePlaceType));
      var w10 := Then(w9, "message_thread_id", IntOpt(messageThreadID));
      var w11 := Then(w10, "disable_notification", BoolOpt(disableNotification));
      var w12 := Then(w11, "protect_content", BoolOpt(protectContent));
      var w13 := Then(w12, "reply_to_message_id", IntOpt(replyToMessageID));
      var w14 := Then(w13, "allow_sending_without_reply", BoolOpt(allowSendingWithoutReply));
      var w15 := Then(w14, "reply_markup", StrOpt(inlineKeyboardMarkup));
      var w16 := Then(w15, "reply_markup", StrOpt(replyKeyboardMarkup));
      var w17 := Then(w16, "reply_markup", StrOpt(replyKeyboardRemove));
      var w18 := Then(w17, "reply_markup", StrOpt(forceReply));
      LastSetOther(w0, "chat_id", IntOpt(chatID), "latitude");
      LastSetOther(w2, "longitude", FloatOpt(longitude), "latitude");
      LastSetOther(w3, "title", StrOpt(title), "latitude");
      LastSetOther(w4, "address", StrOpt(address), "latitude");
      LastSetOther(w5, "foursquare_id", StrOpt(foursquareID), "latitude");
      LastSetOther(w6, "foursquare_type", StrOpt(foursquareType), "latitude");
      LastSetOther(w7, "google_place_id", StrOpt(googlePlaceID), "latitude");
      LastSetOther(w8, "google_place_type", StrOpt(googlePlaceType), "latitude");
      LastSetOther(w9, "message_thread_id", IntOpt(messageThreadID), "latitude");
      LastSetOther(w10, "disable_notification", BoolOpt(disableNotification), "latitude");
      LastSetOther(w11, "protect_content", BoolOpt(protectContent), "latitude");
      LastSetOther(w12, "reply_to_message_id", IntOpt(replyToMessageID), "latitude");
      LastSetOther(w13, "allow_sending_without_reply", BoolOpt(allowSendingWithoutReply), "latitude");
      LastSetOther(w14, "reply_markup", StrOpt(inlineKeyboardMarkup), "latitude");
      LastSetOther(w15, "reply_markup", StrOpt(replyKeyboardMarkup), "latitude");
      LastSetOther(w16, "reply_markup", StrOpt(replyKeyboardRemove), "latitude");
      LastSetOther(w17, "reply_markup", StrOpt(forceReply), "latitude");
      WrittenLastSet(w18, "latitude");
    }

    /** The value the calls leave at `longitude`. */
    lemma PlanLongitude()
      ensures HoldsIfSet(OrEmpty(Written(Plan())), "longitude", FloatOpt(longitude))
    {
      var w0 := NoWrites;
      var w1 := Then(w0, "chat_id", IntOpt(chatID));
      var w2 := Then(w1, "latitude", FloatOpt(latitude));
      var w3 := Then(w2, "longitude", FloatOpt(longitude));
      var w4 := Then(w3, "title", StrOpt(title));
      var w5 := Then(w4, "address", StrOpt(address));
      var w6 := Then(w5, "foursquare_id", StrOpt(foursquareID));
      var w7 := Then(w6, "foursquare_type", StrOpt(foursquareType));
      var w8 := Then(w7, "google_place_id", StrOpt(googlePlaceID));
      var w9 := Then(w8, "google_place_type", StrOpt(googlePlaceType));
      var w10 := Then(w9, "message_thread_id", IntOpt(messageThreadID));
      var w11 := Then(w10, "disable_notification", BoolOpt(disableNotification));
      var w12 := Then(w11, "protect_content", BoolOpt(protectContent));
      var w13 := Then(w12, "reply_to_message_id", IntOpt(replyToMessageID));
      var w14 := Then(w13, "allow_sending_without_reply", BoolOpt(allowSendingWithoutReply));
      var w15 := Then(w14, "reply_markup", StrOpt(inlineKeyboardMarkup));
      var w16 := Then(w15, "reply_markup", StrOpt(replyKeyboardMarkup));
      var w17 := Then(w16, "reply_markup", StrOpt(replyKeyboardRemove));
      var w18 := Then(w17, "reply_markup", StrOpt(forceReply));
      LastSetOther(w0, "chat_id", IntOpt(chatID), "longitude");
      LastSetOther(w1, "latitude", FloatOpt(latitude), "longitude");
      LastSetOther(w3, "title", StrOpt(title), "longitude");
      LastSetOther(w4, "address", StrOpt(address), "longitude");
      LastSetOther(w5, "foursquare_id", StrOpt(foursquareID), "longitude");
      LastSetOther(w6, "foursquare_type", StrOpt(foursquareType), "longitude");
      LastSetOther(w7, "google_place_id", StrOpt(googlePlaceID), "longitude");
      LastSetOther(w8, "google_place_type", StrOpt(googlePlaceType), "longitude");
      LastSetOther(w9, "message_thread_id", IntOpt(messageThreadID), "longitude");
      LastSetOther(w10, "disable_notification", BoolOpt(disableNotification), "longitude");
      LastSetOther(w11, "protect_content", BoolOpt(protectContent), "longitude");
      LastSetOther(w12, "reply_to_message_id", IntOpt(replyToMessageID), "longitude");
      LastSetOther(w13, "allow_sending_without_reply", BoolOpt(allowSendingWithoutReply), "longitude");
      LastSetOther(w14, "reply_markup", StrOpt(inlineKeyboardMarkup), "longitude");
      LastSetOther(w15, "reply_markup", StrOpt(replyKeyboardMarkup), "longitude");
      LastSetOther(w16, "reply_markup", StrOpt(replyKeyboardRemove), "longitude");
      LastSetOther(w17, "reply_markup", StrOpt(forceReply), "longitude");
      WrittenLastSet(w18, "longitude");
    }

    /** The value the calls leave at `title`. */
    lemma PlanTitle()
      ensures HoldsIfSet(OrEmpty(Written(Plan())), "title", StrOpt(title))
    {
      var w0 := NoWrites;
      var w1 := Then(w0, "chat_id", IntOpt(chatID));
      var w2 := Then(w1, "latitude", FloatOpt(latitude));
      var w3 := Then(w2, "longitude", FloatOpt(longitude));
      var w4 := Then(w3, "title", StrOpt(title));
      var w5 := Then(w4, "address", StrOpt(address));
      var w6 := Then(w5, "foursquare_id", StrOpt(foursquareID));
      var w7 := Then(w6, "foursquare_type", StrOpt(foursquareType));
      var w8 := Then(w7, "google_place_id", StrOpt(googlePlaceID));
      var w9 := Then(w8, "google_place_type", StrOpt(googlePlaceType));
      var w10 := Then(w9, "message_thread_id", IntOpt(messageThreadID));
      var w11 := Then(w10, "disable_notification", BoolOpt(disableNotification));
      var w12 := Then(w11, "protect_content", BoolOpt(protectContent));
      var w13 := Then(w12, "reply_to_message_id", IntOpt(replyToMessageID));
      var w14 := Then(w13, "allow_sending_without_reply", BoolOpt(allowSendingWithoutReply));
      var w15 := Then(w14, "reply_markup", StrOpt(inlineKeyboardMarkup));
      var w16 := Then(w15, "reply_markup", StrOpt(replyKeyboardMarkup));
      var w17 := Then(w16, "reply_markup", StrOpt(replyKeyboardRemove));
      var w18 := Then(w17, "reply_markup", StrOpt(forceReply));
      LastSetOther(w0, "chat_id", IntOpt(chatID), "title");
      LastSetOther(w1, "latitude", FloatOpt(latitude), "title");
      LastSetOther(w2, "longitude", FloatOpt(longitude), "title");
      LastSetOther(w4, "address", StrOpt(address), "title");
      LastSetOther(w5, "foursquare_id", StrOpt(foursquareID), "title");
      LastSetOther(w6, "foursquare_type", StrOpt(foursquareType), "title");
      LastSetOther(w7, "google_place_id", StrOpt(googlePlaceID), "title");
      LastSetOther(w8, "google_place_type", StrOpt(googlePlaceType), "title");
      LastSetOther(w9, "message_thread_id", IntOpt(messageThreadID), "title");
      LastSetOther(w10, "disable_notification", BoolOpt(disableNotification), "title");
      LastSetOther(w11, "protect_content", BoolOpt(protectContent), "title");
      LastSetOther(w12, "reply_to_message_id", IntOpt(replyToMessageID), "title");
      LastSetOther(w13, "allow_sending_without_reply", BoolOpt(allowSendingWithoutReply), "title");
      LastSetOther(w14, "reply_markup", StrOpt(inlineKeyboardMarkup), "title");
      LastSetOther(w15, "reply_markup", StrOpt(replyKeyboardMarkup), "title");
      LastSetOther(w16, "reply_markup", StrOpt(replyKeyboardRemove), "title");
      LastSetOther(w17, "reply_markup", StrOpt(forceReply), "title");
      WrittenLastSet(w18, "title");
    }

    /** The value the calls leave at `address`. */
    lemma PlanAddress()
      ensures HoldsIfSet(OrEmpty(Written(Plan())), "address", StrOpt(address))
    {
      var w0 := NoWrites;
      var w1 := Then(w0, "chat_id", IntOpt(chatID));
      var w2 := Then(w1, "latitude", FloatOpt(latitude));
      var w3 := Then(w2, "longitude", FloatOpt(longitude));
      var w4 := Then(w3, "title", StrOpt(title));
      var w5 := Then(w4, "address", StrOpt(address));
      var w6 := Then(w5, "foursquare_id", StrOpt(foursquareID));
      var w7 := Then(w6, "foursquare_type", StrOpt(foursquareType));
      var w8 := Then(w7, "google_place_id", StrOpt(googlePlaceID));
      var w9 := Then(w8, "google_place_type", StrOpt(googlePlaceType));
      var w10 := Then(w9, "message_thread_id", IntOpt(messageThreadID));
      var w11 := Then(w10, "disable_notification", BoolOpt(disableNotification));
      var w12 := Then(w11, "protect_content", BoolOpt(protectContent));
      var w13 := Then(w12, "reply_to_message_id", IntOpt(replyToMessageID));
      var w14 := Then(w13, "allow_sending_without_reply", BoolOpt(allowSendingWithoutReply));
      var w15 := Then(w14, "reply_markup", StrOpt(inlineKeyboardMarkup));
      var w16 := Then(w15, "reply_markup", StrOpt(replyKeyboardMarkup));
      var w17 := Then(w16, "reply_markup", StrOpt(replyKeyboardRemove));
      var w18 := Then(w17, "reply_markup", StrOpt(forceReply));
      LastSetOther(w0, "chat_id", IntOpt(chatID), "address");
      LastSetOther(w1, "latitude", FloatOpt(latitude), "address");
      LastSetOther(w2, "longitude", FloatOpt(longitude), "address");
      LastSetOther(w3, "title", StrOpt(title), "address");
      LastSetOther(w5, "foursquare_id", StrOpt(foursquareID), "address");
      LastSetOther(w6, "foursquare_type", StrOpt(foursquareType), "address");
      LastSetOther(w7, "google_place_id", StrOpt(googlePlaceID), "address");
      LastSetOther(w8, "google_place_type", StrOpt(googlePlaceType), "address");
      LastSetOther(w9, "message_thread_id", IntOpt(messageThreadID), "address");
      LastSetOther(w10, "disable_notification", BoolOpt(disableNotification), "address");
      LastSetOther(w11, "protect_content", BoolOpt(protectContent), "address");
      LastSetOther(w12, "reply_to_message_id", IntOpt(replyToMessageID), "address");
      LastSetOther(w13, "allow_sending_without_reply", BoolOpt(allowSendingWithoutReply), "address");
      LastSetOther(w14, "reply_markup", StrOpt(inlineKeyboardMarkup), "address");
      LastSetOther(w15, "reply_markup", StrOpt(replyKeyboardMarkup), "address");
      LastSetOther(w16, "reply_markup", StrOpt(replyKeyboardRemove), "address");
      LastSetOther(w17, "reply_markup", StrOpt(forceReply), "address");
      WrittenLastSet(w18, "address");
    }

    /** The value the calls leave at `foursquare_id`. */
    lemma PlanFoursquareID()
      ensures HoldsIfSet(OrEmpty(Written(Plan())), "foursquare_id", StrOpt(foursquareID))
    {
      var w0 := NoWrites;
      var w1 := Then(w0, "chat_id", IntOpt(chatID));
      var w2 := Then(w1, "latitude", FloatOpt(latitude));
      var w3 := Then(w2, "longitude", FloatOpt(longitude));
      var w4 := Then(w3, "title", StrOpt(title));
      var w5 := Then(w4, "address", StrOpt(address));
      var w6 := Then(w5, "foursquare_id", StrOpt(foursquareID));
      var w7 := Then(w6, "foursquare_type", StrOpt(foursquareType));
      var w8 := Then(w7, "google_place_id", StrOpt(googlePlaceID));
      var w9 := Then(w8, "google_place_type", StrOpt(googlePlaceType));
      var w10 := Then(w9, "message_thread_id", IntOpt(messageThreadID));
      var w11 := Then(w10, "disable_notification", BoolOpt(disableNotification));
      var w12 := Then(w11, "protect_content", BoolOpt(protectContent));
      var w13 := Then(w12, "reply_to_message_id", IntOpt(replyToMessageID));
      var w14 := Then(w13, "allow_sending_without_reply", BoolOpt(allowSendingWithoutReply));
      var w15 := Then(w14, "reply_markup", StrOpt(inlineKeyboardMarkup));
      var w16 := Then(w15, "reply_markup", StrOpt(replyKeyboardMarkup));
      var w17 := Then(w16, "reply_markup", StrOpt(replyKeyboardRemove));
      var w18 := Then(w17, "reply_markup", StrOpt(forceReply));
      LastSetOther(w0, "chat_id", IntOpt(chatID), "foursquare_id");
      LastSetOther(w1, "latitude", FloatOpt(latitude), "foursquare_id");
      LastSetOther(w2, "longitude", FloatOpt(longitude), "foursquare_id");
      LastSetOther(w3, "title", StrOpt(title), "foursquare_id");
      LastSetOther(w4, "address", StrOpt(address), "foursquare_id");
      LastSetOther(w6, "foursquare_type", StrOpt(foursquareType), "foursquare_id");
      LastSetOther(w7, "google_place_id", StrOpt(googlePlaceID), "foursquare_id");
      LastSetOther(w8, "google_place_type", StrOpt(googlePlaceType), "foursquare_id");
      LastSetOther(w9, "message_thread_id", IntOpt(messageThreadID), "foursquare_id");
      LastSetOther(w10, "disable_notification", BoolOpt(disableNotification), "foursquare_id");
      LastSetOther(w11, "protect_content", BoolOpt(protectContent), "foursquare_id");
      LastSetOther(w12, "reply_to_message_id", IntOpt(replyToMessageID), "foursquare_id");
      LastSetOther(w13, "allow_sending_without_reply", BoolOpt(allowSendingWithoutReply), "foursquare_id");
      LastSetOther(w14, "reply_markup", StrOpt(inlineKeyboardMarkup), "foursquare_id");
      LastSetOther(w15, "reply_markup", StrOpt(replyKeyboardMarkup), "foursquare_id");
      LastSetOther(w16, "reply_markup", StrOpt(replyKeyboardRemove), "foursquare_id");
      LastSetOther(w17, "reply_markup", StrOpt(forceReply), "foursquare_id");
      WrittenLastSet(w18, "foursquare_id");
    }

    /** The value the calls leave at `foursquare_type`. */
    lemma PlanFoursquareType()
      ensures HoldsIfSet(OrEmpty(Written(Plan())), "foursquare_type", StrOpt(foursquareType))
    {
      var w0 := NoWrites;
      var w1 := Then(w0, "chat_id", IntOpt(chatID));
      var w2 := Then(w1, "latitude", FloatOpt(latitude));
      var w3 := Then(w2, "longitude", FloatOpt(longitude));
      var w4 := Then(w3, "title", StrOpt(title));
      var w5 := Then(w4, "address", StrOpt(address));
      var w6 := Then(w5, "foursquare_id", StrOpt(foursquareID));
      var w7 := Then(w6, "foursquare_type", StrOpt(foursquareType));
      var w8 := Then(w7, "google_place_id", StrOpt(googlePlaceID));
      var w9 := Then(w8, "google_place_type", StrOpt(googlePlaceType));
      var w10 := Then(w9, "message_thread_id", IntOpt(messageThreadID));
      var w11 := Then(w10, "disable_notification", BoolOpt(disableNotification));
      var w12 := Then(w11, "protect_content", BoolOpt(protectContent));
      var w13 := Then(w12, "reply_to_message_id", IntOpt(replyToMessageID));
      var w14 := Then(w13, "allow_sending_without_reply", BoolOpt(allowSendingWithoutReply));
      var w15 := Then(w14, "reply_markup", StrOpt(inlineKeyboardMarkup));
      var w16 := Then(w15, "reply_markup", StrOpt(replyKeyboardMarkup));
      var w17 := Then(w16, "reply_markup", StrOpt(replyKeyboardRemove));
      var w18 := Then(w17, "reply_markup", StrOpt(forceReply));
      LastSetOther(w0, "chat_id", IntOpt(chatID), "foursquare_type");
      LastSetOther(w1, "latitude", FloatOpt(latitude), "foursquare_type");
      LastSetOther(w2, "longitude", FloatOpt(longitude), "foursquare_type");
      LastSetOther(w3, "title", StrOpt(title), "foursquare_type");
      LastSetOther(w4, "address", StrOpt(address), "foursquare_type");
      LastSetOther(w5, "foursquare_id", StrOpt(foursquareID), "foursquare_type");
      LastSetOther(w7, "google_place_id", StrOpt(googlePlaceID), "foursquare_type");
      LastSetOther(w8, "google_place_type", StrOpt(googlePlaceType), "foursquare_type");
      LastSetOther(w9, "message_thread_id", IntOpt(messageThreadID), "foursquare_type");
      LastSetOther(w10, "disable_notification", BoolOpt(disableNotification), "foursquare_type");
      LastSetOther(w11, "protect_content", BoolOpt(protectContent), "foursquare_type");
      LastSetOther(w12, "reply_to_message_id", IntOpt(replyToMessageID), "foursquare_type");
      LastSetOther(w13, "allow_sending_without_reply", BoolOpt(allowSendingWithoutReply), "foursquare_type");
      LastSetOther(w14, "reply_markup", StrOpt(inlineKeyboardMarkup), "foursquare_type");
      LastSetOther(w15, "reply_markup", StrOpt(replyKeyboardMarkup), "foursquare_type");
      LastSetOther(w16, "reply_markup", StrOpt(replyKeyboardRemove), "foursquare_type");
      LastSetOther(w17, "reply_markup", StrOpt(forceReply), "foursquare_type");
      WrittenLastSet(w18, "foursquare_type");
    }

    /** The value the calls leave at `google_place_id`. */
    lemma PlanGooglePlaceID()
      ensures HoldsIfSet(OrEmpty(Written(Plan())), "google_place_id", StrOpt(googlePlaceID))
    {
      var w0 := NoWrites;
      var w1 := Then(w0, "chat_id", IntOpt(chatID));
      var w2 := Then(w1, "latitude", FloatOpt(latitude));
      var w3 := Then(w2, "longitude", FloatOpt(longitude));
      var w4 := Then(w3, "title", StrOpt(title));
      var w5 := Then(w4, "address", StrOpt(address));
      var w6 := Then(w5, "foursquare_id", StrOpt(foursquareID));
      var w7 := Then(w6, "foursquare_type", StrOpt(foursquareType));
      var w8 := Then(w7, "google_place_id", StrOpt(googlePlaceID));
      var w9 := Then(w8, "google_place_type", StrOpt(googlePlaceType));
      var w10 := Then(w9, "message_thread_id", IntOpt(messageThreadID));
      var w11 := Then(w10, "disable_notification", BoolOpt(disableNotification));
      var w12 := Then(w11, "protect_content", BoolOpt(protectContent));
      var w13 := Then(w12, "reply_to_message_id", IntOpt(replyToMessageID));
      var w14 := Then(w13, "allow_sending_without_reply", BoolOpt(allowSendingWithoutReply));
      var w15 := Then(w14, "reply_markup", StrOpt(inlineKeyboardMarkup));
      var w16 := Then(w15, "reply_markup", StrOpt(replyKeyboardMarkup));
      var w17 := Then(w16, "reply_markup", StrOpt(replyKeyboardRemove));
      var w18 := Then(w17, "reply_markup", StrOpt(forceReply));
      LastSetOther(w0, "chat_id", IntOpt(chatID), "google_place_id");
      LastSetOther(w1, "latitude", FloatOpt(latitude), "google_place_id");
      LastSetOther(w2, "longitude", FloatOpt(longitude), "google_place_id");
      LastSetOther(w3, "title", StrOpt(title), "google_place_id");
      LastSetOther(w4, "address", StrOpt(address), "google_place_id");
      LastSetOther(w5, "foursquare_id", StrOpt(foursquareID), "google_place_id");
      LastSetOther(w6, "foursquare_type", StrOpt(foursquareType), "google_place_id");
      LastSetOther(w8, "google_place_type", StrOpt(googlePlaceType), "google_place_id");
      LastSetOther(w9, "message_thread_id", IntOpt(messageThreadID), "google_place_id");
      LastSetOther(w10, "disable_notification", BoolOpt(disableNotification), "google_place_id");
      LastSetOther(w11, "protect_content", BoolOpt(protectContent), "google_place_id");
      LastSetOther(w12, "reply_to_message_id", IntOpt(replyToMessageID), "google_place_id");
      LastSetOther(w13, "allow_sending_without_reply", BoolOpt(allowSendingWithoutReply), "google_place_id");
      LastSetOther(w14, "reply_markup", StrOpt(inlineKeyboardMarkup), "google_place_id");
      LastSetOther(w15, "reply_markup", StrOpt(replyKeyboardMarkup), "google_place_id");
      LastSetOther(w16, "reply_markup", StrOpt(replyKeyboardRemove), "google_place_id");
      LastSetOther(w17, "reply_markup", StrOpt(forceReply), "google_place_id");
      WrittenLastSet(w18, "google_place_id");
    }

    /** The value the calls leave at `google_place_type`. */
    lemma PlanGooglePlaceType()
      ensures HoldsIfSet(OrEmpty(Written(Plan())), "google_place_type", StrOpt(googlePlaceType))
    {
      var w0 := NoWrites;
      var w1 := Then(w0, "chat_id", IntOpt(chatID));
      var w2 := Then(w1, "latitude", FloatOpt(latitude));
      var w3 := Then(w2, "longitude", FloatOpt(longitude));
      var w4 := Then(w3, "title", StrOpt(title));
      var w5 := Then(w4, "address", StrOpt(address));
      var w6 := Then(w5, "foursquare_id", StrOpt(foursquareID));
      var w7 := Then(w6, "foursquare_type", StrOpt(foursquareType));
      var w8 := Then(w7, "google_place_id", StrOpt(googlePlaceID));
      var w9 := Then(w8, "google_place_type", StrOpt(googlePlaceType));
      var w10 := Then(w9, "message_thread_id", IntOpt(messageThreadID));
      var w11 := Then(w10, "disable_notification", BoolOpt(disableNotification));
      var w12 := Then(w11, "protect_content", BoolOpt(protectContent));
      var w13 := Then(w12, "reply_to_message_id", IntOpt(replyToMessageID));
      var w14 := Then(w13, "allow_sending_without_reply", BoolOpt(allowSendingWithoutReply));
      var w15 := Then(w14, "reply_markup", StrOpt(inlineKeyboardMarkup));
      var w16 := Then(w15, "reply_markup", StrOpt(replyKeyboardMarkup));
      var w17 := Then(w16, "reply_markup", StrOpt(replyKeyboardRemove));
      var w18 := Then(w17, "reply_markup", StrOpt(forceReply));
      LastSetOther(w0, "chat_id", IntOpt(chatID), "google_place_type");
      LastSetOther(w1, "latitude", FloatOpt(latitude), "google_place_type");
      LastSetOther(w2, "longitude", FloatOpt(longitude), "google_place_type");
      LastSetOther(w3, "title", StrOpt(title), "google_place_type");
      LastSetOther(w4, "address", StrOpt(address), "google_place_type");
      LastSetOther(w5, "foursquare_id", StrOpt(foursquareID), "google_place_type");
      LastSetOther(w6, "foursquare_type", StrOpt(foursquareType), "google_place_type");
      LastSetOther(w7, "google_place_id", StrOpt(googlePlaceID), "google_place_type");
      LastSetOther(w9, "message_thread_id", IntOpt(messageThreadID), "google_place_type");
      LastSetOther(w10, "disable_notification", BoolOpt(disableNotification), "google_place_type");
      LastSetOther(w11, "protect_content", BoolOpt(protectContent), "google_place_type");
      LastSetOther(w12, "reply_to_message_id", IntOpt(replyToMessageID), "google_place_type");
      LastSetOther(w13, "allow_sending_without_reply", BoolOpt(allowSendingWithoutReply), "google_place_type");
      LastSetOther(w14, "reply_markup", StrOpt(inlineKeyboardMarkup), "google_place_type");
      LastSetOther(w15, "reply_markup", StrOpt(replyKeyboardMarkup), "google_place_type");
      LastSetOther(w16, "reply_markup", StrOpt(replyKeyboardRemove), "google_place_type");
      LastSetOther(w17, "reply_markup", StrOpt(forceReply), "google_place_type");
      WrittenLastSet(w18, "google_place_type");
    }

    /** The value the calls leave at `message_thread_id`. */
    lemma PlanMessageThreadID()
      ensures HoldsIfSet(OrEmpty(Written(Plan())), "message_thread_id", IntOpt(messageThreadID))
    {
      var w0 := NoWrites;
      var w1 := Then(w0, "chat_id", IntOpt(chatID));
      var w2 := Then(w1, "latitude", FloatOpt(latitude));
      var w3 := Then(w2, "longitude", FloatOpt(longitude));
      var w4 := Then(w3, "title", StrOpt(title));
      var w5 := Then(w4, "address", StrOpt(address));
      var w6 := Then(w5, "foursquare_id", StrOpt(foursquareID));
      var w7 := Then(w6, "foursquare_type", StrOpt(foursquareType));
      var w8 := Then(w7, "google_place_id", StrOpt(googlePlaceID));
      var w9 := Then(w8, "google_place_type", StrOpt(googlePlaceType));
      var w10 := Then(w9, "message_thread_id", IntOpt(messageThreadID));
      var w11 := Then(w10, "disable_notification", BoolOpt(disableNotification));
      var w12 := Then(w11, "protect_content", BoolOpt(protectContent));
      var w13 := Then(w12, "reply_to_message_id", IntOpt(replyToMessageID));
      var w14 := Then(w13, "allow_sending_without_reply", BoolOpt(allowSendingWithoutReply));
      var w15 := Then(w14, "reply_markup", StrOpt(inlineKeyboardMarkup));
      var w16 := Then(w15, "reply_markup", StrOpt(replyKeyboardMarkup));
      var w17 := Then(w16, "reply_markup", StrOpt(replyKeyboardRemove));
      var w18 := Then(w17, "reply_markup", StrOpt(forceReply));
      LastSetOther(w0, "chat_id", IntOpt(chatID), "message_thread_id");
      LastSetOther(w1, "latitude", FloatOpt(latitude), "message_thread_id");
      LastSetOther(w2, "longitude", FloatOpt(longitude), "message_thread_id");
      LastSetOther(w3, "title", StrOpt(title), "message_thread_id");
      LastSetOther(w4, "address", StrOpt(address), "message_thread_id");
      LastSetOther(w5, "foursquare_id", StrOpt(foursquareID), "message_thread_id");
      LastSetOther(w6, "foursquare_type", StrOpt(foursquareType), "message_thread_id");
      LastSetOther(w7, "google_place_id", StrOpt(googlePlaceID), "message_thread_id");
      LastSetOther(w8, "google_place_type", StrOpt(googlePlaceType), "message_thread_id");
      LastSetOther(w10, "disable_notification", BoolOpt(disableNotification), "message_thread_id");
      LastSetOther(w11, "protect_content", BoolOpt(protectContent), "message_thread_id");
      LastSetOther(w12, "reply_to_message_id", IntOpt(replyToMessageID), "message_thread_id");
      LastSetOther(w13, "allow_sending_without_reply", BoolOpt(allowSendingWithoutReply), "message_thread_id");
      LastSetOther(w14, "reply_markup", StrOpt(inlineKeyboardMarkup), "message_thread_id");
      LastSetOther(w15, "reply_markup", StrOpt(replyKeyboardMarkup), "message_thread_id");
      LastSetOther(w16, "reply_markup", StrOpt(replyKeyboardRemove), "message_thread_id");
      LastSetOther(w17, "reply_markup", StrOpt(forceReply), "message_thread_id");
      WrittenLastSet(w18, "message_thread_id");
    }

    /** The value the calls leave at `disable_notification`. */
    lemma PlanDisableNotification()
      ensures HoldsIfSet(OrEmpty(Written(Plan())), "disable_notification", BoolOpt(disableNotification))
    {
      var w0 := NoWrites;
      var w1 := Then(w0, "chat_id", IntOpt(chatID));
      var w2 := Then(w1, "latitude", FloatOpt(latitude));
      var w3 := Then(w2, "longitude", FloatOpt(longitude));
      var w4 := Then(w3, "title", StrOpt(title));
      var w5 := Then(w4, "address", StrOpt(address));
      var w6 := Then(w5, "foursquare_id", StrOpt(foursquareID));
      var w7 := Then(w6, "foursquare_type", StrOpt(foursquareType));
      var w8 := Then(w7, "google_place_id", StrOpt(googlePlaceID));
      var w9 := Then(w8, "google_place_type", StrOpt(googlePlaceType));
      var w10 := Then(w9, "message_thread_id", IntOpt(messageThreadID));
      var w11 := Then(w10, "disable_notification", BoolOpt(disableNotification));
      var w12 := Then(w11, "protect_content", BoolOpt(protectContent));
      var w13 := Then(w12, "reply_to_message_id", IntOpt(replyToMessageID));
      var w14 := Then(w13, "allow_sending_without_reply", BoolOpt(allowSendingWithoutReply));
      var w15 := Then(w14, "reply_markup", StrOpt(inlineKeyboardMarkup));
      var w16 := Then(w15, "reply_markup", StrOpt(replyKeyboardMarkup));
      var w17 := Then(w16, "reply_markup", StrOpt(replyKeyboardRemove));
      var w18 := Then(w17, "reply_markup", StrOpt(forceReply));
      LastSetOther(w0, "chat_id", IntOpt(chatID), "disable_notification");
      LastSetOther(w1, "latitude", FloatOpt(latitude), "disable_notification");
      LastSetOther(w2, "longitude", FloatOpt(longitude), "disable_notification");
      LastSetOther(w3, "title", StrOpt(title), "disable_notification");
      LastSetOther(w4, "address", StrOpt(address), "disable_notification");
      LastSetOther(w5, "foursquare_id", StrOpt(foursquareID), "disable_notification");
      LastSetOther(w6, "foursquare_type", StrOpt(foursquareType), "disable_notification");
      LastSetOther(w7, "google_place_id", StrOpt(googlePlaceID), "disable_notification");
      LastSetOther(w8, "google_place_type", StrOpt(googlePlaceType), "disable_notification");
      LastSetOther(w9, "message_thread_id", IntOpt(messageThreadID), "disable_notification");
      LastSetOther(w11, "protect_content", BoolOpt(protectContent), "disable_notification");
      LastSetOther(w12, "reply_to_message_id", IntOpt(replyToMessageID), "disable_notification");
      LastSetOther(w13, "allow_sending_without_reply", BoolOpt(allowSendingWithoutReply), "disable_notification");
      LastSetOther(w14, "reply_markup", StrOpt(inlineKeyboardMarkup), "disable_notification");
      LastSetOther(w15, "reply_markup", StrOpt(replyKeyboardMarkup), "disable_notification");
      LastSetOther(w16, "reply_markup", StrOpt(replyKeyboardRemove), "disable_notification");
      LastSetOther(w17, "reply_markup", StrOpt(forceReply), "disable_notification");
      WrittenLastSet(w18, "disable_notification");
    }

    /** The value the calls leave at `protect_content`. */
    lemma PlanProtectContent()
      ensures HoldsIfSet(OrEmpty(Written(Plan())), "protect_content", BoolOpt(protectContent))
    {
      var w0 := NoWrites;
      var w1 := Then(w0, "chat_id", IntOpt(chatID));
      var w2 := Then(w1, "latitude", FloatOpt(latitude));
      var w3 := Then(w2, "longitude", FloatOpt(longitude));
      var w4 := Then(w3, "title", StrOpt(title));
      var w5 := Then(w4, "address", StrOpt(address));
      var w6 := Then(w5, "foursquare_id", StrOpt(foursquareID));
      var w7 := Then(w6, "foursquare_type", StrOpt(foursquareType));
      var w8 := Then(w7, "google_place_id", StrOpt(googlePlaceID));
      var w9 := Then(w8, "google_place_type", StrOpt(googlePlaceType));
      var w10 := Then(w9, "message_thread_id", IntOpt(messageThreadID));
      var w11 := Then(w10, "disable_notification", BoolOpt(disableNotification));
      var w12 := Then(w11, "protect_content", BoolOpt(protectContent));
      var w13 := Then(w12, "reply_to_message_id", IntOpt(replyToMessageID));
      var w14 := Then(w13, "allow_sending_without_reply", BoolOpt(allowSendingWithoutReply));
      var w15 := Then(w14, "reply_markup", StrOpt(inlineKeyboardMarkup));
      var w16 := Then(w15, "reply_markup", StrOpt(replyKeyboardMarkup));
      var w17 := Then(w16, "reply_markup", StrOpt(replyKeyboardRemove));
      var w18 := Then(w17, "reply_markup", StrOpt(forceReply));
      LastSetOther(w0, "chat_id", IntOpt(chatID), "protect_content");
      LastSetOther(w1, "latitude", FloatOpt(latitude), "protect_content");
      LastSetOther(w2, "longitude", FloatOpt(longitude), "protect_content");
      LastSetOther(w3, "title", StrOpt(title), "protect_content");
      LastSetOther(w4, "address", StrOpt(address), "protect_content");
      LastSetOther(w5, "foursquare_id", StrOpt(foursquareID), "protect_content");
      LastSetOther(w6, "foursquare_type", StrOpt(foursquareType), "protect_content");
      LastSetOther(w7, "google_place_id", StrOpt(googlePlaceID), "protect_content");
      LastSetOther(w8, "google_place_type", StrOpt(googlePlaceType), "protect_content");
      LastSetOther(w9, "message_thread_id", IntOpt(messageThreadID), "protect_content");
      LastSetOther(w10, "disable_notification", BoolOpt(disableNotification), "protect_content");
      LastSetOther(w12, "reply_to_message_id", IntOpt(replyToMessageID), "protect_content");
      LastSetOther(w13, "allow_sending_without_reply", BoolOpt(allowSendingWithoutReply), "protect_content");
      LastSetOther(w14, "reply_markup", StrOpt(inlineKeyboardMarkup), "protect_content");
      LastSetOther(w15, "reply_markup", StrOpt(replyKeyboardMarkup), "protect_content");
      LastSetOther(w16, "reply_markup", StrOpt(replyKeyboardRemove), "protect_content");
      LastSetOther(w17, "reply_markup", StrOpt(forceReply), "protect_content");
      WrittenLastSet(w18, "protect_content");
    }

    /** The value the calls leave at `reply_to_message_id`. */
    lemma PlanReplyToMessageID()
      ensures HoldsIfSet(OrEmpty(Written(Plan())), "reply_to_message_id", IntOpt(replyToMessageID))
    {
      var w0 := NoWrites;
      var w1 := Then(w0, "chat_id", IntOpt(chatID));
      var w2 := Then(w1, "latitude", FloatOpt(latitude));
      var w3 := Then(w2, "longitude", FloatOpt(longitude));
      var w4 := Then(w3, "title", StrOpt(title));
      var w5 := Then(w4, "address", StrOpt(address));
      var w6 := Then(w5, "foursquare_id", StrOpt(foursquareID));
      var w7 := Then(w6, "foursquare_type", StrOpt(foursquareType));
      var w8 := Then(w7, "google_place_id", StrOpt(googlePlaceID));
      var w9 := Then(w8, "google_place_type", StrOpt(googlePlaceType));
      var w10 := Then(w9, "message_thread_id", IntOpt(messageThreadID));
      var w11 := Then(w10, "disable_notification", BoolOpt(disableNotification));
      var w12 := Then(w11, "protect_content", BoolOpt(protectContent));
      var w13 := Then(w12, "reply_to_message_id", IntOpt(replyToMessageID));
      var w14 := Then(w13, "allow_sending_without_reply", BoolOpt(allowSendingWithoutReply));
      var w15 := Then(w14, "reply_markup", StrOpt(inlineKeyboardMarkup));
      var w16 := Then(w15, "reply_markup", StrOpt(replyKeyboardMarkup));
      var w17 := Then(w16, "reply_markup", StrOpt(replyKeyboardRemove));
      var w18 := Then(w17, "reply_markup", StrOpt(forceReply));
      LastSetOther(w0, "chat_id", IntOpt(chatID), "reply_to_message_id");
      LastSetOther(w1, "latitude", FloatOpt(latitude), "reply_to_message_id");
      LastSetOther(w2, "longitude", FloatOpt(longitude), "reply_to_message_id");
      LastSetOther(w3, "title", StrOpt(title), "reply_to_message_id");
      LastSetOther(w4, "address", StrOpt(address), "reply_to_message_id");
      LastSetOther(w5, "foursquare_id", StrOpt(foursquareID), "reply_to_message_id");
      LastSetOther(w6, "foursquare_type", StrOpt(foursquareType), "reply_to_message_id");
      LastSetOther(w7, "google_place_id", StrOpt(googlePlaceID), "reply_to_message_id");
      LastSetOther(w8, "google_place_type", StrOpt(googlePlaceType), "reply_to_message_id");
      LastSetOther(w9, "message_thread_id", IntOpt(messageThreadID), "reply_to_message_id");
      LastSetOther(w10, "disable_notification", BoolOpt(disableNotification), "reply_to_message_id");
      LastSetOther(w11, "protect_content", BoolOpt(protectContent), "reply_to_message_id");
      LastSetOther(w13, "allow_sending_without_reply", BoolOpt(allowSendingWithoutReply), "reply_to_message_id");
      LastSetOther(w14, "reply_markup", StrOpt(inlineKeyboardMarkup), "reply_to_message_id");
      LastSetOther(w15, "reply_markup", StrOpt(replyKeyboardMarkup), "reply_to_message_id");
      LastSetOther(w16, "reply_markup", StrOpt(replyKeyboardRemove), "reply_to_message_id");
      LastSetOther(w17, "reply_markup", StrOpt(forceReply), "reply_to_message_id");
      WrittenLastSet(w18, "reply_to_message_id");
    }

    /** The value the calls leave at `allow_sending_without_reply`. */
    lemma PlanAllowSendingWithoutReply()
      ensures HoldsIfSet(OrEmpty(Written(Plan())), "allow_sending_without_reply", BoolOpt(allowSendingWithoutReply))
    {
      var w0 := NoWrites;
      var w1 := Then(w0, "chat_id", IntOpt(chatID));
      var w2 := Then(w1, "latitude", FloatOpt(latitude));
      var w3 := Then(w2, "longitude", FloatOpt(longitude));
      var w4 := Then(w3, "title", StrOpt(title));
      var w5 := Then(w4, "address", StrOpt(address));
      var w6 := Then(w5, "foursquare_id", StrOpt(foursquareID));
      var w7 := Then(w6, "foursquare_type", StrOpt(foursquareType));
      var w8 := Then(w7, "google_place_id", StrOpt(googlePlaceID));
      var w9 := Then(w8, "google_place_type", StrOpt(googlePlaceType));
      var w10 := Then(w9, "message_thread_id", IntOpt(messageThreadID));
      var w11 := Then(w10, "disable_notification", BoolOpt(disableNotification));
      var w12 := Then(w11, "protect_content", BoolOpt(protectContent));
      var w13 := Then(w12, "reply_to_message_id", IntOpt(replyToMessageID));
      var w14 := Then(w13, "allow_sending_without_reply", BoolOpt(allowSendingWithoutReply));
      var w15 := Then(w14, "reply_markup", StrOpt(inlineKeyboardMarkup));
      var w16 := Then(w15, "reply_markup", StrOpt(replyKeyboardMarkup));
      var w17 := Then(w16, "reply_markup", StrOpt(replyKeyboardRemove));
      var w18 := Then(w17, "reply_markup", StrOpt(forceReply));
      LastSetOther(w0, "chat_id", IntOpt(chatID), "allow_sending_without_reply");
      LastSetOther(w1, "latitude", FloatOpt(latitude), "allow_sending_without_reply");
      LastSetOther(w2, "longitude", FloatOpt(longitude), "allow_sending_without_reply");
      LastSetOther(w3, "title", StrOpt(title), "allow_sending_without_reply");
      LastSetOther(w4, "address", StrOpt(address), "allow_sending_without_reply");
      LastSetOther(w5, "foursquare_id", StrOpt(foursquareID), "allow_sending_without_reply");
      LastSetOther(w6, "foursquare_type", StrOpt(foursquareType), "allow_sending_without_reply");
      LastSetOther(w7, "google_place_id", StrOpt(googlePlaceID), "allow_sending_without_reply");
      LastSetOther(w8, "google_place_type", StrOpt(googlePlaceType), "allow_sending_without_reply");
      LastSetOther(w9, "message_thread_id", IntOpt(messageThreadID), "allow_sending_without_reply");
      LastSetOther(w10, "disable_notification", BoolOpt(disableNotification), "allow_sending_without_reply");
      LastSetOther(w11, "protect_content", BoolOpt(protectContent), "allow_sending_without_reply");
      LastSetOther(w12, "reply_to_message_id", IntOpt(replyToMessageID), "allow_sending_without_reply");
      LastSetOther(w14, "reply_markup", StrOpt(inlineKeyboardMarkup), "allow_sending_without_reply");
      LastSetOther(w15, "reply_markup", StrOpt(replyKeyboardMarkup), "allow_sending_without_reply");
      LastSetOther(w16, "reply_markup", StrOpt(replyKeyboardRemove), "allow_sending_without_reply");
      LastSetOther(w17, "reply_markup", StrOpt(forceReply), "allow_sending_without_reply");
      WrittenLastSet(w18, "allow_sending_without_reply");
    }

    /** The value the calls leave at `reply_markup`: the last one set. */
    lemma PlanReplyMarkup()
      ensures HoldsIfSet(OrEmpty(Written(Plan())), "reply_markup", Later(Later(Later(StrOpt(inlineKeyboardMarkup), StrOpt(replyKeyboardMarkup)), StrOpt(replyKeyboardRemove)), StrOpt(forceReply)))
    {
      var w0 := NoWrites;
      var w1 := Then(w0, "chat_id", IntOpt(chatID));
      var w2 := Then(w1, "latitude", FloatOpt(latitude));
      var w3 := Then(w2, "longitude", FloatOpt(longitude));
      var w4 := Then(w3, "title", StrOpt(title));
      var w5 := Then(w4, "address", StrOpt(address));
      var w6 := Then(w5, "foursquare_id", StrOpt(foursquareID));
      var w7 := Then(w6, "foursquare_type", StrOpt(foursquareType));
      var w8 := Then(w7, "google_place_id", StrOpt(googlePlaceID));
      var w9 := Then(w8, "google_place_type", StrOpt(googlePlaceType));
      var w10 := Then(w9, "message_thread_id", IntOpt(messageThreadID));
      var w11 := Then(w10, "disable_notification", BoolOpt(disableNotification));
      var w12 := Then(w11, "protect_content", BoolOpt(protectContent));
      var w13 := Then(w12, "reply_to_message_id", IntOpt(replyToMessageID));
      var w14 := Then(w13, "allow_sending_without_reply", BoolOpt(allowSendingWithoutReply));
      var w15 := Then(w14, "reply_markup", StrOpt(inlineKeyboardMarkup));
      var w16 := Then(w15, "reply_markup", StrOpt(replyKeyboardMarkup));
      var w17 := Then(w16, "reply_markup", StrOpt(replyKeyboardRemove));
      var w18 := Then(w17, "reply_markup", StrOpt(forceReply));
      LastSetOther(w0, "chat_id", IntOpt(chatID), "reply_markup");
      LastSetOther(w1, "latitude", FloatOpt(latitude), "reply_markup");
      LastSetOther(w2, "longitude", FloatOpt(longitude), "reply_markup");
      LastSetOther(w3, "title", StrOpt(title), "reply_markup");
      LastSetOther(w4, "address", StrOpt(address), "reply_markup");
      LastSetOther(w5, "foursquare_id", StrOpt(foursquareID), "reply_markup");
      LastSetOther(w6, "foursquare_type", StrOpt(foursquareType), "reply_markup");
      LastSetOther(w7, "google_place_id", StrOpt(googlePlaceID), "reply_markup");
      LastSetOther(w8, "google_place_type", StrOpt(googlePlaceType), "reply_markup");
      LastSetOther(w9, "message_thread_id", IntOpt(messageThreadID), "reply_markup");
      LastSetOther(w10, "disable_notification", BoolOpt(disableNotification), "reply_markup");
      LastSetOther(w11, "protect_content", BoolOpt(protectContent), "reply_markup");
      LastSetOther(w12, "reply_to_message_id", IntOpt(replyToMessageID), "reply_markup");
      LastSetOther(w13, "allow_sending_without_reply", BoolOpt(allowSendingWithoutReply), "reply_markup");
      LastSetSame(w14, "reply_markup", StrOpt(inlineKeyboardMarkup));
      LastSetSame(w15, "reply_markup", StrOpt(replyKeyboardMarkup));
      LastSetSame(w16, "reply_markup", StrOpt(replyKeyboardRemove));
      LastSetSame(w17, "reply_markup", StrOpt(forceReply));
      WrittenLastSet(w18, "reply_markup");
    }

    /** The calls write no key but these. */
    lemma PlanOnly()
      ensures OrEmpty(Written(Plan())).Keys <= {"chat_id", "latitude", "longitude", "title", "address", "foursquare_id", "foursquare_type", "google_place_id", "google_place_type", "message_thread_id", "disable_notification", "protect_content", "reply_to_message_id", "allow_sending_without_reply", "reply_markup"}
    {
      var w0 := NoWrites;
      var w1 := Then(w0, "chat_id", IntOpt(chatID));
      var w2 := Then(w1, "latitude", FloatOpt(latitude));
      var w3 := Then(w2, "longitude", FloatOpt(longitude));
      var w4 := Then(w3, "title", StrOpt(title));
      var w5 := Then(w4, "address", StrOpt(address));
      var w6 := Then(w5, "foursquare_id", StrOpt(foursquareID));
      var w7 := Then(w6, "foursquare_type", StrOpt(foursquareType));
      var w8 := Then(w7, "google_place_id", StrOpt(googlePlaceID));
      var w9 := Then(w8, "google_place_type", StrOpt(googlePlaceType));
      var w10 := Then(w9, "message_thread_id", IntOpt(messageThreadID));
      var w11 := Then(w10, "disable_notification", BoolOpt(disableNotification));
      var w12 := Then(w11, "protect_content", BoolOpt(protectContent));
      var w13 := Then(w12, "reply_to_message_id", IntOpt(replyToMessageID));
      var w14 := Then(w13, "allow_sending_without_reply", BoolOpt(allowSendingWithoutReply));
      var w15 := Then(w14, "reply_markup", StrOpt(inlineKeyboardMarkup));
      var w16 := Then(w15, "reply_markup", StrOpt(replyKeyboardMarkup));
      var w17 := Then(w16, "reply_markup", StrOpt(replyKeyboardRemove));
      var w18 := Then(w17, "reply_markup", StrOpt(forceReply));
      forall j | j !in {"chat_id", "latitude", "longitude", "title", "address", "foursquare_id", "foursquare_type", "google_place_id", "google_place_type", "message_thread_id", "disable_notification", "protect_content", "reply_to_message_id", "allow_sending_without_reply", "reply_markup"}
        ensures j !in OrEmpty(Written(w18))
      {
        LastSetOther(w0, "chat_id", IntOpt(chatID), j);
        LastSetOther(w1, "latitude", FloatOpt(latitude), j);
        LastSetOther(w2, "longitude", FloatOpt(longitude), j);
        LastSetOther(w3, "title", StrOpt(title), j);
        LastSetOther(w4, "address", StrOpt(address), j);
        LastSetOther(w5, "foursquare_id", StrOpt(foursquareID), j);
        LastSetOther(w6, "foursquare_type", StrOpt(foursquareType), j);
        LastSetOther(w7, "google_place_id", StrOpt(googlePlaceID), j);
        LastSetOther(w8, "google_place_type", StrOpt(googlePlaceType), j);
        LastSetOther(w9, "message_thread_id", IntOpt(messageThreadID), j);
        LastSetOther(w10, "disable_notification", BoolOpt(disableNotification), j);
        LastSetOther(w11, "protect_content", BoolOpt(protectContent), j);
        LastSetOther(w12, "reply_to_message_id", IntOpt(replyToMessageID), j);
        LastSetOther(w13, "allow_sending_without_reply", BoolOpt(allowSendingWithoutReply), j);
        LastSetOther(w14, "reply_markup", StrOpt(inlineKeyboardMarkup), j);
        LastSetOther(w15, "reply_markup", StrOpt(replyKeyboardMarkup), j);
        LastSetOther(w16, "reply_markup", StrOpt(replyKeyboardRemove), j);
        LastSetOther(w17, "reply_markup", StrOpt(forceReply), j);
        WrittenLastSet(w18, j);
      }
    }

    /** The request `Do` builds before it calls the API: the endpoint, and a query made
        by the `setParam` calls of `Plan`. */
    method Assemble() returns (r: Request)
      ensures fresh(r)
      ensures r.Fields() == RequestFields(MethodGet, "/sendVenue", Written(Plan()), None, None, None, "", [])
    {
      r := new Request(MethodGet, "/sendVenue");
      ghost var done := NoWrites;
      var _ := r.SetParamIfSet("chat_id", IntOpt(chatID), done);
      done := Then(done, "chat_id", IntOpt(chatID));
      var _ := r.SetParamIfSet("latitude", FloatOpt(latitude), done);
      done := Then(done, "latitude", FloatOpt(latitude));
      var _ := r.SetParamIfSet("longitude", FloatOpt(longitude), done);
      done := Then(done, "longitude", FloatOpt(longitude));
      var _ := r.SetParamIfSet("title", StrOpt(title), done);
      done := Then(done, "title", StrOpt(title));
      var _ := r.SetParamIfSet("address", StrOpt(address), done);
      done := Then(done, "address", StrOpt(address));
      var _ := r.SetParamIfSet("foursquare_id", StrOpt(foursquareID), done);
      done := Then(done, "foursquare_id", StrOpt(foursquareID));
      var _ := r.SetParamIfSet("foursquare_type", StrOpt(foursquareType), done);
      done := Then(done, "foursquare_type", StrOpt(foursquareType));
      var _ := r.SetParamIfSet("google_place_id", StrOpt(googlePlaceID), done);
      done := Then(done, "google_place_id", StrOpt(googlePlaceID));
      var _ := r.SetParamIfSet("google_place_type", StrOpt(googlePlaceType), done);
      done := Then(done, "google_place_type", StrOpt(googlePlaceType));
      var _ := r.SetParamIfSet("message_thread_id", IntOpt(messageThreadID), done);
      done := Then(done, "message_thread_id", IntOpt(messageThreadID));
      var _ := r.SetParamIfSet("disable_notification", BoolOpt(disableNotification), done);
      done := Then(done, "disable_notification", BoolOpt(disableNotification));
      var _ := r.SetParamIfSet("protect_content", BoolOpt(protectContent), done);
      done := Then(done, "protect_content", BoolOpt(protectContent));
      var _ := r.SetParamIfSet("reply_to_message_id", IntOpt(replyToMessageID), done);
      done := Then(done, "reply_to_message_id", IntOpt(replyToMessageID));
      var _ := r.SetParamIfSet("allow_sending_without_reply", BoolOpt(allowSendingWithoutReply), done);
      done := Then(done, "allow_sending_without_reply", BoolOpt(allowSendingWithoutReply));
      var _ := r.SetParamIfSet("reply_markup", StrOpt(inlineKeyboardMarkup), done);
      done := Then(done, "reply_markup", StrOpt(inlineKeyboardMarkup));
      var _ := r.SetParamIfSet("reply_markup", StrOpt(replyKeyboardMarkup), done);
      done := Then(done, "reply_markup", StrOpt(replyKeyboardMarkup));
      var _ := r.SetParamIfSet("reply_markup", StrOpt(replyKeyboardRemove), done);
      done := Then(done, "reply_markup", StrOpt(replyKeyboardRemove));
      var _ := r.SetParamIfSet("reply_markup", StrOpt(forceReply), done);
      done := Then(done, "reply_markup", StrOpt(forceReply));
      assert done == Plan();
    }

    /** `Do`: Always sets `chat_id`, `latitude`, `longitude`, `title`, `address`; sets each of the other keys only when its field is set; then calls the API. */
    method Do(opts: seq<RequestOption>) returns (assembled: RequestFields, res: Option<Bytes>, err: Option<Error>)
      requires chatID.Some? && latitude.Some? && longitude.Some? && title.Some? && address.Some?
      ensures assembled.httpMethod == MethodGet && assembled.endpoint == "/sendVenue"
      ensures assembled.form == None && assembled.header == None && assembled.body == None
      ensures assembled.fullURL == "" && assembled.json == []
      ensures Holds(Q(assembled), "chat_id", Int(chatID.value as int))
      ensures Holds(Q(assembled), "latitude", Float(latitude.value))
      ensures Holds(Q(assembled), "longitude", Float(longitude.value))
      ensures Holds(Q(assembled), "title", Str(title.value))
      ensures Holds(Q(assembled), "address", Str(address.value))
      ensures HoldsIfSet(Q(assembled), "foursquare_id", StrOpt(foursquareID))
      ensures HoldsIfSet(Q(assembled), "foursquare_type", StrOpt(foursquareType))
      ensures HoldsIfSet(Q(assembled), "google_place_id", StrOpt(googlePlaceID))
      ensures HoldsIfSet(Q(assembled), "google_place_type", StrOpt(googlePlaceType))
      ensures HoldsIfSet(Q(assembled), "message_thread_id", IntOpt(messageThreadID))
      ensures HoldsIfSet(Q(assembled), "disable_notification", BoolOpt(disableNotification))
      ensures HoldsIfSet(Q(assembled), "protect_content", BoolOpt(protectContent))
      ensures HoldsIfSet(Q(assembled), "reply_to_message_id", IntOpt(replyToMessageID))
      ensures HoldsIfSet(Q(assembled), "allow_sending_without_reply", BoolOpt(allowSendingWithoutReply))
      ensures HoldsIfSet(Q(assembled), "reply_markup", Later(Later(Later(StrOpt(inlineKeyboardMarkup), StrOpt(replyKeyboardMarkup)), StrOpt(replyKeyboardRemove)), StrOpt(forceReply)))
      ensures Q(assembled).Keys <= {"chat_id", "latitude", "longitude", "title", "address", "foursquare_id", "foursquare_type", "google_place_id", "google_place_type", "message_thread_id", "disable_notification", "protect_content", "reply_to_message_id", "allow_sending_without_reply", "reply_markup"}
      ensures var o := c.Outcome(assembled, opts);
        err == o.1 && res == (if o.1.Some? then None else o.0)
    {
      var r := Assemble();
      assembled := r.Fields();
      var data, e := c.CallAPI(r, opts);
      PlanOnly();
      PlanChatID();
      PlanLatitude();
      PlanLongitude();
      PlanTitle();
      PlanAddress();
      PlanFoursquareID();
      PlanFoursquareType();
      PlanGooglePlaceID();
      PlanGooglePlaceType();
      PlanMessageThreadID();
      PlanDisableNotification();
      PlanProtectContent();
      PlanReplyToMessageID();
      PlanAllowSendingWithoutReply();
      PlanReplyMarkup();
      if e.Some? {
        return assembled, None, e;
      }
      res, err := data, None;
    }
  }

  /** `SendContactService`: a GET request to `/sendContact`. */
  class SendContactService {
    const c: Client
    var chatID: Option<int64>
    var messageThreadID: Option<int64>
    var phoneNumber: Option<string>
    var firstName: Option<string>
    var lastName: Option<string>
    var vcard: Option<string>
    var disableNotification: Option<bool>
    var protectContent: Option<bool>
    var replyToMessageID: Option<int64>
    var allowSendingWithoutReply: Option<bool>
    var inlineKeyboardMarkup: Option<string>
    var replyKeyboardMarkup: Option<string>
    var replyKeyboardRemove: Option<string>
    var forceReply: Option<string>

    /** `NewSendContactService`: every field starts out unset. */
    constructor (c: Client)
      ensures this.c == c
      ensures chatID == None && messageThreadID == None && phoneNumber == None
      ensures firstName == None && lastName == None && vcard == None
      ensures disableNotification == None && protectContent == None && replyToMessageID == None
      ensures allowSendingWithoutReply == None && inlineKeyboardMarkup == None && replyKeyboardMarkup == None
      ensures replyKeyboardRemove == None && forceReply == None
    {
      this.c := c;
      chatID := None;
      messageThreadID := None;
      phoneNumber := None;
      firstName := None;
      lastName := None;
      vcard := None;
      disableNotification := None;
      protectContent := None;
      replyToMessageID := None;
      allowSendingWithoutReply := None;
      inlineKeyboardMarkup := None;
      replyKeyboardMarkup := None;
      replyKeyboardRemove := None;
      forceReply := None;
    }

    /** `ChatID`: stores its argument in `chatID`. */
    method ChatID(chatID: int64) returns (t: SendContactService)
      modifies this`chatID
      ensures this.chatID == Some(chatID) && t == this
    {
      this.chatID := Some(chatID);
      t := this;
    }

    /** `MessageThreadID`: stores its argument in `messageThreadID`. */
    method MessageThreadID(messageThreadID: int64) returns (t: SendContactService)
      modifies this`messageThreadID
      ensures this.messageThreadID == Some(messageThreadID) && t == this
    {
      this.messageThreadID := Some(messageThreadID);
      t := this;
    }

    /** `PhoneNumber`: stores its argument in `phoneNumber`. */
    method PhoneNumber(phoneNumber: string) returns (t: SendContactService)
      modifies this`phoneNumber
      ensures this.phoneNumber == Some(phoneNumber) && t == this
    {
      this.phoneNumber := Some(phoneNumber);
      t := this;
    }

    /** `FirstName`: stores its argument in `firstName`. */
    method FirstName(firstName: string) returns (t: SendContactService)
      modifies this`firstName
      ensures this.firstName == Some(firstName) && t == this
    {
      this.firstName := Some(firstName);
      t := this;
    }

    /** `LastName`: stores its argument in `lastName`. */
    method LastName(lastName: string) returns (t: SendContactService)
      modifies this`lastName
      ensures this.lastName == Some(lastName) && t == this
    {
      this.lastName := Some(lastName);
      t := this;
    }

    /** `Vcard`: stores its argument in `vcard`. */
    method Vcard(vcard: string) returns (t: SendContactService)
      modifies this`vcard
      ensures this.vcard == Some(vcard) && t == this
    {
      this.vcard := Some(vcard);
      t := this;
    }

    /** `DisableNotification`: stores its argument in `disableNotification`. */
    method DisableNotification(disableNotification: bool) returns (t: SendContactService)
      modifies this`disableNotification
      ensures this.disableNotification == Some(disableNotification) && t == this
    {
      this.disableNotification := Some(disableNotification);
      t := this;
    }

    /** `ProtectContent`: stores its argument in `protectContent`. */
    method ProtectContent(protectContent: bool) returns (t: SendContactService)
      modifies this`protectContent
      ensures this.protectContent == Some(protectContent) && t == this
    {
      this.protectContent := Some(protectContent);
      t := this;
    }

    /** `ReplyToMessageID`: stores its argument in `replyToMessageID`. */
    method ReplyToMessageID(replyToMessageID: int64) returns (t: SendContactService)
      modifies this`replyToMessageID
      ensures this.replyToMessageID == Some(replyToMessageID) && t == this
    {
      this.replyToMessageID := Some(replyToMessageID);
      t := this;
    }

    /** `AllowSendingWithoutReply`: stores its argument in `allowSendingWithoutReply`. */
    method AllowSendingWithoutReply(allowSendingWithoutReply: bool) returns (t: SendContactService)
      modifies this`allowSendingWithoutReply
      ensures this.allowSendingWithoutReply == Some(allowSendingWithoutReply) && t == this
    {
      this.allowSendingWithoutReply := Some(allowSendingWithoutReply);
      t := this;
    }

    /** `InlineKeyboardMarkup`: stores the JSON text of its argument in `inlineKeyboardMarkup`. `marshalled` is what
        `jsoniter.Marshal` makes of the argument, `None` when marshalling fails; then
        nothing changes and the result is nil. */
    method InlineKeyboardMarkup(marshalled: Option<string>) returns (t: SendContactService?)
      modifies this`inlineKeyboardMarkup
      ensures marshalled.None? ==> t == null && inlineKeyboardMarkup == old(inlineKeyboardMarkup)
      ensures marshalled.Some? ==> t == this && inlineKeyboardMarkup == marshalled
    {
      if marshalled.None? {
        return null;
      }
      inlineKeyboardMarkup := marshalled;
      t := this;
    }

    /** `ReplyKeyboardMarkup`: stores the JSON text of its argument in `replyKeyboardMarkup`. `marshalled` is what
        `jsoniter.Marshal` makes of the argument, `None` when marshalling fails; then
        nothing changes and the result is nil. */
    method ReplyKeyboardMarkup(marshalled: Option<string>) returns (t: SendContactService?)
      modifies this`replyKeyboardMarkup
      ensures marshalled.None? ==> t == null && replyKeyboardMarkup == old(replyKeyboardMarkup)
      ensures marshalled.Some? ==> t == this && replyKeyboardMarkup == marshalled
    {
      if marshalled.None? {
        return null;
      }
      replyKeyboardMarkup := marshalled;
      t := this;
    }

    /** `ReplyKeyboardRemove`: stores the JSON text of its argument in `replyKeyboardRemove`. `marshalled` is what
        `jsoniter.Marshal` makes of the argument, `None` when marshalling fails; then
        nothing changes and the result is nil. */
    method ReplyKeyboardRemove(marshalled: Option<string>) returns (t: SendContactService?)
      modifies this`replyKeyboardRemove
      ensures marshalled.None? ==> t == null && replyKeyboardRemove == old(replyKeyboardRemove)
      ensures marshalled.Some? ==> t == this && replyKeyboardRemove == marshalled
    {
      if marshalled.None? {
        return null;
      }
      replyKeyboardRemove := marshalled;
      t := this;
    }

    /** `ForceReply`: stores the JSON text of its argument in `forceReply`. `marshalled` is what
        `jsoniter.Marshal` makes of the argument, `None` when marshalling fails; then
        nothing changes and the result is nil. */
    method ForceReply(marshalled: Option<string>) returns (t: SendContactService?)
      modifies this`forceReply
      ensures marshalled.None? ==> t == null && forceReply == old(forceReply)
      ensures marshalled.Some? ==> t == this && forceReply == marshalled
    {
      if marshalled.None? {
        return null;
      }
      forceReply := marshalled;
      t := this;
    }

    /** The `setParam` calls `Do` makes, in order; a call that is skipped because its
        field is unset has value `None`. */
    ghost function Plan(): Writes
      reads this
    {
      var w1 := Then(NoWrites, "chat_id", IntOpt(chatID));
      var w2 := Then(w1, "phone_number", StrOpt(phoneNumber));
      var w3 := Then(w2, "first_name", StrOpt(firstName));
      var w4 := Then(w3, "last_name", StrOpt(lastName));
      var w5 := Then(w4, "vcard", StrOpt(vcard));
      var w6 := Then(w5, "message_thread_id", IntOpt(messageThreadID));
      var w7 := Then(w6, "disable_notification", BoolOpt(disableNotification));
      var w8 := Then(w7, "protect_content", BoolOpt(protectContent));
      var w9 := Then(w8, "reply_to_message_id", IntOpt(replyToMessageID));
      var w10 := Then(w9, "allow_sending_without_reply", BoolOpt(allowSendingWithoutReply));
      var w11 := Then(w10, "reply_markup", StrOpt(inlineKeyboardMarkup));
      var w12 := Then(w11, "reply_markup", StrOpt(replyKeyboardMarkup));
      var w13 := Then(w12, "reply_markup", StrOpt(replyKeyboardRemove));
      var w14 := Then(w13, "reply_markup", StrOpt(forceReply));
      w14
    }

    /** The value the calls leave at `chat_id`. */
    lemma PlanChatID()
      ensures HoldsIfSet(OrEmpty(Written(Plan())), "chat_id", IntOpt(chatID))
    {
      var w0 := NoWrites;
      var w1 := Then(w0, "chat_id", IntOpt(chatID));
      var w2 := Then(w1, "phone_number", StrOpt(phoneNumber));
      var w3 := Then(w2, "first_name", StrOpt(firstName));
      var w4 := Then(w3, "last_name", StrOpt(lastName));
      var w5 := Then(w4, "vcard", StrOpt(vcard));
      var w6 := Then(w5, "message_thread_id", IntOpt(messageThreadID));
      var w7 := Then(w6, "disable_notification", BoolOpt(disableNotification));
      var w8 := Then(w7, "protect_content", BoolOpt(protectContent));
      var w9 := Then(w8, "reply_to_message_id", IntOpt(replyToMessageID));
      var w10 := Then(w9, "allow_sending_without_reply", BoolOpt(allowSendingWithoutReply));
      var w11 := Then(w10, "reply_markup", StrOpt(inlineKeyboardMarkup));
      var w12 := Then(w11, "reply_markup", StrOpt(replyKeyboardMarkup));
      var w13 := Then(w12, "reply_markup", StrOpt(replyKeyboardRemove));
      var w14 := Then(w13, "reply_markup", StrOpt(forceReply));
      LastSetOther(w1, "phone_number", StrOpt(phoneNumber), "chat_id");
      LastSetOther(w2, "first_name", StrOpt(firstName), "chat_id");
      LastSetOther(w3, "last_name", StrOpt(lastName), "chat_id");
      LastSetOther(w4, "vcard", StrOpt(vcard), "chat_id");
      LastSetOther(w5, "message_thread_id", IntOpt(messageThreadID), "chat_id");
      LastSetOther(w6, "disable_notification", BoolOpt(disableNotification), "chat_id");
      LastSetOther(w7, "protect_content", BoolOpt(protectContent), "chat_id");
      LastSetOther(w8, "reply_to_message_id", IntOpt(replyToMessageID), "chat_id");
      LastSetOther(w9, "allow_sending_without_reply", BoolOpt(allowSendingWithoutReply), "chat_id");
      LastSetOther(w10, "reply_markup", StrOpt(inlineKeyboardMarkup), "chat_id");
      LastSetOther(w11, "reply_markup", StrOpt(replyKeyboardMarkup), "chat_id");
      LastSetOther(w12, "reply_markup", StrOpt(replyKeyboardRemove), "chat_id");
      LastSetOther(w13, "reply_markup", StrOpt(forceReply), "chat_id");
      WrittenLastSet(w14, "chat_id");
    }

    /** The value the calls leave at `phone_number`. */
    lemma PlanPhoneNumber()
      ensures HoldsIfSet(OrEmpty(Written(Plan())), "phone_number", StrOpt(phoneNumber))
    {
      var w0 := NoWrites;
      var w1 := Then(w0, "chat_id", IntOpt(chatID));
      var w2 := Then(w1, "phone_number", StrOpt(phoneNumber));
      var w3 := Then(w2, "first_name", StrOpt(firstName));
      var w4 := Then(w3, "last_name", StrOpt(lastName));
      var w5 := Then(w4, "vcard", StrOpt(vcard));
      var w6 := Then(w5, "message_thread_id", IntOpt(messageThreadID));
      var w7 := Then(w6, "disable_notification", BoolOpt(disableNotification));
      var w8 := Then(w7, "protect_content", BoolOpt(protectContent));
      var w9 := Then(w8, "reply_to_message_id", IntOpt(replyToMessageID));
      var w10 := Then(w9, "allow_sending_without_reply", BoolOpt(allowSendingWithoutReply));
      var w11 := Then(w10, "reply_markup", StrOpt(inlineKeyboardMarkup));
      var w12 := Then(w11, "reply_markup", StrOpt(replyKeyboardMarkup));
      var w13 := Then(w12, "reply_markup", StrOpt(replyKeyboardRemove));
      var w14 := Then(w13, "reply_markup", StrOpt(forceReply));
      LastSetOther(w0, "chat_id", IntOpt(chatID), "phone_number");
      LastSetOther(w2, "first_name", StrOpt(firstName), "phone_number");
      LastSetOther(w3, "last_name", StrOpt(lastName), "phone_number");
      LastSetOther(w4, "vcard", StrOpt(vcard), "phone_number");
      LastSetOther(w5, "message_thread_id", IntOpt(messageThreadID), "phone_number");
      LastSetOther(w6, "disable_notification", BoolOpt(disableNotification), "phone_number");
      LastSetOther(w7, "protect_content", BoolOpt(protectContent), "phone_number");
      LastSetOther(w8, "reply_to_message_id", IntOpt(replyToMessageID), "phone_number");
      LastSetOther(w9, "allow_sending_without_reply", BoolOpt(allowSendingWithoutReply), "phone_number");
      LastSetOther(w10, "reply_markup", StrOpt(inlineKeyboardMarkup), "phone_number");
      LastSetOther(w11, "reply_markup", StrOpt(replyKeyboardMarkup), "phone_number");
      LastSetOther(w12, "reply_markup", StrOpt(replyKeyboardRemove), "phone_number");
      LastSetOther(w13, "reply_markup", StrOpt(forceReply), "phone_number");
      WrittenLastSet(w14, "phone_number");
    }

    /** The value the calls leave at `first_name`. */
    lemma PlanFirstName()
      ensures HoldsIfSet(OrEmpty(Written(Plan())), "first_name", StrOpt(firstName))
    {
      var w0 := NoWrites;
      var w1 := Then(w0, "chat_id", IntOpt(chatID));
      var w2 := Then(w1, "phone_number", StrOpt(phoneNumber));
      var w3 := Then(w2, "first_name", StrOpt(firstName));
      var w4 := Then(w3, "last_name", StrOpt(lastName));
      var w5 := Then(w4, "vcard", StrOpt(vcard));
      var w6 := Then(w5, "message_thread_id", IntOpt(messageThreadID));
      var w7 := Then(w6, "disable_notification", BoolOpt(disableNotification));
      var w8 := Then(w7, "protect_content", BoolOpt(protectContent));
      var w9 := Then(w8, "reply_to_message_id", IntOpt(replyToMessageID));
      var w10 := Then(w9, "allow_sending_without_reply", BoolOpt(allowSendingWithoutReply));
      var w11 := Then(w10, "reply_markup", StrOpt(inlineKeyboardMarkup));
      var w12 := Then(w11, "reply_markup", StrOpt(replyKeyboardMarkup));
      var w13 := Then(w12, "reply_markup", StrOpt(replyKeyboardRemove));
      var w14 := Then(w13, "reply_markup", StrOpt(forceReply));
      LastSetOther(w0, "chat_id", IntOpt(chatID), "first_name");
      LastSetOther(w1, "phone_number", StrOpt(phoneNumber), "first_name");
      LastSetOther(w3, "last_name", StrOpt(lastName), "first_name");
      LastSetOther(w4, "vcard", StrOpt(vcard), "first_name");
      LastSetOther(w5, "message_thread_id", IntOpt(messageThreadID), "first_name");
      LastSetOther(w6, "disable_notification", BoolOpt(disableNotification), "first_name");
      LastSetOther(w7, "protect_content", BoolOpt(protectContent), "first_name");
      LastSetOther(w8, "reply_to_message_id", IntOpt(replyToMessageID), "first_name");
      LastSetOther(w9, "allow_sending_without_reply", BoolOpt(allowSendingWithoutReply), "first_name");
      LastSetOther(w10, "reply_markup", StrOpt(inlineKeyboardMarkup), "first_name");
      LastSetOther(w11, "reply_markup", StrOpt(replyKeyboardMarkup), "first_name");
      LastSetOther(w12, "reply_markup", StrOpt(replyKeyboardRemove), "first_name");
      LastSetOther(w13, "reply_markup", StrOpt(forceReply), "first_name");
      WrittenLastSet(w14, "first_name");
    }

    /** The value the calls leave at `last_name`. */
    lemma PlanLastName()
      ensures HoldsIfSet(OrEmpty(Written(Plan())), "last_name", StrOpt(lastName))
    {
      var w0 := NoWrites;
      var w1 := Then(w0, "chat_id", IntOpt(chatID));
      var w2 := Then(w1, "phone_number", StrOpt(phoneNumber));
      var w3 := Then(w2, "first_name", StrOpt(firstName));
      var w4 := Then(w3, "last_name", StrOpt(lastName));
      var w5 := Then(w4, "vcard", StrOpt(vcard));
      var w6 := Then(w5, "message_thread_id", IntOpt(messageThreadID));
      var w7 := Then(w6, "disable_notification", BoolOpt(disableNotification));
      var w8 := Then(w7, "protect_content", BoolOpt(protectContent));
      var w9 := Then(w8, "reply_to_message_id", IntOpt(replyToMessageID));
      var w10 := Then(w9, "allow_sending_without_reply", BoolOpt(allowSendingWithoutReply));
      var w11 := Then(w10, "reply_markup", StrOpt(inlineKeyboardMarkup));
      var w12 := Then(w11, "reply_markup", StrOpt(replyKeyboardMarkup));
      var w13 := Then(w12, "reply_markup", StrOpt(replyKeyboardRemove));
      var w14 := Then(w13, "reply_markup", StrOpt(forceReply));
      LastSetOther(w0, "chat_id", IntOpt(chatID), "last_name");
      LastSetOther(w1, "phone_number", StrOpt(phoneNumber), "last_name");
      LastSetOther(w2, "first_name", StrOpt(firstName), "last_name");
      LastSetOther(w4, "vcard", StrOpt(vcard), "last_name");
      LastSetOther(w5, "message_thread_id", IntOpt(messageThreadID), "last_name");
      LastSetOther(w6, "disable_notification", BoolOpt(disableNotification), "last_name");
      LastSetOther(w7, "protect_content", BoolOpt(protectContent), "last_name");
      LastSetOther(w8, "reply_to_message_id", IntOpt(replyToMessageID), "last_name");
      LastSetOther(w9, "allow_sending_without_reply", BoolOpt(allowSendingWithoutReply), "last_name");
      LastSetOther(w10, "reply_markup", StrOpt(inlineKeyboardMarkup), "last_name");
      LastSetOther(w11, "reply_markup", StrOpt(replyKeyboardMarkup), "last_name");
      LastSetOther(w12, "reply_markup", StrOpt(replyKeyboardRemove), "last_name");
      LastSetOther(w13, "reply_markup", StrOpt(forceReply), "last_name");
      WrittenLastSet(w14, "last_name");
    }

    /** The value the calls leave at `vcard`. */
    lemma PlanVcard()
      ensures HoldsIfSet(OrEmpty(Written(Plan())), "vcard", StrOpt(vcard))
    {
      var w0 := NoWrites;
      var w1 := Then(w0, "chat_id", IntOpt(chatID));
      var w2 := Then(w1, "phone_number", StrOpt(phoneNumber));
      var w3 := Then(w2, "first_name", StrOpt(firstName));
      var w4 := Then(w3, "last_name", StrOpt(lastName));
      var w5 := Then(w4, "vcard", StrOpt(vcard));
      var w6 := Then(w5, "message_thread_id", IntOpt(messageThreadID));
      var w7 := Then(w6, "disable_notification", BoolOpt(disableNotification));
      var w8 := Then(w7, "protect_content", BoolOpt(protectContent));
      var w9 := Then(w8, "reply_to_message_id", IntOpt(replyToMessageID));
      var w10 := Then(w9, "allow_sending_without_reply", BoolOpt(allowSendingWithoutReply));
      var w11 := Then(w10, "reply_markup", StrOpt(inlineKeyboardMarkup));
      var w12 := Then(w11, "reply_markup", StrOpt(replyKeyboardMarkup));
      var w13 := Then(w12, "reply_markup", StrOpt(replyKeyboardRemove));
      var w14 := Then(w13, "reply_markup", StrOpt(forceReply));
      LastSetOther(w0, "chat_id", IntOpt(chatID), "vcard");
      LastSetOther(w1, "phone_number", StrOpt(phoneNumber), "vcard");
      LastSetOther(w2, "first_name", StrOpt(firstName), "vcard");
      LastSetOther(w3, "last_name", StrOpt(lastName), "vcard");
      LastSetOther(w5, "message_thread_id", IntOpt(messageThreadID), "vcard");
      LastSetOther(w6, "disable_notification", BoolOpt(disableNotification), "vcard");
      LastSetOther(w7, "protect_content", BoolOpt(protectContent), "vcard");
      LastSetOther(w8, "reply_to_message_id", IntOpt(replyToMessageID), "vcard");
      LastSetOther(w9, "allow_sending_without_reply", BoolOpt(allowSendingWithoutReply), "vcard");
      LastSetOther(w10, "reply_markup", StrOpt(inlineKeyboardMarkup), "vcard");
      LastSetOther(w11, "reply_markup", StrOpt(replyKeyboardMarkup), "vcard");
      LastSetOther(w12, "reply_markup", StrOpt(replyKeyboardRemove), "vcard");
      LastSetOther(w13, "reply_markup", StrOpt(forceReply), "vcard");
      WrittenLastSet(w14, "vcard");
    }

    /** The value the calls leave at `message_thread_id`. */
    lemma PlanMessageThreadID()
      ensures HoldsIfSet(OrEmpty(Written(Plan())), "message_thread_id", IntOpt(messageThreadID))
    {
      var w0 := NoWrites;
      var w1 := Then(w0, "chat_id", IntOpt(chatID));
      var w2 := Then(w1, "phone_number", StrOpt(phoneNumber));
      var w3 := Then(w2, "first_name", StrOpt(firstName));
      var w4 := Then(w3, "last_name", StrOpt(lastName));
      var w5 := Then(w4, "vcard", StrOpt(vcard));
      var w6 := Then(w5, "message_thread_id", IntOpt(messageThreadID));
      var w7 := Then(w6, "disable_notification", BoolOpt(disableNotification));
      var w8 := Then(w7, "protect_content", BoolOpt(protectContent));
      var w9 := Then(w8, "reply_to_message_id", IntOpt(replyToMessageID));
      var w10 := Then(w9, "allow_sending_without_reply", BoolOpt(allowSendingWithoutReply));
      var w11 := Then(w10, "reply_markup", StrOpt(inlineKeyboardMarkup));
      var w12 := Then(w11, "reply_markup", StrOpt(replyKeyboardMarkup));
      var w13 := Then(w12, "reply_markup", StrOpt(replyKeyboardRemove));
      var w14 := Then(w13, "reply_markup", StrOpt(forceReply));
      LastSetOther(w0, "chat_id", IntOpt(chatID), "message_thread_id");
      LastSetOther(w1, "phone_number", StrOpt(phoneNumber), "message_thread_id");
      LastSetOther(w2, "first_name", StrOpt(firstName), "message_thread_id");
      LastSetOther(w3, "last_name", StrOpt(lastName), "message_thread_id");
      LastSetOther(w4, "vcard", StrOpt(vcard), "message_thread_id");
      LastSetOther(w6, "disable_notification", BoolOpt(disableNotification), "message_thread_id");
      LastSetOther(w7, "protect_content", BoolOpt(protectContent), "message_thread_id");
      LastSetOther(w8, "reply_to_message_id", IntOpt(replyToMessageID), "message_thread_id");
      LastSetOther(w9, "allow_sending_without_reply", BoolOpt(allowSendingWithoutReply), "message_thread_id");
      LastSetOther(w10, "reply_markup", StrOpt(inlineKeyboardMarkup), "message_thread_id");
      LastSetOther(w11, "reply_markup", StrOpt(replyKeyboardMarkup), "message_thread_id");
      LastSetOther(w12, "reply_markup", StrOpt(replyKeyboardRemove), "message_thread_id");
      LastSetOther(w13, "reply_markup", StrOpt(forceReply), "message_thread_id");
      WrittenLastSet(w14, "message_thread_id");
    }

    /** The value the calls leave at `disable_notification`. */
    lemma PlanDisableNotification()
      ensures HoldsIfSet(OrEmpty(Written(Plan())), "disable_notification", BoolOpt(disableNotification))
    {
      var w0 := NoWrites;
      var w1 := Then(w0, "chat_id", IntOpt(chatID));
      var w2 := Then(w1, "phone_number", StrOpt(phoneNumber));
      var w3 := Then(w2, "first_name", StrOpt(firstName));
      var w4 := Then(w3, "last_name", StrOpt(lastName));
      var w5 := Then(w4, "vcard", StrOpt(vcard));
      var w6 := Then(w5, "message_thread_id", IntOpt(messageThreadID));
      var w7 := Then(w6, "disable_notification", BoolOpt(disableNotification));
      var w8 := Then(w7, "protect_content", BoolOpt(protectContent));
      var w9 := Then(w8, "reply_to_message_id", IntOpt(replyToMessageID));
      var w10 := Then(w9, "allow_sending_without_reply", BoolOpt(allowSendingWithoutReply));
      var w11 := Then(w10, "reply_markup", StrOpt(inlineKeyboardMarkup));
      var w12 := Then(w11, "reply_markup", StrOpt(replyKeyboardMarkup));
      var w13 := Then(w12, "reply_markup", StrOpt(replyKeyboardRemove));
      var w14 := Then(w13, "reply_markup", StrOpt(forceReply));
      LastSetOther(w0, "chat_id", IntOpt(chatID), "disable_notification");
      LastSetOther(w1, "phone_number", StrOpt(phoneNumber), "disable_notification");
      LastSetOther(w2, "first_name", StrOpt(firstName), "disable_notification");
      LastSetOther(w3, "last_name", StrOpt(lastName), "disable_notification");
      LastSetOther(w4, "vcard", StrOpt(vcard), "disable_notification");
      LastSetOther(w5, "message_thread_id", IntOpt(messageThreadID), "disable_notification");
      LastSetOther(w7, "protect_content", BoolOpt(protectContent), "disable_notification");
      LastSetOther(w8, "reply_to_message_id", IntOpt(replyToMessageID), "disable_notification");
      LastSetOther(w9, "allow_sending_without_reply", BoolOpt(allowSendingWithoutReply), "disable_notification");
      LastSetOther(w10, "reply_markup", StrOpt(inlineKeyboardMarkup), "disable_notification");
      LastSetOther(w11, "reply_markup", StrOpt(replyKeyboardMarkup), "disable_notification");
      LastSetOther(w12, "reply_markup", StrOpt(replyKeyboardRemove), "disable_notification");
      LastSetOther(w13, "reply_markup", StrOpt(forceReply), "disable_notification");
      WrittenLastSet(w14, "disable_notification");
    }

    /** The value the calls leave at `protect_content`. */
    lemma PlanProtectContent()
      ensures HoldsIfSet(OrEmpty(Written(Plan())), "protect_content", BoolOpt(protectContent))
    {
      var w0 := NoWrites;
      var w1 := Then(w0, "chat_id", IntOpt(chatID));
      var w2 := Then(w1, "phone_number", StrOpt(phoneNumber));
      var w3 := Then(w2, "first_name", StrOpt(firstName));
      var w4 := Then(w3, "last_name", StrOpt(lastName));
      var w5 := Then(w4, "vcard", StrOpt(vcard));
      var w6 := Then(w5, "message_thread_id", IntOpt(messageThreadID));
      var w7 := Then(w6, "disable_notification", BoolOpt(disableNotification));
      var w8 := Then(w7, "protect_content", BoolOpt(protectContent));
      var w9 := Then(w8, "reply_to_message_id", IntOpt(replyToMessageID));
      var w10 := Then(w9, "allow_sending_without_reply", BoolOpt(allowSendingWithoutReply));
      var w11 := Then(w10, "reply_markup", StrOpt(inlineKeyboardMarkup));
      var w12 := Then(w11, "reply_markup", StrOpt(replyKeyboardMarkup));
      var w13 := Then(w12, "reply_markup", StrOpt(replyKeyboardRemove));
      var w14 := Then(w13, "reply_markup", StrOpt(forceReply));
      LastSetOther(w0, "chat_id", IntOpt(chatID), "protect_content");
      LastSetOther(w1, "phone_number", StrOpt(phoneNumber), "protect_content");
      LastSetOther(w2, "first_name", StrOpt(firstName), "protect_content");
      LastSetOther(w3, "last_name", StrOpt(lastName), "protect_content");
      LastSetOther(w4, "vcard", StrOpt(vcard), "protect_content");
      LastSetOther(w5, "message_thread_id", IntOpt(messageThreadID), "protect_content");
      LastSetOther(w6, "disable_notification", BoolOpt(disableNotification), "protect_content");
      LastSetOther(w8, "reply_to_message_id", IntOpt(replyToMessageID), "protect_content");
      LastSetOther(w9, "allow_sending_without_reply", BoolOpt(allowSendingWithoutReply), "protect_content");
      LastSetOther(w10, "reply_markup", StrOpt(inlineKeyboardMarkup), "protect_content");
      LastSetOther(w11, "reply_markup", StrOpt(replyKeyboardMarkup), "protect_content");
      LastSetOther(w12, "reply_markup", StrOpt(replyKeyboardRemove), "protect_content");
      LastSetOther(w13, "reply_markup", StrOpt(forceReply), "protect_content");
      WrittenLastSet(w14, "protect_content");
    }

    /** The value the calls leave at `reply_to_message_id`. */
    lemma PlanReplyToMessageID()
      ensures HoldsIfSet(OrEmpty(Written(Plan())), "reply_to_message_id", IntOpt(replyToMessageID))
    {
      var w0 := NoWrites;
      var w1 := Then(w0, "chat_id", IntOpt(chatID));
      var w2 := Then(w1, "phone_number", StrOpt(phoneNumber));
      var w3 := Then(w2, "first_name", StrOpt(firstName));
      var w4 := Then(w3, "last_name", StrOpt(lastName));
      var w5 := Then(w4, "vcard", StrOpt(vcard));
      var w6 := Then(w5, "message_thread_id", IntOpt(messageThreadID));
      var w7 := Then(w6, "disable_notification", BoolOpt(disableNotification));
      var w8 := Then(w7, "protect_content", BoolOpt(protectContent));
      var w9 := Then(w8, "reply_to_message_id", IntOpt(replyToMessageID));
      var w10 := Then(w9, "allow_sending_without_reply", BoolOpt(allowSendingWithoutReply));
      var w11 := Then(w10, "reply_markup", StrOpt(inlineKeyboardMarkup));
      var w12 := Then(w11, "reply_markup", StrOpt(replyKeyboardMarkup));
      var w13 := Then(w12, "reply_markup", StrOpt(replyKeyboardRemove));
      var w14 := Then(w13, "reply_markup", StrOpt(forceReply));
      LastSetOther(w0, "chat_id", IntOpt(chatID), "reply_to_message_id");
      LastSetOther(w1, "phone_number", StrOpt(phoneNumber), "reply_to_message_id");
      LastSetOther(w2, "first_name", StrOpt(firstName), "reply_to_message_id");
      LastSetOther(w3, "last_name", StrOpt(lastName), "reply_to_message_id");
      LastSetOther(w4, "vcard", StrOpt(vcard), "reply_to_message_id");
      LastSetOther(w5, "message_thread_id", IntOpt(messageThreadID), "reply_to_message_id");
      LastSetOther(w6, "disable_notification", BoolOpt(disableNotification), "reply_to_message_id");
      LastSetOther(w7, "protect_content", BoolOpt(protectContent), "reply_to_message_id");
      LastSetOther(w9, "allow_sending_without_reply", BoolOpt(allowSendingWithoutReply), "reply_to_message_id");
      LastSetOther(w10, "reply_markup", StrOpt(inlineKeyboardMarkup), "reply_to_message_id");
      LastSetOther(w11, "reply_markup", StrOpt(replyKeyboardMarkup), "reply_to_message_id");
      LastSetOther(w12, "reply_markup", StrOpt(replyKeyboardRemove), "reply_to_message_id");
      LastSetOther(w13, "reply_markup", StrOpt(forceReply), "reply_to_message_id");
      WrittenLastSet(w14, "reply_to_message_id");
    }

    /** The value the calls leave at `allow_sending_without_reply`. */
    lemma PlanAllowSendingWithoutReply()
      ensures HoldsIfSet(OrEmpty(Written(Plan())), "allow_sending_without_reply", BoolOpt(allowSendingWithoutReply))
    {
      var w0 := NoWrites;
      var w1 := Then(w0, "chat_id", IntOpt(chatID));
      var w2 := Then(w1, "phone_number", StrOpt(phoneNumber));
      var w3 := Then(w2, "first_name", StrOpt(firstName));
      var w4 := Then(w3, "last_name", StrOpt(lastName));
      var w5 := Then(w4, "vcard", StrOpt(vcard));
      var w6 := Then(w5, "message_thread_id", IntOpt(messageThreadID));
      var w7 := Then(w6, "disable_notification", BoolOpt(disableNotification));
      var w8 := Then(w7, "protect_content", BoolOpt(protectContent));
      var w9 := Then(w8, "reply_to_message_id", IntOpt(replyToMessageID));
      var w10 := Then(w9, "allow_sending_without_reply", BoolOpt(allowSendingWithoutReply));
      var w11 := Then(w10, "reply_markup", StrOpt(inlineKeyboardMarkup));
      var w12 := Then(w11, "reply_markup", StrOpt(replyKeyboardMarkup));
      var w13 := Then(w12, "reply_markup", StrOpt(replyKeyboardRemove));
      var w14 := Then(w13, "reply_markup", StrOpt(forceReply));
      LastSetOther(w0, "chat_id", IntOpt(chatID), "allow_sending_without_reply");
      LastSetOther(w1, "phone_number", StrOpt(phoneNumber), "allow_sending_without_reply");
      LastSetOther(w2, "first_name", StrOpt(firstName), "allow_sending_without_reply");
      LastSetOther(w3, "last_name", StrOpt(lastName), "allow_sending_without_reply");
      LastSetOther(w4, "vcard", StrOpt(vcard), "allow_sending_without_reply");
      LastSetOther(w5, "message_thread_id", IntOpt(messageThreadID), "allow_sending_without_reply");
      LastSetOther(w6, "disable_notification", BoolOpt(disableNotification), "allow_sending_without_reply");
      LastSetOther(w7, "protect_content", BoolOpt(protectContent), "allow_sending_without_reply");
      LastSetOther(w8, "reply_to_message_id", IntOpt(replyToMessageID), "allow_sending_without_reply");
      LastSetOther(w10, "reply_markup", StrOpt(inlineKeyboardMarkup), "allow_sending_without_reply");
      LastSetOther(w11, "reply_markup", StrOpt(replyKeyboardMarkup), "allow_sending_without_reply");
      LastSetOther(w12, "reply_markup", StrOpt(replyKeyboardRemove), "allow_sending_without_reply");
      LastSetOther(w13, "reply_markup", StrOpt(forceReply), "allow_sending_without_reply");
      WrittenLastSet(w14, "allow_sending_without_reply");
    }

    /** The value the calls leave at `reply_markup`: the last one set. */
    lemma PlanReplyMarkup()
      ensures HoldsIfSet(OrEmpty(Written(Plan())), "reply_markup", Later(Later(Later(StrOpt(inlineKeyboardMarkup), StrOpt(replyKeyboardMarkup)), StrOpt(replyKeyboardRemove)), StrOpt(forceReply)))
    {
      var w0 := NoWrites;
      var w1 := Then(w0, "chat_id", IntOpt(chatID));
      var w2 := Then(w1, "phone_number", StrOpt(phoneNumber));
      var w3 := Then(w2, "first_name", StrOpt(firstName));
      var w4 := Then(w3, "last_name", StrOpt(lastName));
      var w5 := Then(w4, "vcard", StrOpt(vcard));
      var w6 := Then(w5, "message_thread_id", IntOpt(messageThreadID));
      var w7 := Then(w6, "disable_notification", BoolOpt(disableNotification));
      var w8 := Then(w7, "protect_content", BoolOpt(protectContent));
      var w9 := Then(w8, "reply_to_message_id", IntOpt(replyToMessageID));
      var w10 := Then(w9, "allow_sending_without_reply", BoolOpt(allowSendingWithoutReply));
      var w11 := Then(w10, "reply_markup", StrOpt(inlineKeyboardMarkup));
      var w12 := Then(w11, "reply_markup", StrOpt(replyKeyboardMarkup));
      var w13 := Then(w12, "reply_markup", StrOpt(replyKeyboardRemove));
      var w14 := Then(w13, "reply_markup", StrOpt(forceReply));
      LastSetOther(w0, "chat_id", IntOpt(chatID), "reply_markup");
      LastSetOther(w1, "phone_number", StrOpt(phoneNumber), "reply_markup");
      LastSetOther(w2, "first_name", StrOpt(firstName), "reply_markup");
      LastSetOther(w3, "last_name", StrOpt(lastName), "reply_markup");
      LastSetOther(w4, "vcard", StrOpt(vcard), "reply_markup");
      LastSetOther(w5, "message_thread_id", IntOpt(messageThreadID), "reply_markup");
      LastSetOther(w6, "disable_notification", BoolOpt(disableNotification), "reply_markup");
      LastSetOther(w7, "protect_content", BoolOpt(protectContent), "reply_markup");
      LastSetOther(w8, "reply_to_message_id", IntOpt(replyToMessageID), "reply_markup");
      LastSetOther(w9, "allow_sending_without_reply", BoolOpt(allowSendingWithoutReply), "reply_markup");
      LastSetSame(w10, "reply_markup", StrOpt(inlineKeyboardMarkup));
      LastSetSame(w11, "reply_markup", StrOpt(replyKeyboardMarkup));
      LastSetSame(w12, "reply_markup", StrOpt(replyKeyboardRemove));
      LastSetSame(w13, "reply_markup", StrOpt(forceReply));
      WrittenLastSet(w14, "reply_markup");
    }

    /** The calls write no key but these. */
    lemma PlanOnly()
      ensures OrEmpty(Written(Plan())).Keys <= {"chat_id", "phone_number", "first_name", "last_name", "vcard", "message_thread_id", "disable_notification", "protect_content", "reply_to_message_id", "allow_sending_without_reply", "reply_markup"}
    {
      var w0 := NoWrites;
      var w1 := Then(w0, "chat_id", IntOpt(chatID));
      var w2 := Then(w1, "phone_number", StrOpt(phoneNumber));
      var w3 := Then(w2, "first_name", StrOpt(firstName));
      var w4 := Then(w3, "last_name", StrOpt(lastName));
      var w5 := Then(w4, "vcard", StrOpt(vcard));
      var w6 := Then(w5, "message_thread_id", IntOpt(messageThreadID));
      var w7 := Then(w6, "disable_notification", BoolOpt(disableNotification));
      var w8 := Then(w7, "protect_content", BoolOpt(protectContent));
      var w9 := Then(w8, "reply_to_message_id", IntOpt(replyToMessageID));
      var w10 := Then(w9, "allow_sending_without_reply", BoolOpt(allowSendingWithoutReply));
      var w11 := Then(w10, "reply_markup", StrOpt(inlineKeyboardMarkup));
      var w12 := Then(w11, "reply_markup", StrOpt(replyKeyboardMarkup));
      var w13 := Then(w12, "reply_markup", StrOpt(replyKeyboardRemove));
      var w14 := Then(w13, "reply_markup", StrOpt(forceReply));
      forall j | j !in {"chat_id", "phone_number", "first_name", "last_name", "vcard", "message_thread_id", "disable_notification", "protect_content", "reply_to_message_id", "allow_sending_without_reply", "reply_markup"}
        ensures j !in OrEmpty(Written(w14))
      {
        LastSetOther(w0, "chat_id", IntOpt(chatID), j);
        LastSetOther(w1, "phone_number", StrOpt(phoneNumber), j);
        LastSetOther(w2, "first_name", StrOpt(firstName), j);
        LastSetOther(w3, "last_name", StrOpt(lastName), j);
        LastSetOther(w4, "vcard", StrOpt(vcard), j);
        LastSetOther(w5, "message_thread_id", IntOpt(messageThreadID), j);
        LastSetOther(w6, "disable_notification", BoolOpt(disableNotification), j);
        LastSetOther(w7, "protect_content", BoolOpt(protectContent), j);
        LastSetOther(w8, "reply_to_message_id", IntOpt(replyToMessageID), j);
        LastSetOther(w9, "allow_sending_without_reply", BoolOpt(allowSendingWithoutReply), j);
        LastSetOther(w10, "reply_markup", StrOpt(inlineKeyboardMarkup), j);
        LastSetOther(w11, "reply_markup", StrOpt(replyKeyboardMarkup), j);
        LastSetOther(w12, "reply_markup", StrOpt(replyKeyboardRemove), j);
        LastSetOther(w13, "reply_markup", StrOpt(forceReply), j);
        WrittenLastSet(w14, j);
      }
    }

    /** The request `Do` builds before it calls the API: the endpoint, and a query made
        by the `setParam` calls of `Plan`. */
    method Assemble() returns (r: Request)
      ensures fresh(r)
      ensures r.Fields() == RequestFields(MethodGet, "/sendContact", Written(Plan()), None, None, None, "", [])
    {
      r := new Request(MethodGet, "/sendContact");
      ghost var done := NoWrites;
      var _ := r.SetParamIfSet("chat_id", IntOpt(chatID), done);
      done := Then(done, "chat_id", IntOpt(chatID));
      var _ := r.SetParamIfSet("phone_number", StrOpt(phoneNumber), done);
      done := Then(done, "phone_number", StrOpt(phoneNumber));
      var _ := r.SetParamIfSet("first_name", StrOpt(firstName), done);
      done := Then(done, "first_name", StrOpt(firstName));
      var _ := r.SetParamIfSet("last_name", StrOpt(lastName), done);
      done := Then(done, "last_name", StrOpt(lastName));
      var _ := r.SetParamIfSet("vcard", StrOpt(vcard), done);
      done := Then(done, "vcard", StrOpt(vcard));
      var _ := r.SetParamIfSet("message_thread_id", IntOpt(messageThreadID), done);
      done := Then(done, "message_thread_id", IntOpt(messageThreadID));
      var _ := r.SetParamIfSet("disable_notification", BoolOpt(disableNotification), done);
      done := Then(done, "disable_notification", BoolOpt(disableNotification));
      var _ := r.SetParamIfSet("protect_content", BoolOpt(protectContent), done);
      done := Then(done, "protect_content", BoolOpt(protectContent));
      var _ := r.SetParamIfSet("reply_to_message_id", IntOpt(replyToMessageID), done);
      done := Then(done, "reply_to_message_id", IntOpt(replyToMessageID));
      var _ := r.SetParamIfSet("allow_sending_without_reply", BoolOpt(allowSendingWithoutReply), done);
      done := Then(done, "allow_sending_without_reply", BoolOpt(allowSendingWithoutReply));
      var _ := r.SetParamIfSet("reply_markup", StrOpt(inlineKeyboardMarkup), done);
      done := Then(done, "reply_markup", StrOpt(inlineKeyboardMarkup));
      var _ := r.SetParamIfSet("reply_markup", StrOpt(replyKeyboardMarkup), done);
      done := Then(done, "reply_markup", StrOpt(replyKeyboardMarkup));
      var _ := r.SetParamIfSet("reply_markup", StrOpt(replyKeyboardRemove), done);
      done := Then(done, "reply_markup", StrOpt(replyKeyboardRemove));
      var _ := r.SetParamIfSet("reply_markup", StrOpt(forceReply), done);
      done := Then(done, "reply_markup", StrOpt(forceReply));
      assert done == Plan();
    }

    /** `Do`: Always sets `chat_id`, `phone_number`, `first_name`; sets each of the other keys only when its field is set; then calls the API. */
    method Do(opts: seq<RequestOption>) returns (assembled: RequestFields, res: Option<Bytes>, err: Option<Error>)
      requires chatID.Some? && phoneNumber.Some? && firstName.Some?
      ensures assembled.httpMethod == MethodGet && assembled.endpoint == "/sendContact"
      ensures assembled.form == None && assembled.header == None && assembled.body == None
      ensures assembled.fullURL == "" && assembled.json == []
      ensures Holds(Q(assembled), "chat_id", Int(chatID.value as int))
      ensures Holds(Q(assembled), "phone_number", Str(phoneNumber.value))
      ensures Holds(Q(assembled), "first_name", Str(firstName.value))
      ensures HoldsIfSet(Q(assembled), "last_name", StrOpt(lastName))
      ensures HoldsIfSet(Q(assembled), "vcard", StrOpt(vcard))
      ensures HoldsIfSet(Q(assembled), "message_thread_id", IntOpt(messageThreadID))
      ensures HoldsIfSet(Q(assembled), "disable_notification", BoolOpt(disableNotification))
      ensures HoldsIfSet(Q(assembled), "protect_content", BoolOpt(protectContent))
      ensures HoldsIfSet(Q(assembled), "reply_to_message_id", IntOpt(replyToMessageID))
      ensures HoldsIfSet(Q(assembled), "allow_sending_without_reply", BoolOpt(allowSendingWithoutReply))
      ensures HoldsIfSet(Q(assembled), "reply_markup", Later(Later(Later(StrOpt(inlineKeyboardMarkup), StrOpt(replyKeyboardMarkup)), StrOpt(replyKeyboardRemove)), StrOpt(forceReply)))
      ensures Q(assembled).Keys <= {"chat_id", "phone_number", "first_name", "last_name", "vcard", "message_thread_id", "disable_notification", "protect_content", "reply_to_message_id", "allow_sending_without_reply", "reply_markup"}
      ensures var o := c.Outcome(assembled, opts);
        err == o.1 && res == (if o.1.Some? then None else o.0)
    {
      var r := Assemble();
      assembled := r.Fields();
      var data, e := c.CallAPI(r, opts);
      PlanOnly();
      PlanChatID();
      PlanPhoneNumber();
      PlanFirstName();
      PlanLastName();
      PlanVcard();
      PlanMessageThreadID();
      PlanDisableNotification();
      PlanProtectContent();
      PlanReplyToMessageID();
      PlanAllowSendingWithoutReply();
      PlanReplyMarkup();
      if e.Some? {
        return assembled, None, e;
      }
      res, err := data, None;
    }
  }

  /** `SendPollService`: a GET request to `/sendPoll`. */
  class SendPollService {
    const c: Client
    var chatID: Option<int64>
    var messageThreadID: Option<int64>
    var question: Option<string>
    var options: Option<string>
    var isAnonymous: Option<bool>
    var pollType: Option<string>
    var allowsMultipleAnswers: Option<bool>
    var correctOptionID: Option<int64>
    var explanation: Option<string>
    var explanationParseMode: Option<string>
    var explanationEntities: Option<string>
    var openPeriod: Option<int64>
    var closeDate: Option<int64>
    var isClosed: Option<bool>
    var disableNotification: Option<bool>
    var protectContent: Option<bool>
    var replyToMessageID: Option<int64>
    var allowSendingWithoutReply: Option<bool>
    var inlineKeyboardMarkup: Option<string>
    var replyKeyboardMarkup: Option<string>
    var replyKeyboardRemove: Option<string>
    var forceReply: Option<string>

    /** `NewSendPollService`: every field starts out unset. */
    constructor (c: Client)
      ensures this.c == c
      ensures chatID == None && messageThreadID == None && question == None
      ensures options == None && isAnonymous == None && pollType == None
      ensures allowsMultipleAnswers == None && correctOptionID == None && explanation == None
      ensures explanationParseMode == None && explanationEntities == None && openPeriod == None
      ensures closeDate == None && isClosed == None && disableNotification == None
      ensures protectContent == None && replyToMessageID == None && allowSendingWithoutReply == None
      ensures inlineKeyboardMarkup == None && replyKeyboardMarkup == None && replyKeyboardRemove == None
      ensures forceReply == None
    {
      this.c := c;
      chatID := None;
      messageThreadID := None;
      question := None;
      options := None;
      isAnonymous := None;
      pollType := None;
      allowsMultipleAnswers := None;
      correctOptionID := None;
      explanation := None;
      explanationParseMode := None;
      explanationEntities := None;
      openPeriod := None;
      closeDate := None;
      isClosed := None;
      disableNotification := None;
      protectContent := None;
      replyToMessageID := None;
      allowSendingWithoutReply := None;
      inlineKeyboardMarkup := None;
      replyKeyboardMarkup := None;
      replyKeyboardRemove := None;
      forceReply := None;
    }

    /** `ChatID`: stores its argument in `chatID`. */
    method ChatID(chatID: int64) returns (t: SendPollService)
      modifies this`chatID
      ensures this.chatID == Some(chatID) && t == this
    {
      this.chatID := Some(chatID);
      t := this;
    }

    /** `MessageThreadID`: stores its argument in `messageThreadID`. */
    method MessageThreadID(messageThreadID: int64) returns (t: SendPollService)
      modifies this`messageThreadID
      ensures this.messageThreadID == Some(messageThreadID) && t == this
    {
      this.messageThreadID := Some(messageThreadID);
      t := this;
    }

    /** `Question`: stores its argument in `question`. */
    method Question(question: string) returns (t: SendPollService)
      modifies this`question
      ensures this.question == Some(question) && t == this
    {
      this.question := Some(question);
      t := this;
    }

    /** `Options`: stores the JSON text of its argument in `options`. `marshalled` is what
        `jsoniter.Marshal` makes of the argument, `None` when marshalling fails; then
        nothing changes and the result is nil. */
    method Options(marshalled: Option<string>) returns (t: SendPollService?)
      modifies this`options
      ensures marshalled.None? ==> t == null && options == old(options)
      ensures marshalled.Some? ==> t == this && options == marshalled
    {
      if marshalled.None? {
        return null;
      }
      options := marshalled;
      t := this;
    }

    /** `IsAnonymous`: stores its argument in `isAnonymous`. */
    method IsAnonymous(isAnonymous: bool) returns (t: SendPollService)
      modifies this`isAnonymous
      ensures this.isAnonymous == Some(isAnonymous) && t == this
    {
      this.isAnonymous := Some(isAnonymous);
      t := this;
    }

    /** `PollType`: stores the JSON text of its argument in `pollType`. `marshalled` is what
        `jsoniter.Marshal` makes of the argument, `None` when marshalling fails; then
        nothing changes and the result is nil. */
    method PollType(marshalled: Option<string>) returns (t: SendPollService?)
      modifies this`pollType
      ensures marshalled.None? ==> t == null && pollType == old(pollType)
      ensures marshalled.Some? ==> t == this && pollType == marshalled
    {
      if marshalled.None? {
        return null;
      }
      pollType := marshalled;
      t := this;
    }

    /** `AllowsMultipleAnswers`: stores its argument in `allowsMultipleAnswers`. */
    method AllowsMultipleAnswers(allowsMultipleAnswers: bool) returns (t: SendPollService)
      modifies this`allowsMultipleAnswers
      ensures this.allowsMultipleAnswers == Some(allowsMultipleAnswers) && t == this
    {
      this.allowsMultipleAnswers := Some(allowsMultipleAnswers);
      t := this;
    }

    /** `CorrectOptionID`: stores its argument in `correctOptionID`. */
    method CorrectOptionID(correctOptionID: int64) returns (t: SendPollService)
      modifies this`correctOptionID
      ensures this.correctOptionID == Some(correctOptionID) && t == this
    {
      this.correctOptionID := Some(correctOptionID);
      t := this;
    }

    /** `Explanation`: stores its argument in `explanation`. */
    method Explanation(explanation: string) returns (t: SendPollService)
      modifies this`explanation
      ensures this.explanation == Some(explanation) && t == this
    {
      this.explanation := Some(explanation);
      t := this;
    }

    /** `ExplanationParseMode`: stores its argument in `explanationParseMode`. */
    method ExplanationParseMode(explanationParseMode: string) returns (t: SendPollService)
      modifies this`explanationParseMode
      ensures this.explanationParseMode == Some(explanationParseMode) && t == this
    {
      this.explanationParseMode := Some(explanationParseMode);
      t := this;
    }

    /** `ExplanationEntities`: stores the JSON text of its argument in `explanationEntities`. `marshalled` is what
        `jsoniter.Marshal` makes of the argument, `None` when marshalling fails; then
        nothing changes and the result is nil. */
    method ExplanationEntities(marshalled: Option<string>) returns (t: SendPollService?)
      modifies this`explanationEntities
      ensures marshalled.None? ==> t == null && explanationEntities == old(explanationEntities)
      ensures marshalled.Some? ==> t == this && explanationEntities == marshalled
    {
      if marshalled.None? {
        return null;
      }
      explanationEntities := marshalled;
      t := this;
    }

    /** `OpenPeriod`: stores its argument in `openPeriod`. */
    method OpenPeriod(openPeriod: int64) returns (t: SendPollService)
      modifies this`openPeriod
      ensures this.openPeriod == Some(openPeriod) && t == this
    {
      this.openPeriod := Some(openPeriod);
      t := this;
    }

    /** `CloseDate`: stores its argument in `closeDate`. */
    method CloseDate(closeDate: int64) returns (t: SendPollService)
      modifies this`closeDate
      ensures this.closeDate == Some(closeDate) && t == this
    {
      this.closeDate := Some(closeDate);
      t := this;
    }

    /** `IsClosed`: stores its argument in `isClosed`. */
    method IsClosed(isClosed: bool) returns (t: SendPollService)
      modifies this`isClosed
      ensures this.isClosed == Some(isClosed) && t == this
    {
      this.isClosed := Some(isClosed);
      t := this;
    }

    /** `DisableNotification`: stores its argument in `disableNotification`. */
    method DisableNotification(disableNotification: bool) returns (t: SendPollService)
      modifies this`disableNotification
      ensures this.disableNotification == Some(disableNotification) && t == this
    {
      this.disableNotification := Some(disableNotification);
      t := this;
    }

    /** `ProtectContent`: stores its argument in `protectContent`. */
    method ProtectContent(protectContent: bool) returns (t: SendPollService)
      modifies this`protectContent
      ensures this.protectContent == Some(protectContent) && t == this
    {
      this.protectContent := Some(protectContent);
      t := this;
    }

    /** `ReplyToMessageID`: stores its argument in `replyToMessageID`. */
    method ReplyToMessageID(replyToMessageID: int64) returns (t: SendPollService)
      modifies this`replyToMessageID
      ensures this.replyToMessageID == Some(replyToMessageID) && t == this
    {
      this.replyToMessageID := Some(replyToMessageID);
      t := this;
    }

    /** `AllowSendingWithoutReply`: stores its argument in `allowSendingWithoutReply`. */
    method AllowSendingWithoutReply(allowSendingWithoutReply: bool) returns (t: SendPollService)
      modifies this`allowSendingWithoutReply
      ensures this.allowSendingWithoutReply == Some(allowSendingWithoutReply) && t == this
    {
      this.allowSendingWithoutReply := Some(allowSendingWithoutReply);
      t := this;
    }

    /** `InlineKeyboardMarkup`: stores the JSON text of its argument in `inlineKeyboardMarkup`. `marshalled` is what
        `jsoniter.Marshal` makes of the argument, `None` when marshalling fails; then
        nothing changes and the result is nil. */
    method InlineKeyboardMarkup(marshalled: Option<string>) returns (t: SendPollService?)
      modifies this`inlineKeyboardMarkup
      ensures marshalled.None? ==> t == null && inlineKeyboardMarkup == old(inlineKeyboardMarkup)
      ensures marshalled.Some? ==> t == this && inlineKeyboardMarkup == marshalled
    {
      if marshalled.None? {
        return null;
      }
      inlineKeyboardMarkup := marshalled;
      t := this;
    }

    /** `ReplyKeyboardMarkup`: stores the JSON text of its argument in `replyKeyboardMarkup`. `marshalled` is what
        `jsoniter.Marshal` makes of the argument, `None` when marshalling fails; then
        nothing changes and the result is nil. */
    method ReplyKeyboardMarkup(marshalled: Option<string>) returns (t: SendPollService?)
      modifies this`replyKeyboardMarkup
      ensures marshalled.None? ==> t == null && replyKeyboardMarkup == old(replyKeyboardMarkup)
      ensures marshalled.Some? ==> t == this && replyKeyboardMarkup == marshalled
    {
      if marshalled.None? {
        return null;
      }
      replyKeyboardMarkup := marshalled;
      t := this;
    }

    /** `ReplyKeyboardRemove`: stores the JSON text of its argument in `replyKeyboardRemove`. `marshalled` is what
        `jsoniter.Marshal` makes of the argument, `None` when marshalling fails; then
        nothing changes and the result is nil. */
    method ReplyKeyboardRemove(marshalled: Option<string>) returns (t: SendPollService?)
      modifies this`replyKeyboardRemove
      ensures marshalled.None? ==> t == null && replyKeyboardRemove == old(replyKeyboardRemove)
      ensures marshalled.Some? ==> t == this && replyKeyboardRemove == marshalled
    {
      if marshalled.None? {
        return null;
      }
      replyKeyboardRemove := marshalled;
      t := this;
    }

    /** `ForceReply`: stores the JSON text of its argument in `forceReply`. `marshalled` is what
        `jsoniter.Marshal` makes of the argument, `None` when marshalling fails; then
        nothing changes and the result is nil. */
    method ForceReply(marshalled: Option<string>) returns (t: SendPollService?)
      modifies this`forceReply
      ensures marshalled.None? ==> t == null && forceReply == old(forceReply)
      ensures marshalled.Some? ==> t == this && forceReply == marshalled
    {
      if marshalled.None? {
        return null;
      }
      forceReply := marshalled;
      t := this;
    }

    /** The `setParam` calls `Do` makes, in order; a call that is skipped because its
        field is unset has value `None`. */
    ghost function Plan(): Writes
      reads this
    {
      var w1 := Then(NoWrites, "chat_id", IntOpt(chatID));
      var w2 := Then(w1, "question", StrOpt(question));
      var w3 := Then(w2, "options", StrOpt(options));
      var w4 := Then(w3, "isAnonymous", BoolOpt(isAnonymous));
      var w5 := Then(w4, "pollType", StrOpt(pollType));
      var w6 := Then(w5, "allowsMultipleAnswers", BoolOpt(allowsMultipleAnswers));
      var w7 := Then(w6, "correctOptionID", IntOpt(correctOptionID));
      var w8 := Then(w7, "explanation", StrOpt(explanation));
      var w9 := Then(w8, "explanationParseMode", StrOpt(explanationParseMode));
      var w10 := Then(w9, "explanationEntities", StrOpt(explanationEntities));
      var w11 := Then(w10, "openPeriod", IntOpt(openPeriod));
      var w12 := Then(w11, "closeDate", IntOpt(closeDate));
      var w13 := Then(w12, "isClosed", BoolOpt(isClosed));
      var w14 := Then(w13, "message_thread_id", IntOpt(messageThreadID));
      var w15 := Then(w14, "disable_notification", BoolOpt(disableNotification));
      var w16 := Then(w15, "protect_content", BoolOpt(protectContent));
      var w17 := Then(w16, "reply_to_message_id", IntOpt(replyToMessageID));
      var w18 := Then(w17, "allow_sending_without_reply", BoolOpt(allowSendingWithoutReply));
      var w19 := Then(w18, "reply_markup", StrOpt(inlineKeyboardMarkup));
      var w20 := Then(w19, "reply_markup", StrOpt(replyKeyboardMarkup));
      var w21 := Then(w20, "reply_markup", StrOpt(replyKeyboardRemove));
      var w22 := Then(w21, "reply_markup", StrOpt(forceReply));
      w22
    }

    /** The value the calls leave at `chat_id`. */
    lemma PlanChatID()
      ensures HoldsIfSet(OrEmpty(Written(Plan())), "chat_id", IntOpt(chatID))
    {
      var w0 := NoWrites;
      var w1 := Then(w0, "chat_id", IntOpt(chatID));
      var w2 := Then(w1, "question", StrOpt(question));
      var w3 := Then(w2, "options", StrOpt(options));
      var w4 := Then(w3, "isAnonymous", BoolOpt(isAnonymous));
      var w5 := Then(w4, "pollType", StrOpt(pollType));
      var w6 := Then(w5, "allowsMultipleAnswers", BoolOpt(allowsMultipleAnswers));
      var w7 := Then(w6, "correctOptionID", IntOpt(correctOptionID));
      var w8 := Then(w7, "explanation", StrOpt(explanation));
      var w9 := Then(w8, "explanationParseMode", StrOpt(explanationParseMode));
      var w10 := Then(w9, "explanationEntities", StrOpt(explanationEntities));
      var w11 := Then(w10, "openPeriod", IntOpt(openPeriod));
      var w12 := Then(w11, "closeDate", IntOpt(closeDate));
      var w13 := Then(w12, "isClosed", BoolOpt(isClosed));
      var w14 := Then(w13, "message_thread_id", IntOpt(messageThreadID));
      var w15 := Then(w14, "disable_notification", BoolOpt(disableNotification));
      var w16 := Then(w15, "protect_content", BoolOpt(protectContent));
      var w17 := Then(w16, "reply_to_message_id", IntOpt(replyToMessageID));
      var w18 := Then(w17, "allow_sending_without_reply", BoolOpt(allowSendingWithoutReply));
      var w19 := Then(w18, "reply_markup", StrOpt(inlineKeyboardMarkup));
      var w20 := Then(w19, "reply_markup", StrOpt(replyKeyboardMarkup));
      var w21 := Then(w20, "reply_markup", StrOpt(replyKeyboardRemove));
      var w22 := Then(w21, "reply_markup", StrOpt(forceReply));
      LastSetOther(w1, "question", StrOpt(question), "chat_id");
      LastSetOther(w2, "options", StrOpt(options), "chat_id");
      LastSetOther(w3, "isAnonymous", BoolOpt(isAnonymous), "chat_id");
      LastSetOther(w4, "pollType", StrOpt(pollType), "chat_id");
      LastSetOther(w5, "allowsMultipleAnswers", BoolOpt(allowsMultipleAnswers), "chat_id");
      LastSetOther(w6, "correctOptionID", IntOpt(correctOptionID), "chat_id");
      LastSetOther(w7, "explanation", StrOpt(explanation), "chat_id");
      LastSetOther(w8, "explanationParseMode", StrOpt(explanationParseMode), "chat_id");
      LastSetOther(w9, "explanationEntities", StrOpt(explanationEntities), "chat_id");
      LastSetOther(w10, "openPeriod", IntOpt(openPeriod), "chat_id");
      LastSetOther(w11, "closeDate", IntOpt(closeDate), "chat_id");
      LastSetOther(w12, "isClosed", BoolOpt(isClosed), "chat_id");
      LastSetOther(w13, "message_thread_id", IntOpt(messageThreadID), "chat_id");
      LastSetOther(w14, "disable_notification", BoolOpt(disableNotification), "chat_id");
      LastSetOther(w15, "protect_content", BoolOpt(protectContent), "chat_id");
      LastSetOther(w16, "reply_to_message_id", IntOpt(replyToMessageID), "chat_id");
      LastSetOther(w17, "allow_sending_without_reply", BoolOpt(allowSendingWithoutReply), "chat_id");
      LastSetOther(w18, "reply_markup", StrOpt(inlineKeyboardMarkup), "chat_id");
      LastSetOther(w19, "reply_markup", StrOpt(replyKeyboardMarkup), "chat_id");
      LastSetOther(w20, "reply_markup", StrOpt(replyKeyboardRemove), "chat_id");
      LastSetOther(w21, "reply_markup", StrOpt(forceReply), "chat_id");
      WrittenLastSet(w22, "chat_id");
    }

    /** The value the calls leave at `question`. */
    lemma PlanQuestion()
      ensures HoldsIfSet(OrEmpty(Written(Plan())), "question", StrOpt(question))
    {
      var w0 := NoWrites;
      var w1 := Then(w0, "chat_id", IntOpt(chatID));
      var w2 := Then(w1, "question", StrOpt(question));
      var w3 := Then(w2, "options", StrOpt(options));
      var w4 := Then(w3, "isAnonymous", BoolOpt(isAnonymous));
      var w5 := Then(w4, "pollType", StrOpt(pollType));
      var w6 := Then(w5, "allowsMultipleAnswers", BoolOpt(allowsMultipleAnswers));
      var w7 := Then(w6, "correctOptionID", IntOpt(correctOptionID));
      var w8 := Then(w7, "explanation", StrOpt(explanation));
      var w9 := Then(w8, "explanationParseMode", StrOpt(explanationParseMode));
      var w10 := Then(w9, "explanationEntities", StrOpt(explanationEntities));
      var w11 := Then(w10, "openPeriod", IntOpt(openPeriod));
      var w12 := Then(w11, "closeDate", IntOpt(closeDate));
      var w13 := Then(w12, "isClosed", BoolOpt(isClosed));
      var w14 := Then(w13, "message_thread_id", IntOpt(messageThreadID));
      var w15 := Then(w14, "disable_notification", BoolOpt(disableNotification));
      var w16 := Then(w15, "protect_content", BoolOpt(protectContent));
      var w17 := Then(w16, "reply_to_message_id", IntOpt(replyToMessageID));
      var w18 := Then(w17, "allow_sending_without_reply", BoolOpt(allowSendingWithoutReply));
      var w19 := Then(w18, "reply_markup", StrOpt(inlineKeyboardMarkup));
      var w20 := Then(w19, "reply_markup", StrOpt(replyKeyboardMarkup));
      var w21 := Then(w20, "reply_markup", StrOpt(replyKeyboardRemove));
      var w22 := Then(w21, "reply_markup", StrOpt(forceReply));
      LastSetOther(w0, "chat_id", IntOpt(chatID), "question");
      LastSetOther(w2, "options", StrOpt(options), "question");
      LastSetOther(w3, "isAnonymous", BoolOpt(isAnonymous), "question");
      LastSetOther(w4, "pollType", StrOpt(pollType), "question");
      LastSetOther(w5, "allowsMultipleAnswers", BoolOpt(allowsMultipleAnswers), "question");
      LastSetOther(w6, "correctOptionID", IntOpt(correctOptionID), "question");
      LastSetOther(w7, "explanation", StrOpt(explanation), "question");
      LastSetOther(w8, "explanationParseMode", StrOpt(explanationParseMode), "question");
      LastSetOther(w9, "explanationEntities", StrOpt(explanationEntities), "question");
      LastSetOther(w10, "openPeriod", IntOpt(openPeriod), "question");
      LastSetOther(w11, "closeDate", IntOpt(closeDate), "question");
      LastSetOther(w12, "isClosed", BoolOpt(isClosed), "question");
      LastSetOther(w13, "message_thread_id", IntOpt(messageThreadID), "question");
      LastSetOther(w14, "disable_notification", BoolOpt(disableNotification), "question");
      LastSetOther(w15, "protect_content", BoolOpt(protectContent), "question");
      LastSetOther(w16, "reply_to_message_id", IntOpt(replyToMessageID), "question");
      LastSetOther(w17, "allow_sending_without_reply", BoolOpt(allowSendingWithoutReply), "question");
      LastSetOther(w18, "reply_markup", StrOpt(inlineKeyboardMarkup), "question");
      LastSetOther(w19, "reply_markup", StrOpt(replyKeyboardMarkup), "question");
      LastSetOther(w20, "reply_markup", StrOpt(replyKeyboardRemove), "question");
      LastSetOther(w21, "reply_markup", StrOpt(forceReply), "question");
      WrittenLastSet(w22, "question");
    }

    /** The value the calls leave at `options`. */
    lemma PlanOptions()
      ensures HoldsIfSet(OrEmpty(Written(Plan())), "options", StrOpt(options))
    {
      var w0 := NoWrites;
      var w1 := Then(w0, "chat_id", IntOpt(chatID));
      var w2 := Then(w1, "question", StrOpt(question));
      var w3 := Then(w2, "options", StrOpt(options));
      var w4 := Then(w3, "isAnonymous", BoolOpt(isAnonymous));
      var w5 := Then(w4, "pollType", StrOpt(pollType));
      var w6 := Then(w5, "allowsMultipleAnswers", BoolOpt(allowsMultipleAnswers));
      var w7 := Then(w6, "correctOptionID", IntOpt(correctOptionID));
      var w8 := Then(w7, "explanation", StrOpt(explanation));
      var w9 := Then(w8, "explanationParseMode", StrOpt(explanationParseMode));
      var w10 := Then(w9, "explanationEntities", StrOpt(explanationEntities));
      var w11 := Then(w10, "openPeriod", IntOpt(openPeriod));
      var w12 := Then(w11, "closeDate", IntOpt(closeDate));
      var w13 := Then(w12, "isClosed", BoolOpt(isClosed));
      var w14 := Then(w13, "message_thread_id", IntOpt(messageThreadID));
      var w15 := Then(w14, "disable_notification", BoolOpt(disableNotification));
      var w16 := Then(w15, "protect_content", BoolOpt(protectContent));
      var w17 := Then(w16, "reply_to_message_id", IntOpt(replyToMessageID));
      var w18 := Then(w17, "allow_sending_without_reply", BoolOpt(allowSendingWithoutReply));
      var w19 := Then(w18, "reply_markup", StrOpt(inlineKeyboardMarkup));
      var w20 := Then(w19, "reply_markup", StrOpt(replyKeyboardMarkup));
      var w21 := Then(w20, "reply_markup", StrOpt(replyKeyboardRemove));
      var w22 := Then(w21, "reply_markup", StrOpt(forceReply));
      LastSetOther(w0, "chat_id", IntOpt(chatID), "options");
      LastSetOther(w1, "question", StrOpt(question), "options");
      LastSetOther(w3, "isAnonymous", BoolOpt(isAnonymous), "options");
      LastSetOther(w4, "pollType", StrOpt(pollType), "options");
      LastSetOther(w5, "allowsMultipleAnswers", BoolOpt(allowsMultipleAnswers), "options");
      LastSetOther(w6, "correctOptionID", IntOpt(correctOptionID), "options");
      LastSetOther(w7, "explanation", StrOpt(explanation), "options");
      LastSetOther(w8, "explanationParseMode", StrOpt(explanationParseMode), "options");
      LastSetOther(w9, "explanationEntities", StrOpt(explanationEntities), "options");
      LastSetOther(w10, "openPeriod", IntOpt(openPeriod), "options");
      LastSetOther(w11, "closeDate", IntOpt(closeDate), "options");
      LastSetOther(w12, "isClosed", BoolOpt(isClosed), "options");
      LastSetOther(w13, "message_thread_id", IntOpt(messageThreadID), "options");
      LastSetOther(w14, "disable_notification", BoolOpt(disableNotification), "options");
      LastSetOther(w15, "protect_content", BoolOpt(protectContent), "options");
      LastSetOther(w16, "reply_to_message_id", IntOpt(replyToMessageID), "options");
      LastSetOther(w17, "allow_sending_without_reply", BoolOpt(allowSendingWithoutReply), "options");
      LastSetOther(w18, "reply_markup", StrOpt(inlineKeyboardMarkup), "options");
      LastSetOther(w19, "reply_markup", StrOpt(replyKeyboardMarkup), "options");
      LastSetOther(w20, "reply_markup", StrOpt(replyKeyboardRemove), "options");
      LastSetOther(w21, "reply_markup", StrOpt(forceReply), "options");
      WrittenLastSet(w22, "options");
    }

    /** The value the calls leave at `isAnonymous`. */
    lemma PlanIsAnonymous()
      ensures HoldsIfSet(OrEmpty(Written(Plan())), "isAnonymous", BoolOpt(isAnonymous))
    {
      var w0 := NoWrites;
      var w1 := Then(w0, "chat_id", IntOpt(chatID));
      var w2 := Then(w1, "question", StrOpt(question));
      var w3 := Then(w2, "options", StrOpt(options));
      var w4 := Then(w3, "isAnonymous", BoolOpt(isAnonymous));
      var w5 := Then(w4, "pollType", StrOpt(pollType));
      var w6 := Then(w5, "allowsMultipleAnswers", BoolOpt(allowsMultipleAnswers));
      var w7 := Then(w6, "correctOptionID", IntOpt(correctOptionID));
      var w8 := Then(w7, "explanation", StrOpt(explanation));
      var w9 := Then(w8, "explanationParseMode", StrOpt(explanationParseMode));
      var w10 := Then(w9, "explanationEntities", StrOpt(explanationEntities));
      var w11 := Then(w10, "openPeriod", IntOpt(openPeriod));
      var w12 := Then(w11, "closeDate", IntOpt(closeDate));
      var w13 := Then(w12, "isClosed", BoolOpt(isClosed));
      var w14 := Then(w13, "message_thread_id", IntOpt(messageThreadID));
      var w15 := Then(w14, "disable_notification", BoolOpt(disableNotification));
      var w16 := Then(w15, "protect_content", BoolOpt(protectContent));
      var w17 := Then(w16, "reply_to_message_id", IntOpt(replyToMessageID));
      var w18 := Then(w17, "allow_sending_without_reply", BoolOpt(allowSendingWithoutReply));
      var w19 := Then(w18, "reply_markup", StrOpt(inlineKeyboardMarkup));
      var w20 := Then(w19, "reply_markup", StrOpt(replyKeyboardMarkup));
      var w21 := Then(w20, "reply_markup", StrOpt(replyKeyboardRemove));
      var w22 := Then(w21, "reply_markup", StrOpt(forceReply));
      LastSetOther(w0, "chat_id", IntOpt(chatID), "isAnonymous");
      LastSetOther(w1, "question", StrOpt(question), "isAnonymous");
      LastSetOther(w2, "options", StrOpt(options), "isAnonymous");
      LastSetOther(w4, "pollType", StrOpt(pollType), "isAnonymous");
      LastSetOther(w5, "allowsMultipleAnswers", BoolOpt(allowsMultipleAnswers), "isAnonymous");
      LastSetOther(w6, "correctOptionID", IntOpt(correctOptionID), "isAnonymous");
      LastSetOther(w7, "explanation", StrOpt(explanation), "isAnonymous");
      LastSetOther(w8, "explanationParseMode", StrOpt(explanationParseMode), "isAnonymous");
      LastSetOther(w9, "explanationEntities", StrOpt(explanationEntities), "isAnonymous");
      LastSetOther(w10, "openPeriod", IntOpt(openPeriod), "isAnonymous");
      LastSetOther(w11, "closeDate", IntOpt(closeDate), "isAnonymous");
      LastSetOther(w12, "isClosed", BoolOpt(isClosed), "isAnonymous");
      LastSetOther(w13, "message_thread_id", IntOpt(messageThreadID), "isAnonymous");
      LastSetOther(w14, "disable_notification", BoolOpt(disableNotification), "isAnonymous");
      LastSetOther(w15, "protect_content", BoolOpt(protectContent), "isAnonymous");
      LastSetOther(w16, "reply_to_message_id", IntOpt(replyToMessageID), "isAnonymous");
      LastSetOther(w17, "allow_sending_without_reply", BoolOpt(allowSendingWithoutReply), "isAnonymous");
      LastSetOther(w18, "reply_markup", StrOpt(inlineKeyboardMarkup), "isAnonymous");
      LastSetOther(w19, "reply_markup", StrOpt(replyKeyboardMarkup), "isAnonymous");
      LastSetOther(w20, "reply_markup", StrOpt(replyKeyboardRemove), "isAnonymous");
      LastSetOther(w21, "reply_markup", StrOpt(forceReply), "isAnonymous");
      WrittenLastSet(w22, "isAnonymous");
    }

    /** The value the calls leave at `pollType`. */
    lemma PlanPollType()
      ensures HoldsIfSet(OrEmpty(Written(Plan())), "pollType", StrOpt(pollType))
    {
      var w0 := NoWrites;
      var w1 := Then(w0, "chat_id", IntOpt(chatID));
      var w2 := Then(w1, "question", StrOpt(question));
      var w3 := Then(w2, "options", StrOpt(options));
      var w4 := Then(w3, "isAnonymous", BoolOpt(isAnonymous));
      var w5 := Then(w4, "pollType", StrOpt(pollType));
      var w6 := Then(w5, "allowsMultipleAnswers", BoolOpt(allowsMultipleAnswers));
      var w7 := Then(w6, "correctOptionID", IntOpt(correctOptionID));
      var w8 := Then(w7, "explanation", StrOpt(explanation));
      var w9 := Then(w8, "explanationParseMode", StrOpt(explanationParseMode));
      var w10 := Then(w9, "explanationEntities", StrOpt(explanationEntities));
      var w11 := Then(w10, "openPeriod", IntOpt(openPeriod));
      var w12 := Then(w11, "closeDate", IntOpt(closeDate));
      var w13 := Then(w12, "isClosed", BoolOpt(isClosed));
      var w14 := Then(w13, "message_thread_id", IntOpt(messageThreadID));
      var w15 := Then(w14, "disable_notification", BoolOpt(disableNotification));
      var w16 := Then(w15, "protect_content", BoolOpt(protectContent));
      var w17 := Then(w16, "reply_to_message_id", IntOpt(replyToMessageID));
      var w18 := Then(w17, "allow_sending_without_reply", BoolOpt(allowSendingWithoutReply));
      var w19 := Then(w18, "reply_markup", StrOpt(inlineKeyboardMarkup));
      var w20 := Then(w19, "reply_markup", StrOpt(replyKeyboardMarkup));
      var w21 := Then(w20, "reply_markup", StrOpt(replyKeyboardRemove));
      var w22 := Then(w21, "reply_markup", StrOpt(forceReply));
      LastSetOther(w0, "chat_id", IntOpt(chatID), "pollType");
      LastSetOther(w1, "question", StrOpt(question), "pollType");
      LastSetOther(w2, "options", StrOpt(options), "pollType");
      LastSetOther(w3, "isAnonymous", BoolOpt(isAnonymous), "pollType");
      LastSetOther(w5, "allowsMultipleAnswers", BoolOpt(allowsMultipleAnswers), "pollType");
      LastSetOther(w6, "correctOptionID", IntOpt(correctOptionID), "pollType");
      LastSetOther(w7, "explanation", StrOpt(explanation), "pollType");
      LastSetOther(w8, "explanationParseMode", StrOpt(explanationParseMode), "pollType");
      LastSetOther(w9, "explanationEntities", StrOpt(explanationEntities), "pollType");
      LastSetOther(w10, "openPeriod", IntOpt(openPeriod), "pollType");
      LastSetOther(w11, "closeDate", IntOpt(closeDate), "pollType");
      LastSetOther(w12, "isClosed", BoolOpt(isClosed), "pollType");
      LastSetOther(w13, "message_thread_id", IntOpt(messageThreadID), "pollType");
      LastSetOther(w14, "disable_notification", BoolOpt(disableNotification), "pollType");
      LastSetOther(w15, "protect_content", BoolOpt(protectContent), "pollType");
      LastSetOther(w16, "reply_to_message_id", IntOpt(replyToMessageID), "pollType");
      LastSetOther(w17, "allow_sending_without_reply", BoolOpt(allowSendingWithoutReply), "pollType");
      LastSetOther(w18, "reply_markup", StrOpt(inlineKeyboardMarkup), "pollType");
      LastSetOther(w19, "reply_markup", StrOpt(replyKeyboardMarkup), "pollType");
      LastSetOther(w20, "reply_markup", StrOpt(replyKeyboardRemove), "pollType");
      LastSetOther(w21, "reply_markup", StrOpt(forceReply), "pollType");
      WrittenLastSet(w22, "pollType");
    }

    /** The value the calls leave at `allowsMultipleAnswers`. */
    lemma PlanAllowsMultipleAnswers()
      ensures HoldsIfSet(OrEmpty(Written(Plan())), "allowsMultipleAnswers", BoolOpt(allowsMultipleAnswers))
    {
      var w0 := NoWrites;
      var w1 := Then(w0, "chat_id", IntOpt(chatID));
      var w2 := Then(w1, "question", StrOpt(question));
      var w3 := Then(w2, "options", StrOpt(options));
      var w4 := Then(w3, "isAnonymous", BoolOpt(isAnonymous));
      var w5 := Then(w4, "pollType", StrOpt(pollType));
      var w6 := Then(w5, "allowsMultipleAnswers", BoolOpt(allowsMultipleAnswers));
      var w7 := Then(w6, "correctOptionID", IntOpt(correctOptionID));
      var w8 := Then(w7, "explanation", StrOpt(explanation));
      var w9 := Then(w8, "explanationParseMode", StrOpt(explanationParseMode));
      var w10 := Then(w9, "explanationEntities", StrOpt(explanationEntities));
      var w11 := Then(w10, "openPeriod", IntOpt(openPeriod));
      var w12 := Then(w11, "closeDate", IntOpt(closeDate));
      var w13 := Then(w12, "isClosed", BoolOpt(isClosed));
      var w14 := Then(w13, "message_thread_id", IntOpt(messageThreadID));
      var w15 := Then(w14, "disable_notification", BoolOpt(disableNotification));
      var w16 := Then(w15, "protect_content", BoolOpt(protectContent));
      var w17 := Then(w16, "reply_to_message_id", IntOpt(replyToMessageID));
      var w18 := Then(w17, "allow_sending_without_reply", BoolOpt(allowSendingWithoutReply));
      var w19 := Then(w18, "reply_markup", StrOpt(inlineKeyboardMarkup));
      var w20 := Then(w19, "reply_markup", StrOpt(replyKeyboardMarkup));
      var w21 := Then(w20, "reply_markup", StrOpt(replyKeyboardRemove));
      var w22 := Then(w21, "reply_markup", StrOpt(forceReply));
      LastSetOther(w0, "chat_id", IntOpt(chatID), "allowsMultipleAnswers");
      LastSetOther(w1, "question", StrOpt(question), "allowsMultipleAnswers");
      LastSetOther(w2, "options", StrOpt(options), "allowsMultipleAnswers");
      LastSetOther(w3, "isAnonymous", BoolOpt(isAnonymous), "allowsMultipleAnswers");
      LastSetOther(w4, "pollType", StrOpt(pollType), "allowsMultipleAnswers");
      LastSetOther(w6, "correctOptionID", IntOpt(correctOptionID), "allowsMultipleAnswers");
      LastSetOther(w7, "explanation", StrOpt(explanation), "allowsMultipleAnswers");
      LastSetOther(w8, "explanationParseMode", StrOpt(explanationParseMode), "allowsMultipleAnswers");
      LastSetOther(w9, "explanationEntities", StrOpt(explanationEntities), "allowsMultipleAnswers");
      LastSetOther(w10, "openPeriod", IntOpt(openPeriod), "allowsMultipleAnswers");
      LastSetOther(w11, "closeDate", IntOpt(closeDate), "allowsMultipleAnswers");
      LastSetOther(w12, "isClosed", BoolOpt(isClosed), "allowsMultipleAnswers");
      LastSetOther(w13, "message_thread_id", IntOpt(messageThreadID), "allowsMultipleAnswers");
      LastSetOther(w14, "disable_notification", BoolOpt(disableNotification), "allowsMultipleAnswers");
      LastSetOther(w15, "protect_content", BoolOpt(protectContent), "allowsMultipleAnswers");
      LastSetOther(w16, "reply_to_message_id", IntOpt(replyToMessageID), "allowsMultipleAnswers");
      LastSetOther(w17, "allow_sending_without_reply", BoolOpt(allowSendingWithoutReply), "allowsMultipleAnswers");
      LastSetOther(w18, "reply_markup", StrOpt(inlineKeyboardMarkup), "allowsMultipleAnswers");
      LastSetOther(w19, "reply_markup", StrOpt(replyKeyboardMarkup), "allowsMultipleAnswers");
      LastSetOther(w20, "reply_markup", StrOpt(replyKeyboardRemove), "allowsMultipleAnswers");
      LastSetOther(w21, "reply_markup", StrOpt(forceReply), "allowsMultipleAnswers");
      WrittenLastSet(w22, "allowsMultipleAnswers");
    }

    /** The value the calls leave at `correctOptionID`. */
    lemma PlanCorrectOptionID()
      ensures HoldsIfSet(OrEmpty(Written(Plan())), "correctOptionID", IntOpt(correctOptionID))
    {
      var w0 := NoWrites;
      var w1 := Then(w0, "chat_id", IntOpt(chatID));
      var w2 := Then(w1, "question", StrOpt(question));
      var w3 := Then(w2, "options", StrOpt(options));
      var w4 := Then(w3, "isAnonymous", BoolOpt(isAnonymous));
      var w5 := Then(w4, "pollType", StrOpt(pollType));
      var w6 := Then(w5, "allowsMultipleAnswers", BoolOpt(allowsMultipleAnswers));
      var w7 := Then(w6, "correctOptionID", IntOpt(correctOptionID));
      var w8 := Then(w7, "explanation", StrOpt(explanation));
      var w9 := Then(w8, "explanationParseMode", StrOpt(explanationParseMode));
      var w10 := Then(w9, "explanationEntities", StrOpt(explanationEntities));
      var w11 := Then(w10, "openPeriod", IntOpt(openPeriod));
      var w12 := Then(w11, "closeDate", IntOpt(closeDate));
      var w13 := Then(w12, "isClosed", BoolOpt(isClosed));
      var w14 := Then(w13, "message_thread_id", IntOpt(messageThreadID));
      var w15 := Then(w14, "disable_notification", BoolOpt(disableNotification));
      var w16 := Then(w15, "protect_content", BoolOpt(protectContent));
      var w17 := Then(w16, "reply_to_message_id", IntOpt(replyToMessageID));
      var w18 := Then(w17, "allow_sending_without_reply", BoolOpt(allowSendingWithoutReply));
      var w19 := Then(w18, "reply_markup", StrOpt(inlineKeyboardMarkup));
      var w20 := Then(w19, "reply_markup", StrOpt(replyKeyboardMarkup));
      var w21 := Then(w20, "reply_markup", StrOpt(replyKeyboardRemove));
      var w22 := Then(w21, "reply_markup", StrOpt(forceReply));
      LastSetOther(w0, "chat_id", IntOpt(chatID), "correctOptionID");
      LastSetOther(w1, "question", StrOpt(question), "correctOptionID");
      LastSetOther(w2, "options", StrOpt(options), "correctOptionID");
      LastSetOther(w3, "isAnonymous", BoolOpt(isAnonymous), "correctOptionID");
      LastSetOther(w4, "pollType", StrOpt(pollType), "correctOptionID");
      LastSetOther(w5, "allowsMultipleAnswers", BoolOpt(allowsMultipleAnswers), "correctOptionID");
      LastSetOther(w7, "explanation", StrOpt(explanation), "correctOptionID");
      LastSetOther(w8, "explanationParseMode", StrOpt(explanationParseMode), "correctOptionID");
      LastSetOther(w9, "explanationEntities", StrOpt(explanationEntities), "correctOptionID");
      LastSetOther(w10, "openPeriod", IntOpt(openPeriod), "correctOptionID");
      LastSetOther(w11, "closeDate", IntOpt(closeDate), "correctOptionID");
      LastSetOther(w12, "isClosed", BoolOpt(isClosed), "correctOptionID");
      LastSetOther(w13, "message_thread_id", IntOpt(messageThreadID), "correctOptionID");
      LastSetOther(w14, "disable_notification", BoolOpt(disableNotification), "correctOptionID");
      LastSetOther(w15, "protect_content", BoolOpt(protectContent), "correctOptionID");
      LastSetOther(w16, "reply_to_message_id", IntOpt(replyToMessageID), "correctOptionID");
      LastSetOther(w17, "allow_sending_without_reply", BoolOpt(allowSendingWithoutReply), "correctOptionID");
      LastSetOther(w18, "reply_markup", StrOpt(inlineKeyboardMarkup), "correctOptionID");
      LastSetOther(w19, "reply_markup", StrOpt(replyKeyboardMarkup), "correctOptionID");
      LastSetOther(w20, "reply_markup", StrOpt(replyKeyboardRemove), "correctOptionID");
      LastSetOther(w21, "reply_markup", StrOpt(forceReply), "correctOptionID");
      WrittenLastSet(w22, "correctOptionID");
    }

    /** The value the calls leave at `explanation`. */
    lemma PlanExplanation()
      ensures HoldsIfSet(OrEmpty(Written(Plan())), "explanation", StrOpt(explanation))
    {
      var w0 := NoWrites;
      var w1 := Then(w0, "chat_id", IntOpt(chatID));
      var w2 := Then(w1, "question", StrOpt(question));
      var w3 := Then(w2, "options", StrOpt(options));
      var w4 := Then(w3, "isAnonymous", BoolOpt(isAnonymous));
      var w5 := Then(w4, "pollType", StrOpt(pollType));
      var w6 := Then(w5, "allowsMultipleAnswers", BoolOpt(allowsMultipleAnswers));
      var w7 := Then(w6, "correctOptionID", IntOpt(correctOptionID));
      var w8 := Then(w7, "explanation", StrOpt(explanation));
      var w9 := Then(w8, "explanationParseMode", StrOpt(explanationParseMode));
      var w10 := Then(w9, "explanationEntities", StrOpt(explanationEntities));
      var w11 := Then(w10, "openPeriod", IntOpt(openPeriod));
      var w12 := Then(w11, "closeDate", IntOpt(closeDate));
      var w13 := Then(w12, "isClosed", BoolOpt(isClosed));
      var w14 := Then(w13, "message_thread_id", IntOpt(messageThreadID));
      var w15 := Then(w14, "disable_notification", BoolOpt(disableNotification));
      var w16 := Then(w15, "protect_content", BoolOpt(protectContent));
      var w17 := Then(w16, "reply_to_message_id", IntOpt(replyToMessageID));
      var w18 := Then(w17, "allow_sending_without_reply", BoolOpt(allowSendingWithoutReply));
      var w19 := Then(w18, "reply_markup", StrOpt(inlineKeyboardMarkup));
      var w20 := Then(w19, "reply_markup", StrOpt(replyKeyboardMarkup));
      var w21 := Then(w20, "reply_markup", StrOpt(replyKeyboardRemove));
      var w22 := Then(w21, "reply_markup", StrOpt(forceReply));
      LastSetOther(w0, "chat_id", IntOpt(chatID), "explanation");
      LastSetOther(w1, "question", StrOpt(question), "explanation");
      LastSetOther(w2, "options", StrOpt(options), "explanation");
      LastSetOther(w3, "isAnonymous", BoolOpt(isAnonymous), "explanation");
      LastSetOther(w4, "pollType", StrOpt(pollType), "explanation");
      LastSetOther(w5, "allowsMultipleAnswers", BoolOpt(allowsMultipleAnswers), "explanation");
      LastSetOther(w6, "correctOptionID", IntOpt(correctOptionID), "explanation");
      LastSetOther(w8, "explanationParseMode", StrOpt(explanationParseMode), "explanation");
      LastSetOther(w9, "explanationEntities", StrOpt(explanationEntities), "explanation");
      LastSetOther(w10, "openPeriod", IntOpt(openPeriod), "explanation");
      LastSetOther(w11, "closeDate", IntOpt(closeDate), "explanation");
      LastSetOther(w12, "isClosed", BoolOpt(isClosed), "explanation");
      LastSetOther(w13, "message_thread_id", IntOpt(messageThreadID), "explanation");
      LastSetOther(w14, "disable_notification", BoolOpt(disableNotification), "explanation");
      LastSetOther(w15, "protect_content", BoolOpt(protectContent), "explanation");
      LastSetOther(w16, "reply_to_message_id", IntOpt(replyToMessageID), "explanation");
      LastSetOther(w17, "allow_sending_without_reply", BoolOpt(allowSendingWithoutReply), "explanation");
      LastSetOther(w18, "reply_markup", StrOpt(inlineKeyboardMarkup), "explanation");
      LastSetOther(w19, "reply_markup", StrOpt(replyKeyboardMarkup), "explanation");
      LastSetOther(w20, "reply_markup", StrOpt(replyKeyboardRemove), "explanation");
      LastSetOther(w21, "reply_markup", StrOpt(forceReply), "explanation");
      WrittenLastSet(w22, "explanation");
    }

    /** The value the calls leave at `explanationParseMode`. */
    lemma PlanExplanationParseMode()
      ensures HoldsIfSet(OrEmpty(Written(Plan())), "explanationParseMode", StrOpt(explanationParseMode))
    {
      var w0 := NoWrites;
      var w1 := Then(w0, "chat_id", IntOpt(chatID));
      var w2 := Then(w1, "question", StrOpt(question));
      var w3 := Then(w2, "options", StrOpt(options));
      var w4 := Then(w3, "isAnonymous", BoolOpt(isAnonymous));
      var w5 := Then(w4, "pollType", StrOpt(pollType));
      var w6 := Then(w5, "allowsMultipleAnswers", BoolOpt(allowsMultipleAnswers));
      var w7 := Then(w6, "correctOptionID", IntOpt(correctOptionID));
      var w8 := Then(w7, "explanation", StrOpt(explanation));
      var w9 := Then(w8, "explanationParseMode", StrOpt(explanationParseMode));
      var w10 := Then(w9, "explanationEntities", StrOpt(explanationEntities));
      var w11 := Then(w10, "openPeriod", IntOpt(openPeriod));
      var w12 := Then(w11, "closeDate", IntOpt(closeDate));
      var w13 := Then(w12, "isClosed", BoolOpt(isClosed));
      var w14 := Then(w13, "message_thread_id", IntOpt(messageThreadID));
      var w15 := Then(w14, "disable_notification", BoolOpt(disableNotification));
      var w16 := Then(w15, "protect_content", BoolOpt(protectContent));
      var w17 := Then(w16, "reply_to_message_id", IntOpt(replyToMessageID));
      var w18 := Then(w17, "allow_sending_without_reply", BoolOpt(allowSendingWithoutReply));
      var w19 := Then(w18, "reply_markup", StrOpt(inlineKeyboardMarkup));
      var w20 := Then(w19, "reply_markup", StrOpt(replyKeyboardMarkup));
      var w21 := Then(w20, "reply_markup", StrOpt(replyKeyboardRemove));
      var w22 := Then(w21, "reply_markup", StrOpt(forceReply));
      LastSetOther(w0, "chat_id", IntOpt(chatID), "explanationParseMode");
      LastSetOther(w1, "question", StrOpt(question), "explanationParseMode");
      LastSetOther(w2, "options", StrOpt(options), "explanationParseMode");
      LastSetOther(w3, "isAnonymous", BoolOpt(isAnonymous), "explanationParseMode");
      LastSetOther(w4, "pollType", StrOpt(pollType), "explanationParseMode");
      LastSetOther(w5, "allowsMultipleAnswers", BoolOpt(allowsMultipleAnswers), "explanationParseMode");
      LastSetOther(w6, "correctOptionID", IntOpt(correctOptionID), "explanationParseMode");
      LastSetOther(w7, "explanation", StrOpt(explanation), "explanationParseMode");
      LastSetOther(w9, "explanationEntities", StrOpt(explanationEntities), "explanationParseMode");
      LastSetOther(w10, "openPeriod", IntOpt(openPeriod), "explanationParseMode");
      LastSetOther(w11, "closeDate", IntOpt(closeDate), "explanationParseMode");
      LastSetOther(w12, "isClosed", BoolOpt(isClosed), "explanationParseMode");
      LastSetOther(w13, "message_thread_id", IntOpt(messageThreadID), "explanationParseMode");
      LastSetOther(w14, "disable_notification", BoolOpt(disableNotification), "explanationParseMode");
      LastSetOther(w15, "protect_content", BoolOpt(protectContent), "explanationParseMode");
      LastSetOther(w16, "reply_to_message_id", IntOpt(replyToMessageID), "explanationParseMode");
      LastSetOther(w17, "allow_sending_without_reply", BoolOpt(allowSendingWithoutReply), "explanationParseMode");
      LastSetOther(w18, "reply_markup", StrOpt(inlineKeyboardMarkup), "explanationParseMode");
      LastSetOther(w19, "reply_markup", StrOpt(replyKeyboardMarkup), "explanationParseMode");
      LastSetOther(w20, "reply_markup", StrOpt(replyKeyboardRemove), "explanationParseMode");
      LastSetOther(w21, "reply_markup", StrOpt(forceReply), "explanationParseMode");
      WrittenLastSet(w22, "explanationParseMode");
    }

    /** The value the calls leave at `explanationEntities`. */
    lemma PlanExplanationEntities()
      ensures HoldsIfSet(OrEmpty(Written(Plan())), "explanationEntities", StrOpt(explanationEntities))
    {
      var w0 := NoWrites;
      var w1 := Then(w0, "chat_id", IntOpt(chatID));
      var w2 := Then(w1, "question", StrOpt(question));
      var w3 := Then(w2, "options", StrOpt(options));
      var w4 := Then(w3, "isAnonymous", BoolOpt(isAnonymous));
      var w5 := Then(w4, "pollType", StrOpt(pollType));
      var w6 := Then(w5, "allowsMultipleAnswers", BoolOpt(allowsMultipleAnswers));
      var w7 := Then(w6, "correctOptionID", IntOpt(correctOptionID));
      var w8 := Then(w7, "explanation", StrOpt(explanation));
      var w9 := Then(w8, "explanationParseMode", StrOpt(explanationParseMode));
      var w10 := Then(w9, "explanationEntities", StrOpt(explanationEntities));
      var w11 := Then(w10, "openPeriod", IntOpt(openPeriod));
      var w12 := Then(w11, "closeDate", IntOpt(closeDate));
      var w13 := Then(w12, "isClosed", BoolOpt(isClosed));
      var w14 := Then(w13, "message_thread_id", IntOpt(messageThreadID));
      var w15 := Then(w14, "disable_notification", BoolOpt(disableNotification));
      var w16 := Then(w15, "protect_content", BoolOpt(protectContent));
      var w17 := Then(w16, "reply_to_message_id", IntOpt(replyToMessageID));
      var w18 := Then(w17, "allow_sending_without_reply", BoolOpt(allowSendingWithoutReply));
      var w19 := Then(w18, "reply_markup", StrOpt(inlineKeyboardMarkup));
      var w20 := Then(w19, "reply_markup", StrOpt(replyKeyboardMarkup));
      var w21 := Then(w20, "reply_markup", StrOpt(replyKeyboardRemove));
      var w22 := Then(w21, "reply_markup", StrOpt(forceReply));
      LastSetOther(w0, "chat_id", IntOpt(chatID), "explanationEntities");
      LastSetOther(w1, "question", StrOpt(question), "explanationEntities");
      LastSetOther(w2, "options", StrOpt(options), "explanationEntities");
      LastSetOther(w3, "isAnonymous", BoolOpt(isAnonymous), "explanationEntities");
      LastSetOther(w4, "pollType", StrOpt(pollType), "explanationEntities");
      LastSetOther(w5, "allowsMultipleAnswers", BoolOpt(allowsMultipleAnswers), "explanationEntities");
      LastSetOther(w6, "correctOptionID", IntOpt(correctOptionID), "explanationEntities");
      LastSetOther(w7, "explanation", StrOpt(explanation), "explanationEntities");
      LastSetOther(w8, "explanationParseMode", StrOpt(explanationParseMode), "explanationEntities");
      LastSetOther(w10, "openPeriod", IntOpt(openPeriod), "explanationEntities");
      LastSetOther(w11, "closeDate", IntOpt(closeDate), "explanationEntities");
      LastSetOther(w12, "isClosed", BoolOpt(isClosed), "explanationEntities");
      LastSetOther(w13, "message_thread_id", IntOpt(messageThreadID), "explanationEntities");
      LastSetOther(w14, "disable_notification", BoolOpt(disableNotification), "explanationEntities");
      LastSetOther(w15, "protect_content", BoolOpt(protectContent), "explanationEntities");
      LastSetOther(w16, "reply_to_message_id", IntOpt(replyToMessageID), "explanationEntities");
      LastSetOther(w17, "allow_sending_without_reply", BoolOpt(allowSendingWithoutReply), "explanationEntities");
      LastSetOther(w18, "reply_markup", StrOpt(inlineKeyboardMarkup), "explanationEntities");
      LastSetOther(w19, "reply_markup", StrOpt(replyKeyboardMarkup), "explanationEntities");
      LastSetOther(w20, "reply_markup", StrOpt(replyKeyboardRemove), "explanationEntities");
      LastSetOther(w21, "reply_markup", StrOpt(forceReply), "explanationEntities");
      WrittenLastSet(w22, "explanationEntities");
    }

    /** The value the calls leave at `openPeriod`. */
    lemma PlanOpenPeriod()
      ensures HoldsIfSet(OrEmpty(Written(Plan())), "openPeriod", IntOpt(openPeriod))
    {
      var w0 := NoWrites;
      var w1 := Then(w0, "chat_id", IntOpt(chatID));
      var w2 := Then(w1, "question", StrOpt(question));
      var w3 := Then(w2, "options", StrOpt(options));
      var w4 := Then(w3, "isAnonymous", BoolOpt(isAnonymous));
      var w5 := Then(w4, "pollType", StrOpt(pollType));
      var w6 := Then(w5, "allowsMultipleAnswers", BoolOpt(allowsMultipleAnswers));
      var w7 := Then(w6, "correctOptionID", IntOpt(correctOptionID));
      var w8 := Then(w7, "explanation", StrOpt(explanation));
      var w9 := Then(w8, "explanationParseMode", StrOpt(explanationParseMode));
      var w10 := Then(w9, "explanationEntities", StrOpt(explanationEntities));
      var w11 := Then(w10, "openPeriod", IntOpt(openPeriod));
      var w12 := Then(w11, "closeDate", IntOpt(closeDate));
      var w13 := Then(w12, "isClosed", BoolOpt(isClosed));
      var w14 := Then(w13, "message_thread_id", IntOpt(messageThreadID));
      var w15 := Then(w14, "disable_notification", BoolOpt(disableNotification));
      var w16 := Then(w15, "protect_content", BoolOpt(protectContent));
      var w17 := Then(w16, "reply_to_message_id", IntOpt(replyToMessageID));
      var w18 := Then(w17, "allow_sending_without_reply", BoolOpt(allowSendingWithoutReply));
      var w19 := Then(w18, "reply_markup", StrOpt(inlineKeyboardMarkup));
      var w20 := Then(w19, "reply_markup", StrOpt(replyKeyboardMarkup));
      var w21 := Then(w20, "reply_markup", StrOpt(replyKeyboardRemove));
      var w22 := Then(w21, "reply_markup", StrOpt(forceReply));
      LastSetOther(w0, "chat_id", IntOpt(chatID), "openPeriod");
      LastSetOther(w1, "question", StrOpt(question), "openPeriod");
      LastSetOther(w2, "options", StrOpt(options), "openPeriod");
      LastSetOther(w3, "isAnonymous", BoolOpt(isAnonymous), "openPeriod");
      LastSetOther(w4, "pollType", StrOpt(pollType), "openPeriod");
      LastSetOther(w5, "allowsMultipleAnswers", BoolOpt(allowsMultipleAnswers), "openPeriod");
      LastSetOther(w6, "correctOptionID", IntOpt(correctOptionID), "openPeriod");
      LastSetOther(w7, "explanation", StrOpt(explanation), "openPeriod");
      LastSetOther(w8, "explanationParseMode", StrOpt(explanationParseMode), "openPeriod");
      LastSetOther(w9, "explanationEntities", StrOpt(explanationEntities), "openPeriod");
      LastSetOther(w11, "closeDate", IntOpt(closeDate), "openPeriod");
      LastSetOther(w12, "isClosed", BoolOpt(isClosed), "openPeriod");
      LastSetOther(w13, "message_thread_id", IntOpt(messageThreadID), "openPeriod");
      LastSetOther(w14, "disable_notification", BoolOpt(disableNotification), "openPeriod");
      LastSetOther(w15, "protect_content", BoolOpt(protectContent), "openPeriod");
      LastSetOther(w16, "reply_to_message_id", IntOpt(replyToMessageID), "openPeriod");
      LastSetOther(w17, "allow_sending_without_reply", BoolOpt(allowSendingWithoutReply), "openPeriod");
      LastSetOther(w18, "reply_markup", StrOpt(inlineKeyboardMarkup), "openPeriod");
      LastSetOther(w19, "reply_markup", StrOpt(replyKeyboardMarkup), "openPeriod");
      LastSetOther(w20, "reply_markup", StrOpt(replyKeyboardRemove), "openPeriod");
      LastSetOther(w21, "reply_markup", StrOpt(forceReply), "openPeriod");
      WrittenLastSet(w22, "openPeriod");
    }

    /** The value the calls leave at `closeDate`. */
    lemma PlanCloseDate()
      ensures HoldsIfSet(OrEmpty(Written(Plan())), "closeDate", IntOpt(closeDate))
    {
      var w0 := NoWrites;
      var w1 := Then(w0, "chat_id", IntOpt(chatID));
      var w2 := Then(w1, "question", StrOpt(question));
      var w3 := Then(w2, "options", StrOpt(options));
      var w4 := Then(w3, "isAnonymous", BoolOpt(isAnonymous));
      var w5 := Then(w4, "pollType", StrOpt(pollType));
      var w6 := Then(w5, "allowsMultipleAnswers", BoolOpt(allowsMultipleAnswers));
      var w7 := Then(w6, "correctOptionID", IntOpt(correctOptionID));
      var w8 := Then(w7, "explanation", StrOpt(explanation));
      var w9 := Then(w8, "explanationParseMode", StrOpt(explanationParseMode));
      var w10 := Then(w9, "explanationEntities", StrOpt(explanationEntities));
      var w11 := Then(w10, "openPeriod", IntOpt(openPeriod));
      var w12 := Then(w11, "closeDate", IntOpt(closeDate));
      var w13 := Then(w12, "isClosed", BoolOpt(isClosed));
      var w14 := Then(w13, "message_thread_id", IntOpt(messageThreadID));
      var w15 := Then(w14, "disable_notification", BoolOpt(disableNotification));
      var w16 := Then(w15, "protect_content", BoolOpt(protectContent));
      var w17 := Then(w16, "reply_to_message_id", IntOpt(replyToMessageID));
      var w18 := Then(w17, "allow_sending_without_reply", BoolOpt(allowSendingWithoutReply));
      var w19 := Then(w18, "reply_markup", StrOpt(inlineKeyboardMarkup));
      var w20 := Then(w19, "reply_markup", StrOpt(replyKeyboardMarkup));
      var w21 := Then(w20, "reply_markup", StrOpt(replyKeyboardRemove));
      var w22 := Then(w21, "reply_markup", StrOpt(forceReply));
      LastSetOther(w0, "chat_id", IntOpt(chatID), "closeDate");
      LastSetOther(w1, "question", StrOpt(question), "closeDate");
      LastSetOther(w2, "options", StrOpt(options), "closeDate");
      LastSetOther(w3, "isAnonymous", BoolOpt(isAnonymous), "closeDate");
      LastSetOther(w4, "pollType", StrOpt(pollType), "closeDate");
      LastSetOther(w5, "allowsMultipleAnswers", BoolOpt(allowsMultipleAnswers), "closeDate");
      LastSetOther(w6, "correctOptionID", IntOpt(correctOptionID), "closeDate");
      LastSetOther(w7, "explanation", StrOpt(explanation), "closeDate");
      LastSetOther(w8, "explanationParseMode", StrOpt(explanationParseMode), "closeDate");
      LastSetOther(w9, "explanationEntities", StrOpt(explanationEntities), "closeDate");
      LastSetOther(w10, "openPeriod", IntOpt(openPeriod), "closeDate");
      LastSetOther(w12, "isClosed", BoolOpt(isClosed), "closeDate");
      LastSetOther(w13, "message_thread_id", IntOpt(messageThreadID), "closeDate");
      LastSetOther(w14, "disable_notification", BoolOpt(disableNotification), "closeDate");
      LastSetOther(w15, "protect_content", BoolOpt(protectContent), "closeDate");
      LastSetOther(w16, "reply_to_message_id", IntOpt(replyToMessageID), "closeDate");
      LastSetOther(w17, "allow_sending_without_reply", BoolOpt(allowSendingWithoutReply), "closeDate");
      LastSetOther(w18, "reply_markup", StrOpt(inlineKeyboardMarkup), "closeDate");
      LastSetOther(w19, "reply_markup", StrOpt(replyKeyboardMarkup), "closeDate");
      LastSetOther(w20, "reply_markup", StrOpt(replyKeyboardRemove), "closeDate");
      LastSetOther(w21, "reply_markup", StrOpt(forceReply), "closeDate");
      WrittenLastSet(w22, "closeDate");
    }

    /** The value the calls leave at `isClosed`. */
    lemma PlanIsClosed()
      ensures HoldsIfSet(OrEmpty(Written(Plan())), "isClosed", BoolOpt(isClosed))
    {
      var w0 := NoWrites;
      var w1 := Then(w0, "chat_id", IntOpt(chatID));
      var w2 := Then(w1, "question", StrOpt(question));
      var w3 := Then(w2, "options", StrOpt(options));
      var w4 := Then(w3, "isAnonymous", BoolOpt(isAnonymous));
      var w5 := Then(w4, "pollType", StrOpt(pollType));
      var w6 := Then(w5, "allowsMultipleAnswers", BoolOpt(allowsMultipleAnswers));
      var w7 := Then(w6, "correctOptionID", IntOpt(correctOptionID));
      var w8 := Then(w7, "explanation", StrOpt(explanation));
      var w9 := Then(w8, "explanationParseMode", StrOpt(explanationParseMode));
      var w10 := Then(w9, "explanationEntities", StrOpt(explanationEntities));
      var w11 := Then(w10, "openPeriod", IntOpt(openPeriod));
      var w12 := Then(w11, "closeDate", IntOpt(closeDate));
      var w13 := Then(w12, "isClosed", BoolOpt(isClosed));
      var w14 := Then(w13, "message_thread_id", IntOpt(messageThreadID));
      var w15 := Then(w14, "disable_notification", BoolOpt(disableNotification));
      var w16 := Then(w15, "protect_content", BoolOpt(protectContent));
      var w17 := Then(w16, "reply_to_message_id", IntOpt(replyToMessageID));
      var w18 := Then(w17, "allow_sending_without_reply", BoolOpt(allowSendingWithoutReply));
      var w19 := Then(w18, "reply_markup", StrOpt(inlineKeyboardMarkup));
      var w20 := Then(w19, "reply_markup", StrOpt(replyKeyboardMarkup));
      var w21 := Then(w20, "reply_markup", StrOpt(replyKeyboardRemove));
      var w22 := Then(w21, "reply_markup", StrOpt(forceReply));
      LastSetOther(w0, "chat_id", IntOpt(chatID), "isClosed");
      LastSetOther(w1, "question", StrOpt(question), "isClosed");
      LastSetOther(w2, "options", StrOpt(options), "isClosed");
      LastSetOther(w3, "isAnonymous", BoolOpt(isAnonymous), "isClosed");
      LastSetOther(w4, "pollType", StrOpt(pollType), "isClosed");
      LastSetOther(w5, "allowsMultipleAnswers", BoolOpt(allowsMultipleAnswers), "isClosed");
      LastSetOther(w6, "correctOptionID", IntOpt(correctOptionID), "isClosed");
      LastSetOther(w7, "explanation", StrOpt(explanation), "isClosed");
      LastSetOther(w8, "explanationParseMode", StrOpt(explanationParseMode), "isClosed");
      LastSetOther(w9, "explanationEntities", StrOpt(explanationEntities), "isClosed");
      LastSetOther(w10, "openPeriod", IntOpt(openPeriod), "isClosed");
      LastSetOther(w11, "closeDate", IntOpt(closeDate), "isClosed");
      LastSetOther(w13, "message_thread_id", IntOpt(messageThreadID), "isClosed");
      LastSetOther(w14, "disable_notification", BoolOpt(disableNotification), "isClosed");
      LastSetOther(w15, "protect_content", BoolOpt(protectContent), "isClosed");
      LastSetOther(w16, "reply_to_message_id", IntOpt(replyToMessageID), "isClosed");
      LastSetOther(w17, "allow_sending_without_reply", BoolOpt(allowSendingWithoutReply), "isClosed");
      LastSetOther(w18, "reply_markup", StrOpt(inlineKeyboardMarkup), "isClosed");
      LastSetOther(w19, "reply_markup", StrOpt(replyKeyboardMarkup), "isClosed");
      LastSetOther(w20, "reply_markup", StrOpt(replyKeyboardRemove), "isClosed");
      LastSetOther(w21, "reply_markup", StrOpt(forceReply), "isClosed");
      WrittenLastSet(w22, "isClosed");
    }

    /** The value the calls leave at `message_thread_id`. */
    lemma PlanMessageThreadID()
      ensures HoldsIfSet(OrEmpty(Written(Plan())), "message_thread_id", IntOpt(messageThreadID))
    {
      var w0 := NoWrites;
      var w1 := Then(w0, "chat_id", IntOpt(chatID));
      var w2 := Then(w1, "question", StrOpt(question));
      var w3 := Then(w2, "options", StrOpt(options));
      var w4 := Then(w3, "isAnonymous", BoolOpt(isAnonymous));
      var w5 := Then(w4, "pollType", StrOpt(pollType));
      var w6 := Then(w5, "allowsMultipleAnswers", BoolOpt(allowsMultipleAnswers));
      var w7 := Then(w6, "correctOptionID", IntOpt(correctOptionID));
      var w8 := Then(w7, "explanation", StrOpt(explanation));
      var w9 := Then(w8, "explanationParseMode", StrOpt(explanationParseMode));
      var w10 := Then(w9, "explanationEntities", StrOpt(explanationEntities));
      var w11 := Then(w10, "openPeriod", IntOpt(openPeriod));
      var w12 := Then(w11, "closeDate", IntOpt(closeDate));
      var w13 := Then(w12, "isClosed", BoolOpt(isClosed));
      var w14 := Then(w13, "message_thread_id", IntOpt(messageThreadID));
      var w15 := Then(w14, "disable_notification", BoolOpt(disableNotification));
      var w16 := Then(w15, "protect_content", BoolOpt(protectContent));
      var w17 := Then(w16, "reply_to_message_id", IntOpt(replyToMessageID));
      var w18 := Then(w17, "allow_sending_without_reply", BoolOpt(allowSendingWithoutReply));
      var w19 := Then(w18, "reply_markup", StrOpt(inlineKeyboardMarkup));
      var w20 := Then(w19, "reply_markup", StrOpt(replyKeyboardMarkup));
      var w21 := Then(w20, "reply_markup", StrOpt(replyKeyboardRemove));
      var w22 := Then(w21, "reply_markup", StrOpt(forceReply));
      LastSetOther(w0, "chat_id", IntOpt(chatID), "message_thread_id");
      LastSetOther(w1, "question", StrOpt(question), "message_thread_id");
      LastSetOther(w2, "options", StrOpt(options), "message_thread_id");
      LastSetOther(w3, "isAnonymous", BoolOpt(isAnonymous), "message_thread_id");
      LastSetOther(w4, "pollType", StrOpt(pollType), "message_thread_id");
      LastSetOther(w5, "allowsMultipleAnswers", BoolOpt(allowsMultipleAnswers), "message_thread_id");
      LastSetOther(w6, "correctOptionID", IntOpt(correctOptionID), "message_thread_id");
      LastSetOther(w7, "explanation", StrOpt(explanation), "message_thread_id");
      LastSetOther(w8, "explanationParseMode", StrOpt(explanationParseMode), "message_thread_id");
      LastSetOther(w9, "explanationEntities", StrOpt(explanationEntities), "message_thread_id");
      LastSetOther(w10, "openPeriod", IntOpt(openPeriod), "message_thread_id");
      LastSetOther(w11, "closeDate", IntOpt(closeDate), "message_thread_id");
      LastSetOther(w12, "isClosed", BoolOpt(isClosed), "message_thread_id");
      LastSetOther(w14, "disable_notification", BoolOpt(disableNotification), "message_thread_id");
      LastSetOther(w15, "protect_content", BoolOpt(protectContent), "message_thread_id");
      LastSetOther(w16, "reply_to_message_id", IntOpt(replyToMessageID), "message_thread_id");
      LastSetOther(w17, "allow_sending_without_reply", BoolOpt(allowSendingWithoutReply), "message_thread_id");
      LastSetOther(w18, "reply_markup", StrOpt(inlineKeyboardMarkup), "message_thread_id");
      LastSetOther(w19, "reply_markup", StrOpt(replyKeyboardMarkup), "message_thread_id");
      LastSetOther(w20, "reply_markup", StrOpt(replyKeyboardRemove), "message_thread_id");
      LastSetOther(w21, "reply_markup", StrOpt(forceReply), "message_thread_id");
      WrittenLastSet(w22, "message_thread_id");
    }

    /** The value the calls leave at `disable_notification`. */
    lemma PlanDisableNotification()
      ensures HoldsIfSet(OrEmpty(Written(Plan())), "disable_notification", BoolOpt(disableNotification))
    {
      var w0 := NoWrites;
      var w1 := Then(w0, "chat_id", IntOpt(chatID));
      var w2 := Then(w1, "question", StrOpt(question));
      var w3 := Then(w2, "options", StrOpt(options));
      var w4 := Then(w3, "isAnonymous", BoolOpt(isAnonymous));
      var w5 := Then(w4, "pollType", StrOpt(pollType));
      var w6 := Then(w5, "allowsMultipleAnswers", BoolOpt(allowsMultipleAnswers));
      var w7 := Then(w6, "correctOptionID", IntOpt(correctOptionID));
      var w8 := Then(w7, "explanation", StrOpt(explanation));
      var w9 := Then(w8, "explanationParseMode", StrOpt(explanationParseMode));
      var w10 := Then(w9, "explanationEntities", StrOpt(explanationEntities));
      var w11 := Then(w10, "openPeriod", IntOpt(openPeriod));
      var w12 := Then(w11, "closeDate", IntOpt(closeDate));
      var w13 := Then(w12, "isClosed", BoolOpt(isClosed));
      var w14 := Then(w13, "message_thread_id", IntOpt(messageThreadID));
      var w15 := Then(w14, "disable_notification", BoolOpt(disableNotification));
      var w16 := Then(w15, "protect_content", BoolOpt(protectContent));
      var w17 := Then(w16, "reply_to_message_id", IntOpt(replyToMessageID));
      var w18 := Then(w17, "allow_sending_without_reply", BoolOpt(allowSendingWithoutReply));
      var w19 := Then(w18, "reply_markup", StrOpt(inlineKeyboardMarkup));
      var w20 := Then(w19, "reply_markup", StrOpt(replyKeyboardMarkup));
      var w21 := Then(w20, "reply_markup", StrOpt(replyKeyboardRemove));
      var w22 := Then(w21, "reply_markup", StrOpt(forceReply));
      LastSetOther(w0, "chat_id", IntOpt(chatID), "disable_notification");
      LastSetOther(w1, "question", StrOpt(question), "disable_notification");
      LastSetOther(w2, "options", StrOpt(options), "disable_notification");
      LastSetOther(w3, "isAnonymous", BoolOpt(isAnonymous), "disable_notification");
      LastSetOther(w4, "pollType", StrOpt(pollType), "disable_notification");
      LastSetOther(w5, "allowsMultipleAnswers", BoolOpt(allowsMultipleAnswers), "disable_notification");
      LastSetOther(w6, "correctOptionID", IntOpt(correctOptionID), "disable_notification");
      LastSetOther(w7, "explanation", StrOpt(explanation), "disable_notification");
      LastSetOther(w8, "explanationParseMode", StrOpt(explanationParseMode), "disable_notification");
      LastSetOther(w9, "explanationEntities", StrOpt(explanationEntities), "disable_notification");
      LastSetOther(w10, "openPeriod", IntOpt(openPeriod), "disable_notification");
      LastSetOther(w11, "closeDate", IntOpt(closeDate), "disable_notification");
      LastSetOther(w12, "isClosed", BoolOpt(isClosed), "disable_notification");
      LastSetOther(w13, "message_thread_id", IntOpt(messageThreadID), "disable_notification");
      LastSetOther(w15, "protect_content", BoolOpt(protectContent), "disable_notification");
      LastSetOther(w16, "reply_to_message_id", IntOpt(replyToMessageID), "disable_notification");
      LastSetOther(w17, "allow_sending_without_reply", BoolOpt(allowSendingWithoutReply), "disable_notification");
      LastSetOther(w18, "reply_markup", StrOpt(inlineKeyboardMarkup), "disable_notification");
      LastSetOther(w19, "reply_markup", StrOpt(replyKeyboardMarkup), "disable_notification");
      LastSetOther(w20, "reply_markup", StrOpt(replyKeyboardRemove), "disable_notification");
      LastSetOther(w21, "reply_markup", StrOpt(forceReply), "disable_notification");
      WrittenLastSet(w22, "disable_notification");
    }

    /** The value the calls leave at `protect_content`. */
    lemma PlanProtectContent()
      ensures HoldsIfSet(OrEmpty(Written(Plan())), "protect_content", BoolOpt(protectContent))
    {
      var w0 := NoWrites;
      var w1 := Then(w0, "chat_id", IntOpt(chatID));
      var w2 := Then(w1, "question", StrOpt(question));
      var w3 := Then(w2, "options", StrOpt(options));
      var w4 := Then(w3, "isAnonymous", BoolOpt(isAnonymous));
      var w5 := Then(w4, "pollType", StrOpt(pollType));
      var w6 := Then(w5, "allowsMultipleAnswers", BoolOpt(allowsMultipleAnswers));
      var w7 := Then(w6, "correctOptionID", IntOpt(correctOptionID));
      var w8 := Then(w7, "explanation", StrOpt(explanation));
      var w9 := Then(w8, "explanationParseMode", StrOpt(explanationParseMode));
      var w10 := Then(w9, "explanationEntities", StrOpt(explanationEntities));
      var w11 := Then(w10, "openPeriod", IntOpt(openPeriod));
      var w12 := Then(w11, "closeDate", IntOpt(closeDate));
      var w13 := Then(w12, "isClosed", BoolOpt(isClosed));
      var w14 := Then(w13, "message_thread_id", IntOpt(messageThreadID));
      var w15 := Then(w14, "disable_notification", BoolOpt(disableNotification));
      var w16 := Then(w15, "protect_content", BoolOpt(protectContent));
      var w17 := Then(w16, "reply_to_message_id", IntOpt(replyToMessageID));
      var w18 := Then(w17, "allow_sending_without_reply", BoolOpt(allowSendingWithoutReply));
      var w19 := Then(w18, "reply_markup", StrOpt(inlineKeyboardMarkup));
      var w20 := Then(w19, "reply_markup", StrOpt(replyKeyboardMarkup));
      var w21 := Then(w20, "reply_markup", StrOpt(replyKeyboardRemove));
      var w22 := Then(w21, "reply_markup", StrOpt(forceReply));
      LastSetOther(w0, "chat_id", IntOpt(chatID), "protect_content");
      LastSetOther(w1, "question", StrOpt(question), "protect_content");
      LastSetOther(w2, "options", StrOpt(options), "protect_content");
      LastSetOther(w3, "isAnonymous", BoolOpt(isAnonymous), "protect_content");
      LastSetOther(w4, "pollType", StrOpt(pollType), "protect_content");
      LastSetOther(w5, "allowsMultipleAnswers", BoolOpt(allowsMultipleAnswers), "protect_content");
      LastSetOther(w6, "correctOptionID", IntOpt(correctOptionID), "protect_content");
      LastSetOther(w7, "explanation", StrOpt(explanation), "protect_content");
      LastSetOther(w8, "explanationParseMode", StrOpt(explanationParseMode), "protect_content");
      LastSetOther(w9, "explanationEntities", StrOpt(explanationEntities), "protect_content");
      LastSetOther(w10, "openPeriod", IntOpt(openPeriod), "protect_content");
      LastSetOther(w11, "closeDate", IntOpt(closeDate), "protect_content");
      LastSetOther(w12, "isClosed", BoolOpt(isClosed), "protect_content");
      LastSetOther(w13, "message_thread_id", IntOpt(messageThreadID), "protect_content");
      LastSetOther(w14, "disable_notification", BoolOpt(disableNotification), "protect_content");
      LastSetOther(w16, "reply_to_message_id", IntOpt(replyToMessageID), "protect_content");
      LastSetOther(w17, "allow_sending_without_reply", BoolOpt(allowSendingWithoutReply), "protect_content");
      LastSetOther(w18, "reply_markup", StrOpt(inlineKeyboardMarkup), "protect_content");
      LastSetOther(w19, "reply_markup", StrOpt(replyKeyboardMarkup), "protect_content");
      LastSetOther(w20, "reply_markup", StrOpt(replyKeyboardRemove), "protect_content");
      LastSetOther(w21, "reply_markup", StrOpt(forceReply), "protect_content");
      WrittenLastSet(w22, "protect_content");
    }

    /** The value the calls leave at `reply_to_message_id`. */
    lemma PlanReplyToMessageID()
      ensures HoldsIfSet(OrEmpty(Written(Plan())), "reply_to_message_id", IntOpt(replyToMessageID))
    {
      var w0 := NoWrites;
      var w1 := Then(w0, "chat_id", IntOpt(chatID));
      var w2 := Then(w1, "question", StrOpt(question));
      var w3 := Then(w2, "options", StrOpt(options));
      var w4 := Then(w3, "isAnonymous", BoolOpt(isAnonymous));
      var w5 := Then(w4, "pollType", StrOpt(pollType));
      var w6 := Then(w5, "allowsMultipleAnswers", BoolOpt(allowsMultipleAnswers));
      var w7 := Then(w6, "correctOptionID", IntOpt(correctOptionID));
      var w8 := Then(w7, "explanation", StrOpt(explanation));
      var w9 := Then(w8, "explanationParseMode", StrOpt(explanationParseMode));
      var w10 := Then(w9, "explanationEntities", StrOpt(explanationEntities));
      var w11 := Then(w10, "openPeriod", IntOpt(openPeriod));
      var w12 := Then(w11, "closeDate", IntOpt(closeDate));
      var w13 := Then(w12, "isClosed", BoolOpt(isClosed));
      var w14 := Then(w13, "message_thread_id", IntOpt(messageThreadID));
      var w15 := Then(w14, "disable_notification", BoolOpt(disableNotification));
      var w16 := Then(w15, "protect_content", BoolOpt(protectContent));
      var w17 := Then(w16, "reply_to_message_id", IntOpt(replyToMessageID));
      var w18 := Then(w17, "allow_sending_without_reply", BoolOpt(allowSendingWithoutReply));
      var w19 := Then(w18, "reply_markup", StrOpt(inlineKeyboardMarkup));
      var w20 := Then(w19, "reply_markup", StrOpt(replyKeyboardMarkup));
      var w21 := Then(w20, "reply_markup", StrOpt(replyKeyboardRemove));
      var w22 := Then(w21, "reply_markup", StrOpt(forceReply));
      LastSetOther(w0, "chat_id", IntOpt(chatID), "reply_to_message_id");
      LastSetOther(w1, "question", StrOpt(question), "reply_to_message_id");
      LastSetOther(w2, "options", StrOpt(options), "reply_to_message_id");
      LastSetOther(w3, "isAnonymous", BoolOpt(isAnonymous), "reply_to_message_id");
      LastSetOther(w4, "pollType", StrOpt(pollType), "reply_to_message_id");
      LastSetOther(w5, "allowsMultipleAnswers", BoolOpt(allowsMultipleAnswers), "reply_to_message_id");
      LastSetOther(w6, "correctOptionID", IntOpt(correctOptionID), "reply_to_message_id");
      LastSetOther(w7, "explanation", StrOpt(explanation), "reply_to_message_id");
      LastSetOther(w8, "explanationParseMode", StrOpt(explanationParseMode), "reply_to_message_id");
      LastSetOther(w9, "explanationEntities", StrOpt(explanationEntities), "reply_to_message_id");
      LastSetOther(w10, "openPeriod", IntOpt(openPeriod), "reply_to_message_id");
      LastSetOther(w11, "closeDate", IntOpt(closeDate), "reply_to_message_id");
      LastSetOther(w12, "isClosed", BoolOpt(isClosed), "reply_to_message_id");
      LastSetOther(w13, "message_thread_id", IntOpt(messageThreadID), "reply_to_message_id");
      LastSetOther(w14, "disable_notification", BoolOpt(disableNotification), "reply_to_message_id");
      LastSetOther(w15, "protect_content", BoolOpt(protectContent), "reply_to_message_id");
      LastSetOther(w17, "allow_sending_without_reply", BoolOpt(allowSendingWithoutReply), "reply_to_message_id");
      LastSetOther(w18, "reply_markup", StrOpt(inlineKeyboardMarkup), "reply_to_message_id");
      LastSetOther(w19, "reply_markup", StrOpt(replyKeyboardMarkup), "reply_to_message_id");
      LastSetOther(w20, "reply_markup", StrOpt(replyKeyboardRemove), "reply_to_message_id");
      LastSetOther(w21, "reply_markup", StrOpt(forceReply), "reply_to_message_id");
      WrittenLastSet(w22, "reply_to_message_id");
    }

    /** The value the calls leave at `allow_sending_without_reply`. */
    lemma PlanAllowSendingWithoutReply()
      ensures HoldsIfSet(OrEmpty(Written(Plan())), "allow_sending_without_reply", BoolOpt(allowSendingWithoutReply))
    {
      var w0 := NoWrites;
      var w1 := Then(w0, "chat_id", IntOpt(chatID));
      var w2 := Then(w1, "question", StrOpt(question));
      var w3 := Then(w2, "options", StrOpt(options));
      var w4 := Then(w3, "isAnonymous", BoolOpt(isAnonymous));
      var w5 := Then(w4, "pollType", StrOpt(pollType));
      var w6 := Then(w5, "allowsMultipleAnswers", BoolOpt(allowsMultipleAnswers));
      var w7 := Then(w6, "correctOptionID", IntOpt(correctOptionID));
      var w8 := Then(w7, "explanation", StrOpt(explanation));
      var w9 := Then(w8, "explanationParseMode", StrOpt(explanationParseMode));
      var w10 := Then(w9, "explanationEntities", StrOpt(explanationEntities));
      var w11 := Then(w10, "openPeriod", IntOpt(openPeriod));
      var w12 := Then(w11, "closeDate", IntOpt(closeDate));
      var w13 := Then(w12, "isClosed", BoolOpt(isClosed));
      var w14 := Then(w13, "message_thread_id", IntOpt(messageThreadID));
      var w15 := Then(w14, "disable_notification", BoolOpt(disableNotification));
      var w16 := Then(w15, "protect_content", BoolOpt(protectContent));
      var w17 := Then(w16, "reply_to_message_id", IntOpt(replyToMessageID));
      var w18 := Then(w17, "allow_sending_without_reply", BoolOpt(allowSendingWithoutReply));
      var w19 := Then(w18, "reply_markup", StrOpt(inlineKeyboardMarkup));
      var w20 := Then(w19, "reply_markup", StrOpt(replyKeyboardMarkup));
      var w21 := Then(w20, "reply_markup", StrOpt(replyKeyboardRemove));
      var w22 := Then(w21, "reply_markup", StrOpt(forceReply));
      LastSetOther(w0, "chat_id", IntOpt(chatID), "allow_sending_without_reply");
      LastSetOther(w1, "question", StrOpt(question), "allow_sending_without_reply");
      LastSetOther(w2, "options", StrOpt(options), "allow_sending_without_reply");
      LastSetOther(w3, "isAnonymous", BoolOpt(isAnonymous), "allow_sending_without_reply");
      LastSetOther(w4, "pollType", StrOpt(pollType), "allow_sending_without_reply");
      LastSetOther(w5, "allowsMultipleAnswers", BoolOpt(allowsMultipleAnswers), "allow_sending_without_reply");
      LastSetOther(w6, "correctOptionID", IntOpt(correctOptionID), "allow_sending_without_reply");
      LastSetOther(w7, "explanation", StrOpt(explanation), "allow_sending_without_reply");
      LastSetOther(w8, "explanationParseMode", StrOpt(explanationParseMode), "allow_sending_without_reply");
      LastSetOther(w9, "explanationEntities", StrOpt(explanationEntities), "allow_sending_without_reply");
      LastSetOther(w10, "openPeriod", IntOpt(openPeriod), "allow_sending_without_reply");
      LastSetOther(w11, "closeDate", IntOpt(closeDate), "allow_sending_without_reply");
      LastSetOther(w12, "isClosed", BoolOpt(isClosed), "allow_sending_without_reply");
      LastSetOther(w13, "message_thread_id", IntOpt(messageThreadID), "allow_sending_without_reply");
      LastSetOther(w14, "disable_notification", BoolOpt(disableNotification), "allow_sending_without_reply");
      LastSetOther(w15, "protect_content", BoolOpt(protectContent), "allow_sending_without_reply");
      LastSetOther(w16, "reply_to_message_id", IntOpt(replyToMessageID), "allow_sending_without_reply");
      LastSetOther(w18, "reply_markup", StrOpt(inlineKeyboardMarkup), "allow_sending_without_reply");
      LastSetOther(w19, "reply_markup", StrOpt(replyKeyboardMarkup), "allow_sending_without_reply");
      LastSetOther(w20, "reply_markup", StrOpt(replyKeyboardRemove), "allow_sending_without_reply");
      LastSetOther(w21, "reply_markup", StrOpt(forceReply), "allow_sending_without_reply");
      WrittenLastSet(w22, "allow_sending_without_reply");
    }

    /** The value the calls leave at `reply_markup`: the last one set. */
    lemma PlanReplyMarkup()
      ensures HoldsIfSet(OrEmpty(Written(Plan())), "reply_markup", Later(Later(Later(StrOpt(inlineKeyboardMarkup), StrOpt(replyKeyboardMarkup)), StrOpt(replyKeyboardRemove)), StrOpt(forceReply)))
    {
      var w0 := NoWrites;
      var w1 := Then(w0, "chat_id", IntOpt(chatID));
      var w2 := Then(w1, "question", StrOpt(question));
      var w3 := Then(w2, "options", StrOpt(options));
      var w4 := Then(w3, "isAnonymous", BoolOpt(isAnonymous));
      var w5 := Then(w4, "pollType", StrOpt(pollType));
      var w6 := Then(w5, "allowsMultipleAnswers", BoolOpt(allowsMultipleAnswers));
      var w7 := Then(w6, "correctOptionID", IntOpt(correctOptionID));
      var w8 := Then(w7, "explanation", StrOpt(explanation));
      var w9 := Then(w8, "explanationParseMode", StrOpt(explanationParseMode));
      var w10 := Then(w9, "explanationEntities", StrOpt(explanationEntities));
      var w11 := Then(w10, "openPeriod", IntOpt(openPeriod));
      var w12 := Then(w11, "closeDate", IntOpt(closeDate));
      var w13 := Then(w12, "isClosed", BoolOpt(isClosed));
      var w14 := Then(w13, "message_thread_id", IntOpt(messageThreadID));
      var w15 := Then(w14, "disable_notification", BoolOpt(disableNotification));
      var w16 := Then(w15, "protect_content", BoolOpt(protectContent));
      var w17 := Then(w16, "reply_to_message_id", IntOpt(replyToMessageID));
      var w18 := Then(w17, "allow_sending_without_reply", BoolOpt(allowSendingWithoutReply));
      var w19 := Then(w18, "reply_markup", StrOpt(inlineKeyboardMarkup));
      var w20 := Then(w19, "reply_markup", StrOpt(replyKeyboardMarkup));
      var w21 := Then(w20, "reply_markup", StrOpt(replyKeyboardRemove));
      var w22 := Then(w21, "reply_markup", StrOpt(forceReply));
      LastSetOther(w0, "chat_id", IntOpt(chatID), "reply_markup");
      LastSetOther(w1, "question", StrOpt(question), "reply_markup");
      LastSetOther(w2, "options", StrOpt(options), "reply_markup");
      LastSetOther(w3, "isAnonymous", BoolOpt(isAnonymous), "reply_markup");
      LastSetOther(w4, "pollType", StrOpt(pollType), "reply_markup");
      LastSetOther(w5, "allowsMultipleAnswers", BoolOpt(allowsMultipleAnswers), "reply_markup");
      LastSetOther(w6, "correctOptionID", IntOpt(correctOptionID), "reply_markup");
      LastSetOther(w7, "explanation", StrOpt(explanation), "reply_markup");
      LastSetOther(w8, "explanationParseMode", StrOpt(explanationParseMode), "reply_markup");
      LastSetOther(w9, "explanationEntities", StrOpt(explanationEntities), "reply_markup");
      LastSetOther(w10, "openPeriod", IntOpt(openPeriod), "reply_markup");
      LastSetOther(w11, "closeDate", IntOpt(closeDate), "reply_markup");
      LastSetOther(w12, "isClosed", BoolOpt(isClosed), "reply_markup");
      LastSetOther(w13, "message_thread_id", IntOpt(messageThreadID), "reply_markup");
      LastSetOther(w14, "disable_notification", BoolOpt(disableNotification), "reply_markup");
      LastSetOther(w15, "protect_content", BoolOpt(protectContent), "reply_markup");
      LastSetOther(w16, "reply_to_message_id", IntOpt(replyToMessageID), "reply_markup");
      LastSetOther(w17, "allow_sending_without_reply", BoolOpt(allowSendingWithoutReply), "reply_markup");
      LastSetSame(w18, "reply_markup", StrOpt(inlineKeyboardMarkup));
      LastSetSame(w19, "reply_markup", StrOpt(replyKeyboardMarkup));
      LastSetSame(w20, "reply_markup", StrOpt(replyKeyboardRemove));
      LastSetSame(w21, "reply_markup", StrOpt(forceReply));
      WrittenLastSet(w22, "reply_markup");
    }

    /** The calls write no key but these. */
    lemma PlanOnly()
      ensures OrEmpty(Written(Plan())).Keys <= {"chat_id", "question", "options", "isAnonymous", "pollType", "allowsMultipleAnswers", "correctOptionID", "explanation", "explanationParseMode", "explanationEntities", "openPeriod", "closeDate", "isClosed", "message_thread_id", "disable_notification", "protect_content", "reply_to_message_id", "allow_sending_without_reply", "reply_markup"}
    {
      var w0 := NoWrites;
      var w1 := Then(w0, "chat_id", IntOpt(chatID));
      var w2 := Then(w1, "question", StrOpt(question));
      var w3 := Then(w2, "options", StrOpt(options));
      var w4 := Then(w3, "isAnonymous", BoolOpt(isAnonymous));
      var w5 := Then(w4, "pollType", StrOpt(pollType));
      var w6 := Then(w5, "allowsMultipleAnswers", BoolOpt(allowsMultipleAnswers));
      var w7 := Then(w6, "correctOptionID", IntOpt(correctOptionID));
      var w8 := Then(w7, "explanation", StrOpt(explanation));
      var w9 := Then(w8, "explanationParseMode", StrOpt(explanationParseMode));
      var w10 := Then(w9, "explanationEntities", StrOpt(explanationEntities));
      var w11 := Then(w10, "openPeriod", IntOpt(openPeriod));
      var w12 := Then(w11, "closeDate", IntOpt(closeDate));
      var w13 := Then(w12, "isClosed", BoolOpt(isClosed));
      var w14 := Then(w13, "message_thread_id", IntOpt(messageThreadID));
      var w15 := Then(w14, "disable_notification", BoolOpt(disableNotification));
      var w16 := Then(w15, "protect_content", BoolOpt(protectContent));
      var w17 := Then(w16, "reply_to_message_id", IntOpt(replyToMessageID));
      var w18 := Then(w17, "allow_sending_without_reply", BoolOpt(allowSendingWithoutReply));
      var w19 := Then(w18, "reply_markup", StrOpt(inlineKeyboardMarkup));
      var w20 := Then(w19, "reply_markup", StrOpt(replyKeyboardMarkup));
      var w21 := Then(w20, "reply_markup", StrOpt(replyKeyboardRemove));
      var w22 := Then(w21, "reply_markup", StrOpt(forceReply));
      forall j | j !in {"chat_id", "question", "options", "isAnonymous", "pollType", "allowsMultipleAnswers", "correctOptionID", "explanation", "explanationParseMode", "explanationEntities", "openPeriod", "closeDate", "isClosed", "message_thread_id", "disable_notification", "protect_content", "reply_to_message_id", "allow_sending_without_reply", "reply_markup"}
        ensures j !in OrEmpty(Written(w22))
      {
        LastSetOther(w0, "chat_id", IntOpt(chatID), j);
        LastSetOther(w1, "question", StrOpt(question), j);
        LastSetOther(w2, "options", StrOpt(options), j);
        LastSetOther(w3, "isAnonymous", BoolOpt(isAnonymous), j);
        LastSetOther(w4, "pollType", StrOpt(pollType), j);
        LastSetOther(w5, "allowsMultipleAnswers", BoolOpt(allowsMultipleAnswers), j);
        LastSetOther(w6, "correctOptionID", IntOpt(correctOptionID), j);
        LastSetOther(w7, "explanation", StrOpt(explanation), j);
        LastSetOther(w8, "explanationParseMode", StrOpt(explanationParseMode), j);
        LastSetOther(w9, "explanationEntities", StrOpt(explanationEntities), j);
        LastSetOther(w10, "openPeriod", IntOpt(openPeriod), j);
        LastSetOther(w11, "closeDate", IntOpt(closeDate), j);
        LastSetOther(w12, "isClosed", BoolOpt(isClosed), j);
        LastSetOther(w13, "message_thread_id", IntOpt(messageThreadID), j);
        LastSetOther(w14, "disable_notification", BoolOpt(disableNotification), j);
        LastSetOther(w15, "protect_content", BoolOpt(protectContent), j);
        LastSetOther(w16, "reply_to_message_id", IntOpt(replyToMessageID), j);
        LastSetOther(w17, "allow_sending_without_reply", BoolOpt(allowSendingWithoutReply), j);
        LastSetOther(w18, "reply_markup", StrOpt(inlineKeyboardMarkup), j);
        LastSetOther(w19, "reply_markup", StrOpt(replyKeyboardMarkup), j);
        LastSetOther(w20, "reply_markup", StrOpt(replyKeyboardRemove), j);
        LastSetOther(w21, "reply_markup", StrOpt(forceReply), j);
        WrittenLastSet(w22, j);
      }
    }

    /** The request `Do` builds before it calls the API: the endpoint, and a query made
        by the `setParam` calls of `Plan`. */
    method Assemble() returns (r: Request)
      ensures fresh(r)
      ensures r.Fields() == RequestFields(MethodGet, "/sendPoll", Written(Plan()), None, None, None, "", [])
    {
      r := new Request(MethodGet, "/sendPoll");
      ghost var done := NoWrites;
      var _ := r.SetParamIfSet("chat_id", IntOpt(chatID), done);
      done := Then(done, "chat_id", IntOpt(chatID));
      var _ := r.SetParamIfSet("question", StrOpt(question), done);
      done := Then(done, "question", StrOpt(question));
      var _ := r.SetParamIfSet("options", StrOpt(options), done);
      done := Then(done, "options", StrOpt(options));
      var _ := r.SetParamIfSet("isAnonymous", BoolOpt(isAnonymous), done);
      done := Then(done, "isAnonymous", BoolOpt(isAnonymous));
      var _ := r.SetParamIfSet("pollType", StrOpt(pollType), done);
      done := Then(done, "pollType", StrOpt(pollType));
      var _ := r.SetParamIfSet("allowsMultipleAnswers", BoolOpt(allowsMultipleAnswers), done);
      done := Then(done, "allowsMultipleAnswers", BoolOpt(allowsMultipleAnswers));
      var _ := r.SetParamIfSet("correctOptionID", IntOpt(correctOptionID), done);
      done := Then(done, "correctOptionID", IntOpt(correctOptionID));
      var _ := r.SetParamIfSet("explanation", StrOpt(explanation), done);
      done := Then(done, "explanation", StrOpt(explanation));
      var _ := r.SetParamIfSet("explanationParseMode", StrOpt(explanationParseMode), done);
      done := Then(done, "explanationParseMode", StrOpt(explanationParseMode));
      var _ := r.SetParamIfSet("explanationEntities", StrOpt(explanationEntities), done);
      done := Then(done, "explanationEntities", StrOpt(explanationEntities));
      var _ := r.SetParamIfSet("openPeriod", IntOpt(openPeriod), done);
      done := Then(done, "openPeriod", IntOpt(openPeriod));
      var _ := r.SetParamIfSet("closeDate", IntOpt(closeDate), done);
      done := Then(done, "closeDate", IntOpt(closeDate));
      var _ := r.SetParamIfSet("isClosed", BoolOpt(isClosed), done);
      done := Then(done, "isClosed", BoolOpt(isClosed));
      var _ := r.SetParamIfSet("message_thread_id", IntOpt(messageThreadID), done);
      done := Then(done, "message_thread_id", IntOpt(messageThreadID));
      var _ := r.SetParamIfSet("disable_notification", BoolOpt(disableNotification), done);
      done := Then(done, "disable_notification", BoolOpt(disableNotification));
      var _ := r.SetParamIfSet("protect_content", BoolOpt(protectContent), done);
      done := Then(done, "protect_content", BoolOpt(protectContent));
      var _ := r.SetParamIfSet("reply_to_message_id", IntOpt(replyToMessageID), done);
      done := Then(done, "reply_to_message_id", IntOpt(replyToMessageID));
      var _ := r.SetParamIfSet("allow_sending_without_reply", BoolOpt(allowSendingWithoutReply), done);
      done := Then(done, "allow_sending_without_reply", BoolOpt(allowSendingWithoutReply));
      var _ := r.SetParamIfSet("reply_markup", StrOpt(inlineKeyboardMarkup), done);
      done := Then(done, "reply_markup", StrOpt(inlineKeyboardMarkup));
      var _ := r.SetParamIfSet("reply_markup", StrOpt(replyKeyboardMarkup), done);
      done := Then(done, "reply_markup", StrOpt(replyKeyboardMarkup));
      var _ := r.SetParamIfSet("reply_markup", StrOpt(replyKeyboardRemove), done);
      done := Then(done, "reply_markup", StrOpt(replyKeyboardRemove));
      var _ := r.SetParamIfSet("reply_markup", StrOpt(forceReply), done);
      done := Then(done, "reply_markup", StrOpt(forceReply));
      assert done == Plan();
    }

    /** `Do`: Always sets `chat_id`, `question`, `options`; sets each of the other keys only when its field is set; then calls the API. */
    method Do(opts: seq<RequestOption>) returns (assembled: RequestFields, res: Option<Bytes>, err: Option<Error>)
      requires chatID.Some? && question.Some? && options.Some?
      ensures assembled.httpMethod == MethodGet && assembled.endpoint == "/sendPoll"
      ensures assembled.form == None && assembled.header == None && assembled.body == None
      ensures assembled.fullURL == "" && assembled.json == []
      ensures Holds(Q(assembled), "chat_id", Int(chatID.value as int))
      ensures Holds(Q(assembled), "question", Str(question.value))
      ensures Holds(Q(assembled), "options", Str(options.value))
      ensures HoldsIfSet(Q(assembled), "isAnonymous", BoolOpt(isAnonymous))
      ensures HoldsIfSet(Q(assembled), "pollType", StrOpt(pollType))
      ensures HoldsIfSet(Q(assembled), "allowsMultipleAnswers", BoolOpt(allowsMultipleAnswers))
      ensures HoldsIfSet(Q(assembled), "correctOptionID", IntOpt(correctOptionID))
      ensures HoldsIfSet(Q(assembled), "explanation", StrOpt(explanation))
      ensures HoldsIfSet(Q(assembled), "explanationParseMode", StrOpt(explanationParseMode))
      ensures HoldsIfSet(Q(assembled), "explanationEntities", StrOpt(explanationEntities))
      ensures HoldsIfSet(Q(assembled), "openPeriod", IntOpt(openPeriod))
      ensures HoldsIfSet(Q(assembled), "closeDate", IntOpt(closeDate))
      ensures HoldsIfSet(Q(assembled), "isClosed", BoolOpt(isClosed))
      ensures HoldsIfSet(Q(assembled), "message_thread_id", IntOpt(messageThreadID))
      ensures HoldsIfSet(Q(assembled), "disable_notification", BoolOpt(disableNotification))
      ensures HoldsIfSet(Q(assembled), "protect_content", BoolOpt(protectContent))
      ensures HoldsIfSet(Q(assembled), "reply_to_message_id", IntOpt(replyToMessageID))
      ensures HoldsIfSet(Q(assembled), "allow_sending_without_reply", BoolOpt(allowSendingWithoutReply))
      ensures HoldsIfSet(Q(assembled), "reply_markup", Later(Later(Later(StrOpt(inlineKeyboardMarkup), StrOpt(replyKeyboardMarkup)), StrOpt(replyKeyboardRemove)), StrOpt(forceReply)))
      ensures Q(assembled).Keys <= {"chat_id", "question", "options", "isAnonymous", "pollType", "allowsMultipleAnswers", "correctOptionID", "explanation", "explanationParseMode", "explanationEntities", "openPeriod", "closeDate", "isClosed", "message_thread_id", "disable_notification", "protect_content", "reply_to_message_id", "allow_sending_without_reply", "reply_markup"}
      ensures var o := c.Outcome(assembled, opts);
        err == o.1 && res == (if o.1.Some? then None else o.0)
    {
      var r := Assemble();
      assembled := r.Fields();
      var data, e := c.CallAPI(r, opts);
      PlanOnly();
      PlanChatID();
      PlanQuestion();
      PlanOptions();
      PlanIsAnonymous();
      PlanPollType();
      PlanAllowsMultipleAnswers();
      PlanCorrectOptionID();
      PlanExplanation();
      PlanExplanationParseMode();
      PlanExplanationEntities();
      PlanOpenPeriod();
      PlanCloseDate();
      PlanIsClosed();
      PlanMessageThreadID();
      PlanDisableNotification();
      PlanProtectContent();
      PlanReplyToMessageID();
      PlanAllowSendingWithoutReply();
      PlanReplyMarkup();
      if e.Some? {
        return assembled, None, e;
      }
      res, err := data, None;
    }
  }

  /** `SendDiceService`: a GET request to `/sendDice`. */
  class SendDiceService {
    const c: Client
    var chatID: Option<int64>
    var messageThreadID: Option<int64>
    var emoji: Option<string>
    var disableNotification: Option<bool>
    var protectContent: Option<bool>
    var replyToMessageID: Option<int64>
    var allowSendingWithoutReply: Option<bool>
    var inlineKeyboardMarkup: Option<string>
    var replyKeyboardMarkup: Option<string>
    var replyKeyboardRemove: Option<string>
    var forceReply: Option<string>

    /** `NewSendDiceService`: every field starts out unset. */
    constructor (c: Client)
      ensures this.c == c
      ensures chatID == None && messageThreadID == None && emoji == None
      ensures disableNotification == None && protectContent == None && replyToMessageID == None
      ensures allowSendingWithoutReply == None && inlineKeyboardMarkup == None && replyKeyboardMarkup == None
      ensures replyKeyboardRemove == None && forceReply == None
    {
      this.c := c;
      chatID := None;
      messageThreadID := None;
      emoji := None;
      disableNotification := None;
      protectContent := None;
      replyToMessageID := None;
      allowSendingWithoutReply := None;
      inlineKeyboardMarkup := None;
      replyKeyboardMarkup := None;
      replyKeyboardRemove := None;
      forceReply := None;
    }

    /** `ChatID`: stores its argument in `chatID`. */
    method ChatID(chatID: int64) returns (t: SendDiceService)
      modifies this`chatID
      ensures this.chatID == Some(chatID) && t == this
    {
      this.chatID := Some(chatID);
      t := this;
    }

    /** `MessageThreadID`: stores its argument in `messageThreadID`. */
    method MessageThreadID(messageThreadID: int64) returns (t: SendDiceService)
      modifies this`messageThreadID
      ensures this.messageThreadID == Some(messageThreadID) && t == this
    {
      this.messageThreadID := Some(messageThreadID);
      t := this;
    }

    /** `Emoji`: stores its argument in `emoji`. */
    method Emoji(emoji: string) returns (t: SendDiceService)
      modifies this`emoji
      ensures this.emoji == Some(emoji) && t == this
    {
      this.emoji := Some(emoji);
      t := this;
    }

    /** `DisableNotification`: stores its argument in `disableNotification`. */
    method DisableNotification(disableNotification: bool) returns (t: SendDiceService)
      modifies this`disableNotification
      ensures this.disableNotification == Some(disableNotification) && t == this
    {
      this.disableNotification := Some(disableNotification);
      t := this;
    }

    /** `ProtectContent`: stores its argument in `protectContent`. */
    method ProtectContent(protectContent: bool) returns (t: SendDiceService)
      modifies this`protectContent
      ensures this.protectContent == Some(protectContent) && t == this
    {
      this.protectContent := Some(protectContent);
      t := this;
    }

    /** `ReplyToMessageID`: stores its argument in `replyToMessageID`. */
    method ReplyToMessageID(replyToMessageID: int64) returns (t: SendDiceService)
      modifies this`replyToMessageID
      ensures this.replyToMessageID == Some(replyToMessageID) && t == this
    {
      this.replyToMessageID := Some(replyToMessageID);
      t := this;
    }

    /** `AllowSendingWithoutReply`: stores its argument in `allowSendingWithoutReply`. */
    method AllowSendingWithoutReply(allowSendingWithoutReply: bool) returns (t: SendDiceService)
      modifies this`allowSendingWithoutReply
      ensures this.allowSendingWithoutReply == Some(allowSendingWithoutReply) && t == this
    {
      this.allowSendingWithoutReply := Some(allowSendingWithoutReply);
      t := this;
    }

    /** `InlineKeyboardMarkup`: stores the JSON text of its argument in `inlineKeyboardMarkup`. `marshalled` is what
        `jsoniter.Marshal` makes of the argument, `None` when marshalling fails; then
        nothing changes and the result is nil. */
    method InlineKeyboardMarkup(marshalled: Option<string>) returns (t: SendDiceService?)
      modifies this`inlineKeyboardMarkup
      ensures marshalled.None? ==> t == null && inlineKeyboardMarkup == old(inlineKeyboardMarkup)
      ensures marshalled.Some? ==> t == this && inlineKeyboardMarkup == marshalled
    {
      if marshalled.None? {
        return null;
      }
      inlineKeyboardMarkup := marshalled;
      t := this;
    }

    /** `ReplyKeyboardMarkup`: stores the JSON text of its argument in `replyKeyboardMarkup`. `marshalled` is what
        `jsoniter.Marshal` makes of the argument, `None` when marshalling fails; then
        nothing changes and the result is nil. */
    method ReplyKeyboardMarkup(marshalled: Option<string>) returns (t: SendDiceService?)
      modifies this`replyKeyboardMarkup
      ensures marshalled.None? ==> t == null && replyKeyboardMarkup == old(replyKeyboardMarkup)
      ensures marshalled.Some? ==> t == this && replyKeyboardMarkup == marshalled
    {
      if marshalled.None? {
        return null;
      }
      replyKeyboardMarkup := marshalled;
      t := this;
    }

    /** `ReplyKeyboardRemove`: stores the JSON text of its argument in `replyKeyboardRemove`. `marshalled` is what
        `jsoniter.Marshal` makes of the argument, `None` when marshalling fails; then
        nothing changes and the result is nil. */
    method ReplyKeyboardRemove(marshalled: Option<string>) returns (t: SendDiceService?)
      modifies this`replyKeyboardRemove
      ensures marshalled.None? ==> t == null && replyKeyboardRemove == old(replyKeyboardRemove)
      ensures marshalled.Some? ==> t == this && replyKeyboardRemove == marshalled
    {
      if marshalled.None? {
        return null;
      }
      replyKeyboardRemove := marshalled;
      t := this;
    }

    /** `ForceReply`: stores the JSON text of its argument in `forceReply`. `marshalled` is what
        `jsoniter.Marshal` makes of the argument, `None` when marshalling fails; then
        nothing changes and the result is nil. */
    method ForceReply(marshalled: Option<string>) returns (t: SendDiceService?)
      modifies this`forceReply
      ensures marshalled.None? ==> t == null && forceReply == old(forceReply)
      ensures marshalled.Some? ==> t == this && forceReply == marshalled
    {
      if marshalled.None? {
        return null;
      }
      forceReply := marshalled;
      t := this;
    }

    /** The `setParam` calls `Do` makes, in order; a call that is skipped because its
        field is unset has value `None`. */
    ghost function Plan(): Writes
      reads this
    {
      var w1 := Then(NoWrites, "chat_id", IntOpt(chatID));
      var w2 := Then(w1, "message_thread_id", IntOpt(messageThreadID));
      var w3 := Then(w2, "emoji", StrOpt(emoji));
      var w4 := Then(w3, "disable_notification", BoolOpt(disableNotification));
      var w5 := Then(w4, "protect_content", BoolOpt(protectContent));
      var w6 := Then(w5, "reply_to_message_id", IntOpt(replyToMessageID));
      var w7 := Then(w6, "allow_sending_without_reply", BoolOpt(allowSendingWithoutReply));
      var w8 := Then(w7, "reply_markup", StrOpt(inlineKeyboardMarkup));
      var w9 := Then(w8, "reply_markup", StrOpt(replyKeyboardMarkup));
      var w10 := Then(w9, "reply_markup", StrOpt(replyKeyboardRemove));
      var w11 := Then(w10, "reply_markup", StrOpt(forceReply));
      w11
    }

    /** The value the calls leave at `chat_id`. */
    lemma PlanChatID()
      ensures HoldsIfSet(OrEmpty(Written(Plan())), "chat_id", IntOpt(chatID))
    {
      var w0 := NoWrites;
      var w1 := Then(w0, "chat_id", IntOpt(chatID));
      var w2 := Then(w1, "message_thread_id", IntOpt(messageThreadID));
      var w3 := Then(w2, "emoji", StrOpt(emoji));
      var w4 := Then(w3, "disable_notification", BoolOpt(disableNotification));
      var w5 := Then(w4, "protect_content", BoolOpt(protectContent));
      var w6 := Then(w5, "reply_to_message_id", IntOpt(replyToMessageID));
      var w7 := Then(w6, "allow_sending_without_reply", BoolOpt(allowSendingWithoutReply));
      var w8 := Then(w7, "reply_markup", StrOpt(inlineKeyboardMarkup));
      var w9 := Then(w8, "reply_markup", StrOpt(replyKeyboardMarkup));
      var w10 := Then(w9, "reply_markup", StrOpt(replyKeyboardRemove));
      var w11 := Then(w10, "reply_markup", StrOpt(forceReply));
      LastSetOther(w1, "message_thread_id", IntOpt(messageThreadID), "chat_id");
      LastSetOther(w2, "emoji", StrOpt(emoji), "chat_id");
      LastSetOther(w3, "disable_notification", BoolOpt(disableNotification), "chat_id");
      LastSetOther(w4, "protect_content", BoolOpt(protectContent), "chat_id");
      LastSetOther(w5, "reply_to_message_id", IntOpt(replyToMessageID), "chat_id");
      LastSetOther(w6, "allow_sending_without_reply", BoolOpt(allowSendingWithoutReply), "chat_id");
      LastSetOther(w7, "reply_markup", StrOpt(inlineKeyboardMarkup), "chat_id");
      LastSetOther(w8, "reply_markup", StrOpt(replyKeyboardMarkup), "chat_id");
      LastSetOther(w9, "reply_markup", StrOpt(replyKeyboardRemove), "chat_id");
      LastSetOther(w10, "reply_markup", StrOpt(forceReply), "chat_id");
      WrittenLastSet(w11, "chat_id");
    }

    /** The value the calls leave at `message_thread_id`. */
    lemma PlanMessageThreadID()
      ensures HoldsIfSet(OrEmpty(Written(Plan())), "message_thread_id", IntOpt(messageThreadID))
    {
      var w0 := NoWrites;
      var w1 := Then(w0, "chat_id", IntOpt(chatID));
      var w2 := Then(w1, "message_thread_id", IntOpt(messageThreadID));
      var w3 := Then(w2, "emoji", StrOpt(emoji));
      var w4 := Then(w3, "disable_notification", BoolOpt(disableNotification));
      var w5 := Then(w4, "protect_content", BoolOpt(protectContent));
      var w6 := Then(w5, "reply_to_message_id", IntOpt(replyToMessageID));
      var w7 := Then(w6, "allow_sending_without_reply", BoolOpt(allowSendingWithoutReply));
      var w8 := Then(w7, "reply_markup", StrOpt(inlineKeyboardMarkup));
      var w9 := Then(w8, "reply_markup", StrOpt(replyKeyboardMarkup));
      var w10 := Then(w9, "reply_markup", StrOpt(replyKeyboardRemove));
      var w11 := Then(w10, "reply_markup", StrOpt(forceReply));
      LastSetOther(w0, "chat_id", IntOpt(chatID), "message_thread_id");
      LastSetOther(w2, "emoji", StrOpt(emoji), "message_thread_id");
      LastSetOther(w3, "disable_notification", BoolOpt(disableNotification), "message_thread_id");
      LastSetOther(w4, "protect_content", BoolOpt(protectContent), "message_thread_id");
      LastSetOther(w5, "reply_to_message_id", IntOpt(replyToMessageID), "message_thread_id");
      LastSetOther(w6, "allow_sending_without_reply", BoolOpt(allowSendingWithoutReply), "message_thread_id");
      LastSetOther(w7, "reply_markup", StrOpt(inlineKeyboardMarkup), "message_thread_id");
      LastSetOther(w8, "reply_markup", StrOpt(replyKeyboardMarkup), "message_thread_id");
      LastSetOther(w9, "reply_markup", StrOpt(replyKeyboardRemove), "message_thread_id");
      LastSetOther(w10, "reply_markup", StrOpt(forceReply), "message_thread_id");
      WrittenLastSet(w11, "message_thread_id");
    }

    /** The value the calls leave at `emoji`. */
    lemma PlanEmoji()
      ensures HoldsIfSet(OrEmpty(Written(Plan())), "emoji", StrOpt(emoji))
    {
      var w0 := NoWrites;
      var w1 := Then(w0, "chat_id", IntOpt(chatID));
      var w2 := Then(w1, "message_thread_id", IntOpt(messageThreadID));
      var w3 := Then(w2, "emoji", StrOpt(emoji));
      var w4 := Then(w3, "disable_notification", BoolOpt(disableNotification));
      var w5 := Then(w4, "protect_content", BoolOpt(protectContent));
      var w6 := Then(w5, "reply_to_message_id", IntOpt(replyToMessageID));
      var w7 := Then(w6, "allow_sending_without_reply", BoolOpt(allowSendingWithoutReply));
      var w8 := Then(w7, "reply_markup", StrOpt(inlineKeyboardMarkup));
      var w9 := Then(w8, "reply_markup", StrOpt(replyKeyboardMarkup));
      var w10 := Then(w9, "reply_markup", StrOpt(replyKeyboardRemove));
      var w11 := Then(w10, "reply_markup", StrOpt(forceReply));
      LastSetOther(w0, "chat_id", IntOpt(chatID), "emoji");
      LastSetOther(w1, "message_thread_id", IntOpt(messageThreadID), "emoji");
      LastSetOther(w3, "disable_notification", BoolOpt(disableNotification), "emoji");
      LastSetOther(w4, "protect_content", BoolOpt(protectContent), "emoji");
      LastSetOther(w5, "reply_to_message_id", IntOpt(replyToMessageID), "emoji");
      LastSetOther(w6, "allow_sending_without_reply", BoolOpt(allowSendingWithoutReply), "emoji");
      LastSetOther(w7, "reply_markup", StrOpt(inlineKeyboardMarkup), "emoji");
      LastSetOther(w8, "reply_markup", StrOpt(replyKeyboardMarkup), "emoji");
      LastSetOther(w9, "reply_markup", StrOpt(replyKeyboardRemove), "emoji");
      LastSetOther(w10, "reply_markup", StrOpt(forceReply), "emoji");
      WrittenLastSet(w11, "emoji");
    }

    /** The value the calls leave at `disable_notification`. */
    lemma PlanDisableNotification()
      ensures HoldsIfSet(OrEmpty(Written(Plan())), "disable_notification", BoolOpt(disableNotification))
    {
      var w0 := NoWrites;
      var w1 := Then(w0, "chat_id", IntOpt(chatID));
      var w2 := Then(w1, "message_thread_id", IntOpt(messageThreadID));
      var w3 := Then(w2, "emoji", StrOpt(emoji));
      var w4 := Then(w3, "disable_notification", BoolOpt(disableNotification));
      var w5 := Then(w4, "protect_content", BoolOpt(protectContent));
      var w6 := Then(w5, "reply_to_message_id", IntOpt(replyToMessageID));
      var w7 := Then(w6, "allow_sending_without_reply", BoolOpt(allowSendingWithoutReply));
      var w8 := Then(w7, "reply_markup", StrOpt(inlineKeyboardMarkup));
      var w9 := Then(w8, "reply_markup", StrOpt(replyKeyboardMarkup));
      var w10 := Then(w9, "reply_markup", StrOpt(replyKeyboardRemove));
      var w11 := Then(w10, "reply_markup", StrOpt(forceReply));
      LastSetOther(w0, "chat_id", IntOpt(chatID), "disable_notification");
      LastSetOther(w1, "message_thread_id", IntOpt(messageThreadID), "disable_notification");
      LastSetOther(w2, "emoji", StrOpt(emoji), "disable_notification");
      LastSetOther(w4, "protect_content", BoolOpt(protectContent), "disable_notification");
      LastSetOther(w5, "reply_to_message_id", IntOpt(replyToMessageID), "disable_notification");
      LastSetOther(w6, "allow_sending_without_reply", BoolOpt(allowSendingWithoutReply), "disable_notification");
      LastSetOther(w7, "reply_markup", StrOpt(inlineKeyboardMarkup), "disable_notification");
      LastSetOther(w8, "reply_markup", StrOpt(replyKeyboardMarkup), "disable_notification");
      LastSetOther(w9, "reply_markup", StrOpt(replyKeyboardRemove), "disable_notification");
      LastSetOther(w10, "reply_markup", StrOpt(forceReply), "disable_notification");
      WrittenLastSet(w11, "disable_notification");
    }

    /** The value the calls leave at `protect_content`. */
    lemma PlanProtectContent()
      ensures HoldsIfSet(OrEmpty(Written(Plan())), "protect_content", BoolOpt(protectContent))
    {
      var w0 := NoWrites;
      var w1 := Then(w0, "chat_id", IntOpt(chatID));
      var w2 := Then(w1, "message_thread_id", IntOpt(messageThreadID));
      var w3 := Then(w2, "emoji", StrOpt(emoji));
      var w4 := Then(w3, "disable_notification", BoolOpt(disableNotification));
      var w5 := Then(w4, "protect_content", BoolOpt(protectContent));
      var w6 := Then(w5, "reply_to_message_id", IntOpt(replyToMessageID));
      var w7 := Then(w6, "allow_sending_without_reply", BoolOpt(allowSendingWithoutReply));
      var w8 := Then(w7, "reply_markup", StrOpt(inlineKeyboardMarkup));
      var w9 := Then(w8, "reply_markup", StrOpt(replyKeyboardMarkup));
      var w10 := Then(w9, "reply_markup", StrOpt(replyKeyboardRemove));
      var w11 := Then(w10, "reply_markup", StrOpt(forceReply));
      LastSetOther(w0, "chat_id", IntOpt(chatID), "protect_content");
      LastSetOther(w1, "message_thread_id", IntOpt(messageThreadID), "protect_content");
      LastSetOther(w2, "emoji", StrOpt(emoji), "protect_content");
      LastSetOther(w3, "disable_notification", BoolOpt(disableNotification), "protect_content");
      LastSetOther(w5, "reply_to_message_id", IntOpt(replyToMessageID), "protect_content");
      LastSetOther(w6, "allow_sending_without_reply", BoolOpt(allowSendingWithoutReply), "protect_content");
      LastSetOther(w7, "reply_markup", StrOpt(inlineKeyboardMarkup), "protect_content");
      LastSetOther(w8, "reply_markup", StrOpt(replyKeyboardMarkup), "protect_content");
      LastSetOther(w9, "reply_markup", StrOpt(replyKeyboardRemove), "protect_content");
      LastSetOther(w10, "reply_markup", StrOpt(forceReply), "protect_content");
      WrittenLastSet(w11, "protect_content");
    }

    /** The value the calls leave at `reply_to_message_id`. */
    lemma PlanReplyToMessageID()
      ensures HoldsIfSet(OrEmpty(Written(Plan())), "reply_to_message_id", IntOpt(replyToMessageID))
    {
      var w0 := NoWrites;
      var w1 := Then(w0, "chat_id", IntOpt(chatID));
      var w2 := Then(w1, "message_thread_id", IntOpt(messageThreadID));
      var w3 := Then(w2, "emoji", StrOpt(emoji));
      var w4 := Then(w3, "disable_notification", BoolOpt(disableNotification));
      var w5 := Then(w4, "protect_content", BoolOpt(protectContent));
      var w6 := Then(w5, "reply_to_message_id", IntOpt(replyToMessageID));
      var w7 := Then(w6, "allow_sending_without_reply", BoolOpt(allowSendingWithoutReply));
      var w8 := Then(w7, "reply_markup", StrOpt(inlineKeyboardMarkup));
      var w9 := Then(w8, "reply_markup", StrOpt(replyKeyboardMarkup));
      var w10 := Then(w9, "reply_markup", StrOpt(replyKeyboardRemove));
      var w11 := Then(w10, "reply_markup", StrOpt(forceReply));
      LastSetOther(w0, "chat_id", IntOpt(chatID), "reply_to_message_id");
      LastSetOther(w1, "message_thread_id", IntOpt(messageThreadID), "reply_to_message_id");
      LastSetOther(w2, "emoji", StrOpt(emoji), "reply_to_message_id");
      LastSetOther(w3, "disable_notification", BoolOpt(disableNotification), "reply_to_message_id");
      LastSetOther(w4, "protect_content", BoolOpt(protectContent), "reply_to_message_id");
      LastSetOther(w6, "allow_sending_without_reply", BoolOpt(allowSendingWithoutReply), "reply_to_message_id");
      LastSetOther(w7, "reply_markup", StrOpt(inlineKeyboardMarkup), "reply_to_message_id");
      LastSetOther(w8, "reply_markup", StrOpt(replyKeyboardMarkup), "reply_to_message_id");
      LastSetOther(w9, "reply_markup", StrOpt(replyKeyboardRemove), "reply_to_message_id");
      LastSetOther(w10, "reply_markup", StrOpt(forceReply), "reply_to_message_id");
      WrittenLastSet(w11, "reply_to_message_id");
    }

    /** The value the calls leave at `allow_sending_without_reply`. */
    lemma PlanAllowSendingWithoutReply()
      ensures HoldsIfSet(OrEmpty(Written(Plan())), "allow_sending_without_reply", BoolOpt(allowSendingWithoutReply))
    {
      var w0 := NoWrites;
      var w1 := Then(w0, "chat_id", IntOpt(chatID));
      var w2 := Then(w1, "message_thread_id", IntOpt(messageThreadID));
      var w3 := Then(w2, "emoji", StrOpt(emoji));
      var w4 := Then(w3, "disable_notification", BoolOpt(disableNotification));
      var w5 := Then(w4, "protect_content", BoolOpt(protectContent));
      var w6 := Then(w5, "reply_to_message_id", IntOpt(replyToMessageID));
      var w7 := Then(w6, "allow_sending_without_reply", BoolOpt(allowSendingWithoutReply));
      var w8 := Then(w7, "reply_markup", StrOpt(inlineKeyboardMarkup));
      var w9 := Then(w8, "reply_markup", StrOpt(replyKeyboardMarkup));
      var w10 := Then(w9, "reply_markup", StrOpt(replyKeyboardRemove));
      var w11 := Then(w10, "reply_markup", StrOpt(forceReply));
      LastSetOther(w0, "chat_id", IntOpt(chatID), "allow_sending_without_reply");
      LastSetOther(w1, "message_thread_id", IntOpt(messageThreadID), "allow_sending_without_reply");
      LastSetOther(w2, "emoji", StrOpt(emoji), "allow_sending_without_reply");
      LastSetOther(w3, "disable_notification", BoolOpt(disableNotification), "allow_sending_without_reply");
      LastSetOther(w4, "protect_content", BoolOpt(protectContent), "allow_sending_without_reply");
      LastSetOther(w5, "reply_to_message_id", IntOpt(replyToMessageID), "allow_sending_without_reply");
      LastSetOther(w7, "reply_markup", StrOpt(inlineKeyboardMarkup), "allow_sending_without_reply");
      LastSetOther(w8, "reply_markup", StrOpt(replyKeyboardMarkup), "allow_sending_without_reply");
      LastSetOther(w9, "reply_markup", StrOpt(replyKeyboardRemove), "allow_sending_without_reply");
      LastSetOther(w10, "reply_markup", StrOpt(forceReply), "allow_sending_without_reply");
      WrittenLastSet(w11, "allow_sending_without_reply");
    }

    /** The value the calls leave at `reply_markup`: the last one set. */
    lemma PlanReplyMarkup()
      ensures HoldsIfSet(OrEmpty(Written(Plan())), "reply_markup", Later(Later(Later(StrOpt(inlineKeyboardMarkup), StrOpt(replyKeyboardMarkup)), StrOpt(replyKeyboardRemove)), StrOpt(forceReply)))
    {
      var w0 := NoWrites;
      var w1 := Then(w0, "chat_id", IntOpt(chatID));
      var w2 := Then(w1, "message_thread_id", IntOpt(messageThreadID));
      var w3 := Then(w2, "emoji", StrOpt(emoji));
      var w4 := Then(w3, "disable_notification", BoolOpt(disableNotification));
      var w5 := Then(w4, "protect_content", BoolOpt(protectContent));
      var w6 := Then(w5, "reply_to_message_id", IntOpt(replyToMessageID));
      var w7 := Then(w6, "allow_sending_without_reply", BoolOpt(allowSendingWithoutReply));
      var w8 := Then(w7, "reply_markup", StrOpt(inlineKeyboardMarkup));
      var w9 := Then(w8, "reply_markup", StrOpt(replyKeyboardMarkup));
      var w10 := Then(w9, "reply_markup", StrOpt(replyKeyboardRemove));
      var w11 := Then(w10, "reply_markup", StrOpt(forceReply));
      LastSetOther(w0, "chat_id", IntOpt(chatID), "reply_markup");
      LastSetOther(w1, "message_thread_id", IntOpt(messageThreadID), "reply_markup");
      LastSetOther(w2, "emoji", StrOpt(emoji), "reply_markup");
      LastSetOther(w3, "disable_notification", BoolOpt(disableNotification), "reply_markup");
      LastSetOther(w4, "protect_content", BoolOpt(protectContent), "reply_markup");
      LastSetOther(w5, "reply_to_message_id", IntOpt(replyToMessageID), "reply_markup");
      LastSetOther(w6, "allow_sending_without_reply", BoolOpt(allowSendingWithoutReply), "reply_markup");
      LastSetSame(w7, "reply_markup", StrOpt(inlineKeyboardMarkup));
      LastSetSame(w8, "reply_markup", StrOpt(replyKeyboardMarkup));
      LastSetSame(w9, "reply_markup", StrOpt(replyKeyboardRemove));
      LastSetSame(w10, "reply_markup", StrOpt(forceReply));
      WrittenLastSet(w11, "reply_markup");
    }

    /** The calls write no key but these. */
    lemma PlanOnly()
      ensures OrEmpty(Written(Plan())).Keys <= {"chat_id", "message_thread_id", "emoji", "disable_notification", "protect_content", "reply_to_message_id", "allow_sending_without_reply", "reply_markup"}
    {
      var w0 := NoWrites;
      var w1 := Then(w0, "chat_id", IntOpt(chatID));
      var w2 := Then(w1, "message_thread_id", IntOpt(messageThreadID));
      var w3 := Then(w2, "emoji", StrOpt(emoji));
      var w4 := Then(w3, "disable_notification", BoolOpt(disableNotification));
      var w5 := Then(w4, "protect_content", BoolOpt(protectContent));
      var w6 := Then(w5, "reply_to_message_id", IntOpt(replyToMessageID));
      var w7 := Then(w6, "allow_sending_without_reply", BoolOpt(allowSendingWithoutReply));
      var w8 := Then(w7, "reply_markup", StrOpt(inlineKeyboardMarkup));
      var w9 := Then(w8, "reply_markup", StrOpt(replyKeyboardMarkup));
      var w10 := Then(w9, "reply_markup", StrOpt(replyKeyboardRemove));
      var w11 := Then(w10, "reply_markup", StrOpt(forceReply));
      forall j | j !in {"chat_id", "message_thread_id", "emoji", "disable_notification", "protect_content", "reply_to_message_id", "allow_sending_without_reply", "reply_markup"}
        ensures j !in OrEmpty(Written(w11))
      {
        LastSetOther(w0, "chat_id", IntOpt(chatID), j);
        LastSetOther(w1, "message_thread_id", IntOpt(messageThreadID), j);
        LastSetOther(w2, "emoji", StrOpt(emoji), j);
        LastSetOther(w3, "disable_notification", BoolOpt(disableNotification), j);
        LastSetOther(w4, "protect_content", BoolOpt(protectContent), j);
        LastSetOther(w5, "reply_to_message_id", IntOpt(replyToMessageID), j);
        LastSetOther(w6, "allow_sending_without_reply", BoolOpt(allowSendingWithoutReply), j);
        LastSetOther(w7, "reply_markup", StrOpt(inlineKeyboardMarkup), j);
        LastSetOther(w8, "reply_markup", StrOpt(replyKeyboardMarkup), j);
        LastSetOther(w9, "reply_markup", StrOpt(replyKeyboardRemove), j);
        LastSetOther(w10, "reply_markup", StrOpt(forceReply), j);
        WrittenLastSet(w11, j);
      }
    }

    /** The request `Do` builds before it calls the API: the endpoint, and a query made
        by the `setParam` calls of `Plan`. */
    method Assemble() returns (r: Request)
      ensures fresh(r)
      ensures r.Fields() == RequestFields(MethodGet, "/sendDice", Written(Plan()), None, None, None, "", [])
    {
      r := new Request(MethodGet, "/sendDice");
      ghost var done := NoWrites;
      var _ := r.SetParamIfSet("chat_id", IntOpt(chatID), done);
      done := Then(done, "chat_id", IntOpt(chatID));
      var _ := r.SetParamIfSet("message_thread_id", IntOpt(messageThreadID), done);
      done := Then(done, "message_thread_id", IntOpt(messageThreadID));
      var _ := r.SetParamIfSet("emoji", StrOpt(emoji), done);
      done := Then(done, "emoji", StrOpt(emoji));
      var _ := r.SetParamIfSet("disable_notification", BoolOpt(disableNotification), done);
      done := Then(done, "disable_notification", BoolOpt(disableNotification));
      var _ := r.SetParamIfSet("protect_content", BoolOpt(protectContent), done);
      done := Then(done, "protect_content", BoolOpt(protectContent));
      var _ := r.SetParamIfSet("reply_to_message_id", IntOpt(replyToMessageID), done);
      done := Then(done, "reply_to_message_id", IntOpt(replyToMessageID));
      var _ := r.SetParamIfSet("allow_sending_without_reply", BoolOpt(allowSendingWithoutReply), done);
      done := Then(done, "allow_sending_without_reply", BoolOpt(allowSendingWithoutReply));
      var _ := r.SetParamIfSet("reply_markup", StrOpt(inlineKeyboardMarkup), done);
      done := Then(done, "reply_markup", StrOpt(inlineKeyboardMarkup));
      var _ := r.SetParamIfSet("reply_markup", StrOpt(replyKeyboardMarkup), done);
      done := Then(done, "reply_markup", StrOpt(replyKeyboardMarkup));
      var _ := r.SetParamIfSet("reply_markup", StrOpt(replyKeyboardRemove), done);
      done := Then(done, "reply_markup", StrOpt(replyKeyboardRemove));
      var _ := r.SetParamIfSet("reply_markup", StrOpt(forceReply), done);
      done := Then(done, "reply_markup", StrOpt(forceReply));
      assert done == Plan();
    }

    /** `Do`: Always sets `chat_id`; sets each of the other keys only when its field is set; then calls the API. */
    method Do(opts: seq<RequestOption>) returns (assembled: RequestFields, res: Option<Bytes>, err: Option<Error>)
      requires chatID.Some?
      ensures assembled.httpMethod == MethodGet && assembled.endpoint == "/sendDice"
      ensures assembled.form == None && assembled.header == None && assembled.body == None
      ensures assembled.fullURL == "" && assembled.json == []
      ensures Holds(Q(assembled), "chat_id", Int(chatID.value as int))
      ensures HoldsIfSet(Q(assembled), "message_thread_id", IntOpt(messageThreadID))
      ensures HoldsIfSet(Q(assembled), "emoji", StrOpt(emoji))
      ensures HoldsIfSet(Q(assembled), "disable_notification", BoolOpt(disableNotification))
      ensures HoldsIfSet(Q(assembled), "protect_content", BoolOpt(protectContent))
      ensures HoldsIfSet(Q(assembled), "reply_to_message_id", IntOpt(replyToMessageID))
      ensures HoldsIfSet(Q(assembled), "allow_sending_without_reply", BoolOpt(allowSendingWithoutReply))
      ensures HoldsIfSet(Q(assembled), "reply_markup", Later(Later(Later(StrOpt(inlineKeyboardMarkup), StrOpt(replyKeyboardMarkup)), StrOpt(replyKeyboardRemove)), StrOpt(forceReply)))
      ensures Q(assembled).Keys <= {"chat_id", "message_thread_id", "emoji", "disable_notification", "protect_content", "reply_to_message_id", "allow_sending_without_reply", "reply_markup"}
      ensures var o := c.Outcome(assembled, opts);
        err == o.1 && res == (if o.1.Some? then None else o.0)
    {
      var r := Assemble();
      assembled := r.Fields();
      var data, e := c.CallAPI(r, opts);
      PlanOnly();
      PlanChatID();
      PlanMessageThreadID();
      PlanEmoji();
      PlanDisableNotification();
      PlanProtectContent();
      PlanReplyToMessageID();
      PlanAllowSendingWithoutReply();
      PlanReplyMarkup();
      if e.Some? {
        return assembled, None, e;
      }
      res, err := data, None;
    }
  }

  /** `SendChatActionService`: a GET request to `/sendChatAction`. */
  class SendChatActionService {
    const c: Client
    var chatID: Option<int64>
    var messageThreadID: Option<int64>
    var action: Option<string>

    /** `NewSendChatActionService`: every field starts out unset. */
    constructor (c: Client)
      ensures this.c == c
      ensures chatID == None && messageThreadID == None && action == None
    {
      this.c := c;
      chatID := None;
      messageThreadID := None;
      action := None;
    }

    /** `ChatID`: stores its argument in `chatID`. */
    method ChatID(chatID: int64) returns (t: SendChatActionService)
      modifies this`chatID
      ensures this.chatID == Some(chatID) && t == this
    {
      this.chatID := Some(chatID);
      t := this;
    }

    /** `MessageThreadID`: stores its argument in `messageThreadID`. */
    method MessageThreadID(messageThreadID: int64) returns (t: SendChatActionService)
      modifies this`messageThreadID
      ensures this.messageThreadID == Some(messageThreadID) && t == this
    {
      this.messageThreadID := Some(messageThreadID);
      t := this;
    }

    /** `Action`: stores its argument in `action`. */
    method Action(action: string) returns (t: SendChatActionService)
      modifies this`action
      ensures this.action == Some(action) && t == this
    {
      this.action := Some(action);
      t := this;
    }

    /** The `setParam` calls `Do` makes, in order; a call that is skipped because its
        field is unset has value `None`. */
    ghost function Plan(): Writes
      reads this
    {
      var w1 := Then(NoWrites, "chat_id", IntOpt(chatID));
      var w2 := Then(w1, "action", StrOpt(action));
      var w3 := Then(w2, "message_thread_id", IntOpt(messageThreadID));
      w3
    }

    /** The value the calls leave at `chat_id`. */
    lemma PlanChatID()
      ensures HoldsIfSet(OrEmpty(Written(Plan())), "chat_id", IntOpt(chatID))
    {
      var w0 := NoWrites;
      var w1 := Then(w0, "chat_id", IntOpt(chatID));
      var w2 := Then(w1, "action", StrOpt(action));
      var w3 := Then(w2, "message_thread_id", IntOpt(messageThreadID));
      LastSetOther(w1, "action", StrOpt(action), "chat_id");
      LastSetOther(w2, "message_thread_id", IntOpt(messageThreadID), "chat_id");
      WrittenLastSet(w3, "chat_id");
    }

    /** The value the calls leave at `action`. */
    lemma PlanAction()
      ensures HoldsIfSet(OrEmpty(Written(Plan())), "action", StrOpt(action))
    {
      var w0 := NoWrites;
      var w1 := Then(w0, "chat_id", IntOpt(chatID));
      var w2 := Then(w1, "action", StrOpt(action));
      var w3 := Then(w2, "message_thread_id", IntOpt(messageThreadID));
      LastSetOther(w0, "chat_id", IntOpt(chatID), "action");
      LastSetOther(w2, "message_thread_id", IntOpt(messageThreadID), "action");
      WrittenLastSet(w3, "action");
    }

    /** The value the calls leave at `message_thread_id`. */
    lemma PlanMessageThreadID()
      ensures HoldsIfSet(OrEmpty(Written(Plan())), "message_thread_id", IntOpt(messageThreadID))
    {
      var w0 := NoWrites;
      var w1 := Then(w0, "chat_id", IntOpt(chatID));
      var w2 := Then(w1, "action", StrOpt(action));
      var w3 := Then(w2, "message_thread_id", IntOpt(messageThreadID));
      LastSetOther(w0, "chat_id", IntOpt(chatID), "message_thread_id");
      LastSetOther(w1, "action", StrOpt(action), "message_thread_id");
      WrittenLastSet(w3, "message_thread_id");
    }

    /** The calls write no key but these. */
    lemma PlanOnly()
      ensures OrEmpty(Written(Plan())).Keys <= {"chat_id", "action", "message_thread_id"}
    {
      var w0 := NoWrites;
      var w1 := Then(w0, "chat_id", IntOpt(chatID));
      var w2 := Then(w1, "action", StrOpt(action));
      var w3 := Then(w2, "message_thread_id", IntOpt(messageThreadID));
      forall j | j !in {"chat_id", "action", "message_thread_id"}
        ensures j !in OrEmpty(Written(w3))
      {
        LastSetOther(w0, "chat_id", IntOpt(chatID), j);
        LastSetOther(w1, "action", StrOpt(action), j);
        LastSetOther(w2, "message_thread_id", IntOpt(messageThreadID), j);
        WrittenLastSet(w3, j);
      }
    }

    /** The request `Do` builds before it calls the API: the endpoint, and a query made
        by the `setParam` calls of `Plan`. */
    method Assemble() returns (r: Request)
      ensures fresh(r)
      ensures r.Fields() == RequestFields(MethodGet, "/sendChatAction", Written(Plan()), None, None, None, "", [])
    {
      r := new Request(MethodGet, "/sendChatAction");
      ghost var done := NoWrites;
      var _ := r.SetParamIfSet("chat_id", IntOpt(chatID), done);
      done := Then(done, "chat_id", IntOpt(chatID));
      var _ := r.SetParamIfSet("action", StrOpt(action), done);
      done := Then(done, "action", StrOpt(action));
      var _ := r.SetParamIfSet("message_thread_id", IntOpt(messageThreadID), done);
      done := Then(done, "message_thread_id", IntOpt(messageThreadID));
      assert done == Plan();
    }

    /** `Do`: Always sets `chat_id`, `action`; sets each of the other keys only when its field is set; then calls the API. */
    method Do(opts: seq<RequestOption>) returns (assembled: RequestFields, res: Option<Bytes>, err: Option<Error>)
      requires chatID.Some? && action.Some?
      ensures assembled.httpMethod == MethodGet && assembled.endpoint == "/sendChatAction"
      ensures assembled.form == None && assembled.header == None && assembled.body == None
      ensures assembled.fullURL == "" && assembled.json == []
      ensures Holds(Q(assembled), "chat_id", Int(chatID.value as int))
      ensures Holds(Q(assembled), "action", Str(action.value))
      ensures HoldsIfSet(Q(assembled), "message_thread_id", IntOpt(messageThreadID))
      ensures Q(assembled).Keys <= {"chat_id", "action", "message_thread_id"}
      ensures var o := c.Outcome(assembled, opts);
        err == o.1 && res == (if o.1.Some? then None else o.0)
    {
      var r := Assemble();
      assembled := r.Fields();
      var data, e := c.CallAPI(r, opts);
      PlanOnly();
      PlanChatID();
      PlanAction();
      PlanMessageThreadID();
      if e.Some? {
        return assembled, None, e;
      }
      res, err := data, None;
    }
  }
}
