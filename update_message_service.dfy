/** The message-editing builders (update_message_service.go). */
module UpdateMessageService {
  import opened Values
  import opened Common
  import opened Requests
  import opened Clients

  /** `EditMessageReplyMarkupService`: a GET request to `/editMessageReplyMarkup`. */
  class EditMessageReplyMarkupService {
    const c: Client
    var chatID: Option<int64>
    var messageID: Option<int64>
    var inlineMessageID: Option<string>
    var replyMarkup: Option<string>

    /** `NewEditMessageReplyMarkupService`: every field starts out unset. */
    constructor (c: Client)
      ensures this.c == c
      ensures chatID == None && messageID == None && inlineMessageID == None
      ensures replyMarkup == None
    {
      this.c := c;
      chatID := None;
      messageID := None;
      inlineMessageID := None;
      replyMarkup := None;
    }

    /** `ChatID`: stores its argument in `chatID`. */
    method ChatID(chatID: int64) returns (t: EditMessageReplyMarkupService)
      modifies this`chatID
      ensures this.chatID == Some(chatID) && t == this
    {
      this.chatID := Some(chatID);
      t := this;
    }

    /** `MessageID`: stores its argument in `messageID`. */
    method MessageID(messageID: int64) returns (t: EditMessageReplyMarkupService)
      modifies this`messageID
      ensures this.messageID == Some(messageID) && t == this
    {
      this.messageID := Some(messageID);
      t := this;
    }

    /** `InlineMessageID`: stores its argument in `inlineMessageID`. */
    method InlineMessageID(inlineMessageID: string) returns (t: EditMessageReplyMarkupService)
      modifies this`inlineMessageID
      ensures this.inlineMessageID == Some(inlineMessageID) && t == this
    {
      this.inlineMessageID := Some(inlineMessageID);
      t := this;
    }

    /** `ReplyMarkup`: stores the JSON text of its argument in `replyMarkup`. `marshalled` is what
        `jsoniter.Marshal` makes of the argument, `None` when marshalling fails; then
        nothing changes and the result is nil. */
    method ReplyMarkup(marshalled: Option<string>) returns (t: EditMessageReplyMarkupService?)
      modifies this`replyMarkup
      ensures marshalled.None? ==> t == null && replyMarkup == old(replyMarkup)
      ensures marshalled.Some? ==> t == this && replyMarkup == marshalled
    {
      if marshalled.None? {
        return null;
      }
      replyMarkup := marshalled;
      t := this;
    }

    /** The `setParam` calls `Do` makes, in order; a call that is skipped because its
        field is unset has value `None`. */
    ghost function Plan(): Writes
      reads this
    {
      var w1 := Then(NoWrites, "chat_id", IntOpt(chatID));
      var w2 := Then(w1, "message_id", IntOpt(messageID));
      var w3 := Then(w2, "inline_message_id", StrOpt(inlineMessageID));
      var w4 := Then(w3, "reply_markup", StrOpt(replyMarkup));
      w4
    }

    /** The value the calls leave at `chat_id`. */
    lemma PlanChatID()
      ensures HoldsIfSet(OrEmpty(Written(Plan())), "chat_id", IntOpt(chatID))
    {
      var w0 := NoWrites;
      var w1 := Then(w0, "chat_id", IntOpt(chatID));
      var w2 := Then(w1, "message_id", IntOpt(messageID));
      var w3 := Then(w2, "inline_message_id", StrOpt(inlineMessageID));
      var w4 := Then(w3, "reply_markup", StrOpt(replyMarkup));
      LastSetOther(w1, "message_id", IntOpt(messageID), "chat_id");
      LastSetOther(w2, "inline_message_id", StrOpt(inlineMessageID), "chat_id");
      LastSetOther(w3, "reply_markup", StrOpt(replyMarkup), "chat_id");
      WrittenLastSet(w4, "chat_id");
    }

    /** The value the calls leave at `message_id`. */
    lemma PlanMessageID()
      ensures HoldsIfSet(OrEmpty(Written(Plan())), "message_id", IntOpt(messageID))
    {
      var w0 := NoWrites;
      var w1 := Then(w0, "chat_id", IntOpt(chatID));
      var w2 := Then(w1, "message_id", IntOpt(messageID));
      var w3 := Then(w2, "inline_message_id", StrOpt(inlineMessageID));
      var w4 := Then(w3, "reply_markup", StrOpt(replyMarkup));
      LastSetOther(w0, "chat_id", IntOpt(chatID), "message_id");
      LastSetOther(w2, "inline_message_id", StrOpt(inlineMessageID), "message_id");
      LastSetOther(w3, "reply_markup", StrOpt(replyMarkup), "message_id");
      WrittenLastSet(w4, "message_id");
    }

    /** The value the calls leave at `inline_message_id`. */
    lemma PlanInlineMessageID()
      ensures HoldsIfSet(OrEmpty(Written(Plan())), "inline_message_id", StrOpt(inlineMessageID))
    {
      var w0 := NoWrites;
      var w1 := Then(w0, "chat_id", IntOpt(chatID));
      var w2 := Then(w1, "message_id", IntOpt(messageID));
      var w3 := Then(w2, "inline_message_id", StrOpt(inlineMessageID));
      var w4 := Then(w3, "reply_markup", StrOpt(replyMarkup));
      LastSetOther(w0, "chat_id", IntOpt(chatID), "inline_message_id");
      LastSetOther(w1, "message_id", IntOpt(messageID), "inline_message_id");
      LastSetOther(w3, "reply_markup", StrOpt(replyMarkup), "inline_message_id");
      WrittenLastSet(w4, "inline_message_id");
    }

    /** The value the calls leave at `reply_markup`. */
    lemma PlanReplyMarkup()
      ensures HoldsIfSet(OrEmpty(Written(Plan())), "reply_markup", StrOpt(replyMarkup))
    {
      var w0 := NoWrites;
      var w1 := Then(w0, "chat_id", IntOpt(chatID));
      var w2 := Then(w1, "message_id", IntOpt(messageID));
      var w3 := Then(w2, "inline_message_id", StrOpt(inlineMessageID));
      var w4 := Then(w3, "reply_markup", StrOpt(replyMarkup));
      LastSetOther(w0, "chat_id", IntOpt(chatID), "reply_markup");
      LastSetOther(w1, "message_id", IntOpt(messageID), "reply_markup");
      LastSetOther(w2, "inline_message_id", StrOpt(inlineMessageID), "reply_markup");
      WrittenLastSet(w4, "reply_markup");
    }

    /** The calls write no key but these. */
    lemma PlanOnly()
      ensures OrEmpty(Written(Plan())).Keys <= {"chat_id", "message_id", "inline_message_id", "reply_markup"}
    {
      var w0 := NoWrites;
      var w1 := Then(w0, "chat_id", IntOpt(chatID));
      var w2 := Then(w1, "message_id", IntOpt(messageID));
      var w3 := Then(w2, "inline_message_id", StrOpt(inlineMessageID));
      var w4 := Then(w3, "reply_markup", StrOpt(replyMarkup));
      forall j | j !in {"chat_id", "message_id", "inline_message_id", "reply_markup"}
        ensures j !in OrEmpty(Written(w4))
      {
        LastSetOther(w0, "chat_id", IntOpt(chatID), j);
        LastSetOther(w1, "message_id", IntOpt(messageID), j);
        LastSetOther(w2, "inline_message_id", StrOpt(inlineMessageID), j);
        LastSetOther(w3, "reply_markup", StrOpt(replyMarkup), j);
        WrittenLastSet(w4, j);
      }
    }

    /** The request `Do` builds before it calls the API: the endpoint, and a query made
        by the `setParam` calls of `Plan`. */
    method Assemble() returns (r: Request)
      ensures fresh(r)
      ensures r.Fields() == RequestFields(MethodGet, "/editMessageReplyMarkup", Written(Plan()), None, None, None, "", [])
    {
      r := new Request(MethodGet, "/editMessageReplyMarkup");
      ghost var done := NoWrites;
      var _ := r.SetParamIfSet("chat_id", IntOpt(chatID), done);
      done := Then(done, "chat_id", IntOpt(chatID));
      var _ := r.SetParamIfSet("message_id", IntOpt(messageID), done);
      done := Then(done, "message_id", IntOpt(messageID));
      var _ := r.SetParamIfSet("inline_message_id", StrOpt(inlineMessageID), done);
      done := Then(done, "inline_message_id", StrOpt(inlineMessageID));
      var _ := r.SetParamIfSet("reply_markup", StrOpt(replyMarkup), done);
      done := Then(done, "reply_markup", StrOpt(replyMarkup));
      assert done == Plan();
    }

    /** `Do`: Sets each of the other keys only when its field is set; then calls the API. */
    method Do(opts: seq<RequestOption>) returns (assembled: RequestFields, res: Option<Bytes>, err: Option<Error>)
      ensures assembled.httpMethod == MethodGet && assembled.endpoint == "/editMessageReplyMarkup"
      ensures assembled.form == None && assembled.header == None && assembled.body == None
      ensures assembled.fullURL == "" && assembled.json == []
      ensures HoldsIfSet(Q(assembled), "chat_id", IntOpt(chatID))
      ensures HoldsIfSet(Q(assembled), "message_id", IntOpt(messageID))
      ensures HoldsIfSet(Q(assembled), "inline_message_id", StrOpt(inlineMessageID))
      ensures HoldsIfSet(Q(assembled), "reply_markup", StrOpt(replyMarkup))
      ensures Q(assembled).Keys <= {"chat_id", "message_id", "inline_message_id", "reply_markup"}
      ensures var o := c.Outcome(assembled, opts);
        err == o.1 && res == (if o.1.Some? then None else o.0)
    {
      var r := Assemble();
      assembled := r.Fields();
      var data, e := c.CallAPI(r, opts);
      PlanOnly();
      PlanChatID();
      PlanMessageID();
      PlanInlineMessageID();
      PlanReplyMarkup();
      if e.Some? {
        return assembled, None, e;
      }
      res, err := data, None;
    }
  }

  /** `EditMessageTextService`: a GET request to `/editMessageText`. */
  class EditMessageTextService {
    const c: Client
    var chatID: Option<int64>
    var messageID: Option<int64>
    var inlineMessageID: Option<string>
    var text: Option<string>
    var parseMode: Option<string>
    var entities: Option<string>
    var disableWebPagePreview: Option<bool>
    var replyMarkup: Option<string>

    /** `NewEditMessageTextService`: every field starts out unset. */
    constructor (c: Client)
      ensures this.c == c
      ensures chatID == None && messageID == None && inlineMessageID == None
      ensures text == None && parseMode == None && entities == None
      ensures disableWebPagePreview == None && replyMarkup == None
    {
      this.c := c;
      chatID := None;
      messageID := None;
      inlineMessageID := None;
      text := None;
      parseMode := None;
      entities := None;
      disableWebPagePreview := None;
      replyMarkup := None;
    }

    /** `Text`: stores its argument in `text`. */
    method Text(text: string) returns (t: EditMessageTextService)
      modifies this`text
      ensures this.text == Some(text) && t == this
    {
      this.text := Some(text);
      t := this;
    }

    /** `ChatID`: stores its argument in `chatID`. */
    method ChatID(chatID: int64) returns (t: EditMessageTextService)
      modifies this`chatID
      ensures this.chatID == Some(chatID) && t == this
    {
      this.chatID := Some(chatID);
      t := this;
    }

    /** `MessageID`: stores its argument in `messageID`. */
    method MessageID(messageID: int64) returns (t: EditMessageTextService)
      modifies this`messageID
      ensures this.messageID == Some(messageID) && t == this
    {
      this.messageID := Some(messageID);
      t := this;
    }

    /** `InlineMessageID`: stores its argument in `inlineMessageID`. */
    method InlineMessageID(inlineMessageID: string) returns (t: EditMessageTextService)
      modifies this`inlineMessageID
      ensures this.inlineMessageID == Some(inlineMessageID) && t == this
    {
      this.inlineMessageID := Some(inlineMessageID);
      t := this;
    }

    /** `ParseMode`: stores its argument in `parseMode`. */
    method ParseMode(parseMode: string) returns (t: EditMessageTextService)
      modifies this`parseMode
      ensures this.parseMode == Some(parseMode) && t == this
    {
      this.parseMode := Some(parseMode);
      t := this;
    }

    /** `Entities`: stores the JSON text of its argument in `entities`. `marshalled` is what
        `jsoniter.Marshal` makes of the argument, `None` when marshalling fails; then
        nothing changes and the result is nil. */
    method Entities(marshalled: Option<string>) returns (t: EditMessageTextService?)
      modifies this`entities
      ensures marshalled.None? ==> t == null && entities == old(entities)
      ensures marshalled.Some? ==> t == this && entities == marshalled
    {
      if marshalled.None? {
        return null;
      }
      entities := marshalled;
      t := this;
    }

    /** `DisableWebPagePreview`: stores its argument in `disableWebPagePreview`. */
    method DisableWebPagePreview(disableWebPagePreview: bool) returns (t: EditMessageTextService)
      modifies this`disableWebPagePreview
      ensures this.disableWebPagePreview == Some(disableWebPagePreview) && t == this
    {
      this.disableWebPagePreview := Some(disableWebPagePreview);
      t := this;
    }

    /** `ReplyMarkup`: stores the JSON text of its argument in `replyMarkup`. `marshalled` is what
        `jsoniter.Marshal` makes of the argument, `None` when marshalling fails; then
        nothing changes and the result is nil. */
    method ReplyMarkup(marshalled: Option<string>) returns (t: EditMessageTextService?)
      modifies this`replyMarkup
      ensures marshalled.None? ==> t == null && replyMarkup == old(replyMarkup)
      ensures marshalled.Some? ==> t == this && replyMarkup == marshalled
    {
      if marshalled.None? {
        return null;
      }
      replyMarkup := marshalled;
      t := this;
    }

    /** The `setParam` calls `Do` makes, in order; a call that is skipped because its
        field is unset has value `None`. */
    ghost function Plan(): Writes
      reads this
    {
      var w1 := Then(NoWrites, "text", StrOpt(text));
      var w2 := Then(w1, "chat_id", IntOpt(chatID));
      var w3 := Then(w2, "message_id", IntOpt(messageID));
      var w4 := Then(w3, "inline_message_id", StrOpt(inlineMessageID));
      var w5 := Then(w4, "parse_mode", StrOpt(parseMode));
      var w6 := Then(w5, "entities", StrOpt(entities));
      var w7 := Then(w6, "disable_web_page_preview", BoolOpt(disableWebPagePreview));
      var w8 := Then(w7, "reply_markup", StrOpt(replyMarkup));
      w8
    }

    /** The value the calls leave at `text`. */
    lemma PlanText()
      ensures HoldsIfSet(OrEmpty(Written(Plan())), "text", StrOpt(text))
    {
      var w0 := NoWrites;
      var w1 := Then(w0, "text", StrOpt(text));
      var w2 := Then(w1, "chat_id", IntOpt(chatID));
      var w3 := Then(w2, "message_id", IntOpt(messageID));
      var w4 := Then(w3, "inline_message_id", StrOpt(inlineMessageID));
      var w5 := Then(w4, "parse_mode", StrOpt(parseMode));
      var w6 := Then(w5, "entities", StrOpt(entities));
      var w7 := Then(w6, "disable_web_page_preview", BoolOpt(disableWebPagePreview));
      var w8 := Then(w7, "reply_markup", StrOpt(replyMarkup));
      LastSetOther(w1, "chat_id", IntOpt(chatID), "text");
      LastSetOther(w2, "message_id", IntOpt(messageID), "text");
      LastSetOther(w3, "inline_message_id", StrOpt(inlineMessageID), "text");
      LastSetOther(w4, "parse_mode", StrOpt(parseMode), "text");
      LastSetOther(w5, "entities", StrOpt(entities), "text");
      LastSetOther(w6, "disable_web_page_preview", BoolOpt(disableWebPagePreview), "text");
      LastSetOther(w7, "reply_markup", StrOpt(replyMarkup), "text");
      WrittenLastSet(w8, "text");
    }

    /** The value the calls leave at `chat_id`. */
    lemma PlanChatID()
      ensures HoldsIfSet(OrEmpty(Written(Plan())), "chat_id", IntOpt(chatID))
    {
      var w0 := NoWrites;
      var w1 := Then(w0, "text", StrOpt(text));
      var w2 := Then(w1, "chat_id", IntOpt(chatID));
      var w3 := Then(w2, "message_id", IntOpt(messageID));
      var w4 := Then(w3, "inline_message_id", StrOpt(inlineMessageID));
      var w5 := Then(w4, "parse_mode", StrOpt(parseMode));
      var w6 := Then(w5, "entities", StrOpt(entities));
      var w7 := Then(w6, "disable_web_page_preview", BoolOpt(disableWebPagePreview));
      var w8 := Then(w7, "reply_markup", StrOpt(replyMarkup));
      LastSetOther(w0, "text", StrOpt(text), "chat_id");
      LastSetOther(w2, "message_id", IntOpt(messageID), "chat_id");
      LastSetOther(w3, "inline_message_id", StrOpt(inlineMessageID), "chat_id");
      LastSetOther(w4, "parse_mode", StrOpt(parseMode), "chat_id");
      LastSetOther(w5, "entities", StrOpt(entities), "chat_id");
      LastSetOther(w6, "disable_web_page_preview", BoolOpt(disableWebPagePreview), "chat_id");
      LastSetOther(w7, "reply_markup", StrOpt(replyMarkup), "chat_id");
      WrittenLastSet(w8, "chat_id");
    }

    /** The value the calls leave at `message_id`. */
    lemma PlanMessageID()
      ensures HoldsIfSet(OrEmpty(Written(Plan())), "message_id", IntOpt(messageID))
    {
      var w0 := NoWrites;
      var w1 := Then(w0, "text", StrOpt(text));
      var w2 := Then(w1, "chat_id", IntOpt(chatID));
      var w3 := Then(w2, "message_id", IntOpt(messageID));
      var w4 := Then(w3, "inline_message_id", StrOpt(inlineMessageID));
      var w5 := Then(w4, "parse_mode", StrOpt(parseMode));
      var w6 := Then(w5, "entities", StrOpt(entities));
      var w7 := Then(w6, "disable_web_page_preview", BoolOpt(disableWebPagePreview));
      var w8 := Then(w7, "reply_markup", StrOpt(replyMarkup));
      LastSetOther(w0, "text", StrOpt(text), "message_id");
      LastSetOther(w1, "chat_id", IntOpt(chatID), "message_id");
      LastSetOther(w3, "inline_message_id", StrOpt(inlineMessageID), "message_id");
      LastSetOther(w4, "parse_mode", StrOpt(parseMode), "message_id");
      LastSetOther(w5, "entities", StrOpt(entities), "message_id");
      LastSetOther(w6, "disable_web_page_preview", BoolOpt(disableWebPagePreview), "message_id");
      LastSetOther(w7, "reply_markup", StrOpt(replyMarkup), "message_id");
      WrittenLastSet(w8, "message_id");
    }

    /** The value the calls leave at `inline_message_id`. */
    lemma PlanInlineMessageID()
      ensures HoldsIfSet(OrEmpty(Written(Plan())), "inline_message_id", StrOpt(inlineMessageID))
    {
      var w0 := NoWrites;
      var w1 := Then(w0, "text", StrOpt(text));
      var w2 := Then(w1, "chat_id", IntOpt(chatID));
      var w3 := Then(w2, "message_id", IntOpt(messageID));
      var w4 := Then(w3, "inline_message_id", StrOpt(inlineMessageID));
      var w5 := Then(w4, "parse_mode", StrOpt(parseMode));
      var w6 := Then(w5, "entities", StrOpt(entities));
      var w7 := Then(w6, "disable_web_page_preview", BoolOpt(disableWebPagePreview));
      var w8 := Then(w7, "reply_markup", StrOpt(replyMarkup));
      LastSetOther(w0, "text", StrOpt(text), "inline_message_id");
      LastSetOther(w1, "chat_id", IntOpt(chatID), "inline_message_id");
      LastSetOther(w2, "message_id", IntOpt(messageID), "inline_message_id");
      LastSetOther(w4, "parse_mode", StrOpt(parseMode), "inline_message_id");
      LastSetOther(w5, "entities", StrOpt(entities), "inline_message_id");
      LastSetOther(w6, "disable_web_page_preview", BoolOpt(disableWebPagePreview), "inline_message_id");
      LastSetOther(w7, "reply_markup", StrOpt(replyMarkup), "inline_message_id");
      WrittenLastSet(w8, "inline_message_id");
    }

    /** The value the calls leave at `parse_mode`. */
    lemma PlanParseMode()
      ensures HoldsIfSet(OrEmpty(Written(Plan())), "parse_mode", StrOpt(parseMode))
    {
      var w0 := NoWrites;
      var w1 := Then(w0, "text", StrOpt(text));
      var w2 := Then(w1, "chat_id", IntOpt(chatID));
      var w3 := Then(w2, "message_id", IntOpt(messageID));
      var w4 := Then(w3, "inline_message_id", StrOpt(inlineMessageID));
      var w5 := Then(w4, "parse_mode", StrOpt(parseMode));
      var w6 := Then(w5, "entities", StrOpt(entities));
      var w7 := Then(w6, "disable_web_page_preview", BoolOpt(disableWebPagePreview));
      var w8 := Then(w7, "reply_markup", StrOpt(replyMarkup));
      LastSetOther(w0, "text", StrOpt(text), "parse_mode");
      LastSetOther(w1, "chat_id", IntOpt(chatID), "parse_mode");
      LastSetOther(w2, "message_id", IntOpt(messageID), "parse_mode");
      LastSetOther(w3, "inline_message_id", StrOpt(inlineMessageID), "parse_mode");
      LastSetOther(w5, "entities", StrOpt(entities), "parse_mode");
      LastSetOther(w6, "disable_web_page_preview", BoolOpt(disableWebPagePreview), "parse_mode");
      LastSetOther(w7, "reply_markup", StrOpt(replyMarkup), "parse_mode");
      WrittenLastSet(w8, "parse_mode");
    }

    /** The value the calls leave at `entities`. */
    lemma PlanEntities()
      ensures HoldsIfSet(OrEmpty(Written(Plan())), "entities", StrOpt(entities))
    {
      var w0 := NoWrites;
      var w1 := Then(w0, "text", StrOpt(text));
      var w2 := Then(w1, "chat_id", IntOpt(chatID));
      var w3 := Then(w2, "message_id", IntOpt(messageID));
      var w4 := Then(w3, "inline_message_id", StrOpt(inlineMessageID));
      var w5 := Then(w4, "parse_mode", StrOpt(parseMode));
      var w6 := Then(w5, "entities", StrOpt(entities));
      var w7 := Then(w6, "disable_web_page_preview", BoolOpt(disableWebPagePreview));
      var w8 := Then(w7, "reply_markup", StrOpt(replyMarkup));
      LastSetOther(w0, "text", StrOpt(text), "entities");
      LastSetOther(w1, "chat_id", IntOpt(chatID), "entities");
      LastSetOther(w2, "message_id", IntOpt(messageID), "entities");
      LastSetOther(w3, "inline_message_id", StrOpt(inlineMessageID), "entities");
      LastSetOther(w4, "parse_mode", StrOpt(parseMode), "entities");
      LastSetOther(w6, "disable_web_page_preview", BoolOpt(disableWebPagePreview), "entities");
      LastSetOther(w7, "reply_markup", StrOpt(replyMarkup), "entities");
      WrittenLastSet(w8, "entities");
    }

    /** The value the calls leave at `disable_web_page_preview`. */
    lemma PlanDisableWebPagePreview()
      ensures HoldsIfSet(OrEmpty(Written(Plan())), "disable_web_page_preview", BoolOpt(disableWebPagePreview))
    {
      var w0 := NoWrites;
      var w1 := Then(w0, "text", StrOpt(text));
      var w2 := Then(w1, "chat_id", IntOpt(chatID));
      var w3 := Then(w2, "message_id", IntOpt(messageID));
      var w4 := Then(w3, "inline_message_id", StrOpt(inlineMessageID));
      var w5 := Then(w4, "parse_mode", StrOpt(parseMode));
      var w6 := Then(w5, "entities", StrOpt(entities));
      var w7 := Then(w6, "disable_web_page_preview", BoolOpt(disableWebPagePreview));
      var w8 := Then(w7, "reply_markup", StrOpt(replyMarkup));
      LastSetOther(w0, "text", StrOpt(text), "disable_web_page_preview");
      LastSetOther(w1, "chat_id", IntOpt(chatID), "disable_web_page_preview");
      LastSetOther(w2, "message_id", IntOpt(messageID), "disable_web_page_preview");
      LastSetOther(w3, "inline_message_id", StrOpt(inlineMessageID), "disable_web_page_preview");
      LastSetOther(w4, "parse_mode", StrOpt(parseMode), "disable_web_page_preview");
      LastSetOther(w5, "entities", StrOpt(entities), "disable_web_page_preview");
      LastSetOther(w7, "reply_markup", StrOpt(replyMarkup), "disable_web_page_preview");
      WrittenLastSet(w8, "disable_web_page_preview");
    }

    /** The value the calls leave at `reply_markup`. */
    lemma PlanReplyMarkup()
      ensures HoldsIfSet(OrEmpty(Written(Plan())), "reply_markup", StrOpt(replyMarkup))
    {
      var w0 := NoWrites;
      var w1 := Then(w0, "text", StrOpt(text));
      var w2 := Then(w1, "chat_id", IntOpt(chatID));
      var w3 := Then(w2, "message_id", IntOpt(messageID));
      var w4 := Then(w3, "inline_message_id", StrOpt(inlineMessageID));
      var w5 := Then(w4, "parse_mode", StrOpt(parseMode));
      var w6 := Then(w5, "entities", StrOpt(entities));
      var w7 := Then(w6, "disable_web_page_preview", BoolOpt(disableWebPagePreview));
      var w8 := Then(w7, "reply_markup", StrOpt(replyMarkup));
      LastSetOther(w0, "text", StrOpt(text), "reply_markup");
      LastSetOther(w1, "chat_id", IntOpt(chatID), "reply_markup");
      LastSetOther(w2, "message_id", IntOpt(messageID), "reply_markup");
      LastSetOther(w3, "inline_message_id", StrOpt(inlineMessageID), "reply_markup");
      LastSetOther(w4, "parse_mode", StrOpt(parseMode), "reply_markup");
      LastSetOther(w5, "entities", StrOpt(entities), "reply_markup");
      LastSetOther(w6, "disable_web_page_preview", BoolOpt(disableWebPagePreview), "reply_markup");
      WrittenLastSet(w8, "reply_markup");
    }

    /** The calls write no key but these. */
    lemma PlanOnly()
      ensures OrEmpty(Written(Plan())).Keys <= {"text", "chat_id", "message_id", "inline_message_id", "parse_mode", "entities", "disable_web_page_preview", "reply_markup"}
    {
      var w0 := NoWrites;
      var w1 := Then(w0, "text", StrOpt(text));
      var w2 := Then(w1, "chat_id", IntOpt(chatID));
      var w3 := Then(w2, "message_id", IntOpt(messageID));
      var w4 := Then(w3, "inline_message_id", StrOpt(inlineMessageID));
      var w5 := Then(w4, "parse_mode", StrOpt(parseMode));
      var w6 := Then(w5, "entities", StrOpt(entities));
      var w7 := Then(w6, "disable_web_page_preview", BoolOpt(disableWebPagePreview));
      var w8 := Then(w7, "reply_markup", StrOpt(replyMarkup));
      forall j | j !in {"text", "chat_id", "message_id", "inline_message_id", "parse_mode", "entities", "disable_web_page_preview", "reply_markup"}
        ensures j !in OrEmpty(Written(w8))
      {
        LastSetOther(w0, "text", StrOpt(text), j);
        LastSetOther(w1, "chat_id", IntOpt(chatID), j);
        LastSetOther(w2, "message_id", IntOpt(messageID), j);
        LastSetOther(w3, "inline_message_id", StrOpt(inlineMessageID), j);
        LastSetOther(w4, "parse_mode", StrOpt(parseMode), j);
        LastSetOther(w5, "entities", StrOpt(entities), j);
        LastSetOther(w6, "disable_web_page_preview", BoolOpt(disableWebPagePreview), j);
        LastSetOther(w7, "reply_markup", StrOpt(replyMarkup), j);
        WrittenLastSet(w8, j);
      }
    }

    /** The request `Do` builds before it calls the API: the endpoint, and a query made
        by the `setParam` calls of `Plan`. */
    method Assemble() returns (r: Request)
      ensures fresh(r)
      ensures r.Fields() == RequestFields(MethodGet, "/editMessageText", Written(Plan()), None, None, None, "", [])
    {
      r := new Request(MethodGet, "/editMessageText");
      ghost var done := NoWrites;
      var _ := r.SetParamIfSet("text", StrOpt(text), done);
      done := Then(done, "text", StrOpt(text));
      var _ := r.SetParamIfSet("chat_id", IntOpt(chatID), done);
      done := Then(done, "chat_id", IntOpt(chatID));
      var _ := r.SetParamIfSet("message_id", IntOpt(messageID), done);
      done := Then(done, "message_id", IntOpt(messageID));
      var _ := r.SetParamIfSet("inline_message_id", StrOpt(inlineMessageID), done);
      done := Then(done, "inline_message_id", StrOpt(inlineMessageID));
      var _ := r.SetParamIfSet("parse_mode", StrOpt(parseMode), done);
      done := Then(done, "parse_mode", StrOpt(parseMode));
      var _ := r.SetParamIfSet("entities", StrOpt(entities), done);
      done := Then(done, "entities", StrOpt(entities));
      var _ := r.SetParamIfSet("disable_web_page_preview", BoolOpt(disableWebPagePreview), done);
      done := Then(done, "disable_web_page_preview", BoolOpt(disableWebPagePreview));
      var _ := r.SetParamIfSet("reply_markup", StrOpt(replyMarkup), done);
      done := Then(done, "reply_markup", StrOpt(replyMarkup));
      assert done == Plan();
    }

    /** `Do`: Always sets `text`; sets each of the other keys only when its field is set; then calls the API. */
    method Do(opts: seq<RequestOption>) returns (assembled: RequestFields, res: Option<Bytes>, err: Option<Error>)
      requires text.Some?
      ensures assembled.httpMethod == MethodGet && assembled.endpoint == "/editMessageText"
      ensures assembled.form == None && assembled.header == None && assembled.body == None
      ensures assembled.fullURL == "" && assembled.json == []
      ensures Holds(Q(assembled), "text", Str(text.value))
      ensures HoldsIfSet(Q(assembled), "chat_id", IntOpt(chatID))
      ensures HoldsIfSet(Q(assembled), "message_id", IntOpt(messageID))
      ensures HoldsIfSet(Q(assembled), "inline_message_id", StrOpt(inlineMessageID))
      ensures HoldsIfSet(Q(assembled), "parse_mode", StrOpt(parseMode))
      ensures HoldsIfSet(Q(assembled), "entities", StrOpt(entities))
      ensures HoldsIfSet(Q(assembled), "disable_web_page_preview", BoolOpt(disableWebPagePreview))
      ensures HoldsIfSet(Q(assembled), "reply_markup", StrOpt(replyMarkup))
      ensures Q(assembled).Keys <= {"text", "chat_id", "message_id", "inline_message_id", "parse_mode", "entities", "disable_web_page_preview", "reply_markup"}
      ensures var o := c.Outcome(assembled, opts);
        err == o.1 && res == (if o.1.Some? then None else o.0)
    {
      var r := Assemble();
      assembled := r.Fields();
      var data, e := c.CallAPI(r, opts);
      PlanOnly();
      PlanText();
      PlanChatID();
      PlanMessageID();
      PlanInlineMessageID();
      PlanParseMode();
      PlanEntities();
      PlanDisableWebPagePreview();
      PlanReplyMarkup();
      if e.Some? {
        return assembled, None, e;
      }
      res, err := data, None;
    }
  }

  /** `DeleteMessageService`: a GET request to `/deleteMessage`. */
  class DeleteMessageService {
    const c: Client
    var chatID: Option<int64>
    var messageID: Option<int64>

    /** `NewDeleteMessageService`: every field starts out unset. */
    constructor (c: Client)
      ensures this.c == c
      ensures chatID == None && messageID == None
    {
      this.c := c;
      chatID := None;
      messageID := None;
    }

    /** `ChatID`: stores its argument in `chatID`. */
    method ChatID(chatID: int64) returns (t: DeleteMessageService)
      modifies this`chatID
      ensures this.chatID == Some(chatID) && t == this
    {
      this.chatID := Some(chatID);
      t := this;
    }

    /** `MessageID`: stores its argument in `messageID`. */
    method MessageID(messageID: int64) returns (t: DeleteMessageService)
      modifies this`messageID
      ensures this.messageID == Some(messageID) && t == this
    {
      this.messageID := Some(messageID);
      t := this;
    }

    /** The `setParam` calls `Do` makes, in order; a call that is skipped because its
        field is unset has value `None`. */
    ghost function Plan(): Writes
      reads this
    {
      var w1 := Then(NoWrites, "chat_id", IntOpt(chatID));
      var w2 := Then(w1, "message_id", IntOpt(messageID));
      w2
    }

    /** The value the calls leave at `chat_id`. */
    lemma PlanChatID()
      ensures HoldsIfSet(OrEmpty(Written(Plan())), "chat_id", IntOpt(chatID))
    {
      var w0 := NoWrites;
      var w1 := Then(w0, "chat_id", IntOpt(chatID));
      var w2 := Then(w1, "message_id", IntOpt(messageID));
      LastSetOther(w1, "message_id", IntOpt(messageID), "chat_id");
      WrittenLastSet(w2, "chat_id");
    }

    /** The value the calls leave at `message_id`. */
    lemma PlanMessageID()
      ensures HoldsIfSet(OrEmpty(Written(Plan())), "message_id", IntOpt(messageID))
    {
      var w0 := NoWrites;
      var w1 := Then(w0, "chat_id", IntOpt(chatID));
      var w2 := Then(w1, "message_id", IntOpt(messageID));
      LastSetOther(w0, "chat_id", IntOpt(chatID), "message_id");
      WrittenLastSet(w2, "message_id");
    }

    /** The calls write no key but these. */
    lemma PlanOnly()
      ensures OrEmpty(Written(Plan())).Keys <= {"chat_id", "message_id"}
    {
      var w0 := NoWrites;
      var w1 := Then(w0, "chat_id", IntOpt(chatID));
      var w2 := Then(w1, "message_id", IntOpt(messageID));
      forall j | j !in {"chat_id", "message_id"}
        ensures j !in OrEmpty(Written(w2))
      {
        LastSetOther(w0, "chat_id", IntOpt(chatID), j);
        LastSetOther(w1, "message_id", IntOpt(messageID), j);
        WrittenLastSet(w2, j);
      }
    }

    /** The request `Do` builds before it calls the API: the endpoint, and a query made
        by the `setParam` calls of `Plan`. */
    method Assemble() returns (r: Request)
      ensures fresh(r)
      ensures r.Fields() == RequestFields(MethodGet, "/deleteMessage", Written(Plan()), None, None, None, "", [])
    {
      r := new Request(MethodGet, "/deleteMessage");
      ghost var done := NoWrites;
      var _ := r.SetParamIfSet("chat_id", IntOpt(chatID), done);
      done := Then(done, "chat_id", IntOpt(chatID));
      var _ := r.SetParamIfSet("message_id", IntOpt(messageID), done);
      done := Then(done, "message_id", IntOpt(messageID));
      assert done == Plan();
    }

    /** `Do`: Always sets `chat_id`, `message_id`; then calls the API. */
    method Do(opts: seq<RequestOption>) returns (assembled: RequestFields, res: Option<Bytes>, err: Option<Error>)
      requires chatID.Some? && messageID.Some?
      ensures assembled.httpMethod == MethodGet && assembled.endpoint == "/deleteMessage"
      ensures assembled.form == None && assembled.header == None && assembled.body == None
      ensures assembled.fullURL == "" && assembled.json == []
      ensures Holds(Q(assembled), "chat_id", Int(chatID.value as int))
      ensures Holds(Q(assembled), "message_id", Int(messageID.value as int))
      ensures Q(assembled).Keys == {"chat_id", "message_id"}
      ensures var o := c.Outcome(assembled, opts);
        err == o.1 && res == (if o.1.Some? then None else o.0)
    {
      var r := Assemble();
      assembled := r.Fields();
      var data, e := c.CallAPI(r, opts);
      PlanOnly();
      PlanChatID();
      PlanMessageID();
      if e.Some? {
        return assembled, None, e;
      }
      res, err := data, None;
    }
  }
}
