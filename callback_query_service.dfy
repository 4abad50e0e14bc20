/** The callback-query builder (callback_query_service.go). */
module CallbackQueryService {
  import opened Values
  import opened Common
  import opened Requests
  import opened Clients

  /** `AnswerCallbackQueryService`: a GET request to `/answerCallbackQuery`. */
  class AnswerCallbackQueryService {
    const c: Client
    var callbackQueryID: Option<string>
    var text: Option<string>
    var showAlert: Option<bool>
    var url: Option<string>
    var cacheTime: Option<int64>

    /** `NewAnswerCallbackQueryService`: every field starts out unset. */
    constructor (c: Client)
      ensures this.c == c
      ensures callbackQueryID == None && text == None && showAlert == None
      ensures url == None && cacheTime == None
    {
      this.c := c;
      callbackQueryID := None;
      text := None;
      showAlert := None;
      url := None;
      cacheTime := None;
    }

    /** `CallbackQueryID`: stores its argument in `callbackQueryID`. */
    method CallbackQueryID(callbackQueryID: string) returns (t: AnswerCallbackQueryService)
      modifies this`callbackQueryID
      ensures this.callbackQueryID == Some(callbackQueryID) && t == this
    {
      this.callbackQueryID := Some(callbackQueryID);
      t := this;
    }

    /** `Text`: stores its argument in `text`. */
    method Text(text: string) returns (t: AnswerCallbackQueryService)
      modifies this`text
      ensures this.text == Some(text) && t == this
    {
      this.text := Some(text);
      t := this;
    }

    /** `ShowAlert`: stores its argument in `showAlert`. */
    method ShowAlert(showAlert: bool) returns (t: AnswerCallbackQueryService)
      modifies this`showAlert
      ensures this.showAlert == Some(showAlert) && t == this
    {
      this.showAlert := Some(showAlert);
      t := this;
    }

    /** `Url`: stores its argument in `url`. */
    method Url(url: string) returns (t: AnswerCallbackQueryService)
      modifies this`url
      ensures this.url == Some(url) && t == this
    {
      this.url := Some(url);
      t := this;
    }

    /** `CacheTime`: stores its argument in `cacheTime`. */
    method CacheTime(cacheTime: int64) returns (t: AnswerCallbackQueryService)
      modifies this`cacheTime
      ensures this.cacheTime == Some(cacheTime) && t == this
    {
      this.cacheTime := Some(cacheTime);
      t := this;
    }

    /** The `setParam` calls `Do` makes, in order; a call that is skipped because its
        field is unset has value `None`. */
    ghost function Plan(): Writes
      reads this
    {
      var w1 := Then(NoWrites, "callback_query_id", StrOpt(callbackQueryID));
      var w2 := Then(w1, "text", StrOpt(text));
      var w3 := Then(w2, "show_alert", BoolOpt(showAlert));
      var w4 := Then(w3, "url", StrOpt(url));
      var w5 := Then(w4, "cache_time", IntOpt(cacheTime));
      w5
    }

    /** The value the calls leave at `callback_query_id`. */
    lemma PlanCallbackQueryID()
      ensures HoldsIfSet(OrEmpty(Written(Plan())), "callback_query_id", StrOpt(callbackQueryID))
    {
      var w0 := NoWrites;
      var w1 := Then(w0, "callback_query_id", StrOpt(callbackQueryID));
      var w2 := Then(w1, "text", StrOpt(text));
      var w3 := Then(w2, "show_alert", BoolOpt(showAlert));
      var w4 := Then(w3, "url", StrOpt(url));
      var w5 := Then(w4, "cache_time", IntOpt(cacheTime));
      LastSetOther(w1, "text", StrOpt(text), "callback_query_id");
      LastSetOther(w2, "show_alert", BoolOpt(showAlert), "callback_query_id");
      LastSetOther(w3, "url", StrOpt(url), "callback_query_id");
      LastSetOther(w4, "cache_time", IntOpt(cacheTime), "callback_query_id");
      WrittenLastSet(w5, "callback_query_id");
    }

    /** The value the calls leave at `text`. */
    lemma PlanText()
      ensures HoldsIfSet(OrEmpty(Written(Plan())), "text", StrOpt(text))
    {
      var w0 := NoWrites;
      var w1 := Then(w0, "callback_query_id", StrOpt(callbackQueryID));
      var w2 := Then(w1, "text", StrOpt(text));
      var w3 := Then(w2, "show_alert", BoolOpt(showAlert));
      var w4 := Then(w3, "url", StrOpt(url));
      var w5 := Then(w4, "cache_time", IntOpt(cacheTime));
      LastSetOther(w0, "callback_query_id", StrOpt(callbackQueryID), "text");
      LastSetOther(w2, "show_alert", BoolOpt(showAlert), "text");
      LastSetOther(w3, "url", StrOpt(url), "text");
      LastSetOther(w4, "cache_time", IntOpt(cacheTime), "text");
      WrittenLastSet(w5, "text");
    }

    /** The value the calls leave at `show_alert`. */
    lemma PlanShowAlert()
      ensures HoldsIfSet(OrEmpty(Written(Plan())), "show_alert", BoolOpt(showAlert))
    {
      var w0 := NoWrites;
      var w1 := Then(w0, "callback_query_id", StrOpt(callbackQueryID));
      var w2 := Then(w1, "text", StrOpt(text));
      var w3 := Then(w2, "show_alert", BoolOpt(showAlert));
      var w4 := Then(w3, "url", StrOpt(url));
      var w5 := Then(w4, "cache_time", IntOpt(cacheTime));
      LastSetOther(w0, "callback_query_id", StrOpt(callbackQueryID), "show_alert");
      LastSetOther(w1, "text", StrOpt(text), "show_alert");
      LastSetOther(w3, "url", StrOpt(url), "show_alert");
      LastSetOther(w4, "cache_time", IntOpt(cacheTime), "show_alert");
      WrittenLastSet(w5, "show_alert");
    }

    /** The value the calls leave at `url`. */
    lemma PlanUrl()
      ensures HoldsIfSet(OrEmpty(Written(Plan())), "url", StrOpt(url))
    {
      var w0 := NoWrites;
      var w1 := Then(w0, "callback_query_id", StrOpt(callbackQueryID));
      var w2 := Then(w1, "text", StrOpt(text));
      var w3 := Then(w2, "show_alert", BoolOpt(showAlert));
      var w4 := Then(w3, "url", StrOpt(url));
      var w5 := Then(w4, "cache_time", IntOpt(cacheTime));
      LastSetOther(w0, "callback_query_id", StrOpt(callbackQueryID), "url");
      LastSetOther(w1, "text", StrOpt(text), "url");
      LastSetOther(w2, "show_alert", BoolOpt(showAlert), "url");
      LastSetOther(w4, "cache_time", IntOpt(cacheTime), "url");
      WrittenLastSet(w5, "url");
    }

    /** The value the calls leave at `cache_time`. */
    lemma PlanCacheTime()
      ensures HoldsIfSet(OrEmpty(Written(Plan())), "cache_time", IntOpt(cacheTime))
    {
      var w0 := NoWrites;
      var w1 := Then(w0, "callback_query_id", StrOpt(callbackQueryID));
      var w2 := Then(w1, "text", StrOpt(text));
      var w3 := Then(w2, "show_alert", BoolOpt(showAlert));
      var w4 := Then(w3, "url", StrOpt(url));
      var w5 := Then(w4, "cache_time", IntOpt(cacheTime));
      LastSetOther(w0, "callback_query_id", StrOpt(callbackQueryID), "cache_time");
      LastSetOther(w1, "text", StrOpt(text), "cache_time");
      LastSetOther(w2, "show_alert", BoolOpt(showAlert), "cache_time");
      LastSetOther(w3, "url", StrOpt(url), "cache_time");
      WrittenLastSet(w5, "cache_time");
    }

    /** The calls write no key but these. */
    lemma PlanOnly()
      ensures OrEmpty(Written(Plan())).Keys <= {"callback_query_id", "text", "show_alert", "url", "cache_time"}
    {
      var w0 := NoWrites;
      var w1 := Then(w0, "callback_query_id", StrOpt(callbackQueryID));
      var w2 := Then(w1, "text", StrOpt(text));
      var w3 := Then(w2, "show_alert", BoolOpt(showAlert));
      var w4 := Then(w3, "url", StrOpt(url));
      var w5 := Then(w4, "cache_time", IntOpt(cacheTime));
      forall j | j !in {"callback_query_id", "text", "show_alert", "url", "cache_time"}
        ensures j !in OrEmpty(Written(w5))
      {
        LastSetOther(w0, "callback_query_id", StrOpt(callbackQueryID), j);
        LastSetOther(w1, "text", StrOpt(text), j);
        LastSetOther(w2, "show_alert", BoolOpt(showAlert), j);
        LastSetOther(w3, "url", StrOpt(url), j);
        LastSetOther(w4, "cache_time", IntOpt(cacheTime), j);
        WrittenLastSet(w5, j);
      }
    }

    /** The request `Do` builds before it calls the API: the endpoint, and a query made
        by the `setParam` calls of `Plan`. */
    method Assemble() returns (r: Request)
      ensures fresh(r)
      ensures r.Fields() == RequestFields(MethodGet, "/answerCallbackQuery", Written(Plan()), None, None, None, "", [])
    {
      r := new Request(MethodGet, "/answerCallbackQuery");
      ghost var done := NoWrites;
      var _ := r.SetParamIfSet("callback_query_id", StrOpt(callbackQueryID), done);
      done := Then(done, "callback_query_id", StrOpt(callbackQueryID));
      var _ := r.SetParamIfSet("text", StrOpt(text), done);
      done := Then(done, "text", StrOpt(text));
      var _ := r.SetParamIfSet("show_alert", BoolOpt(showAlert), done);
      done := Then(done, "show_alert", BoolOpt(showAlert));
      var _ := r.SetParamIfSet("url", StrOpt(url), done);
      done := Then(done, "url", StrOpt(url));
      var _ := r.SetParamIfSet("cache_time", IntOpt(cacheTime), done);
      done := Then(done, "cache_time", IntOpt(cacheTime));
      assert done == Plan();
    }

    /** `Do`: Always sets `callback_query_id`; sets each of the other keys only when its field is set; then calls the API. */
    method Do(opts: seq<RequestOption>) returns (assembled: RequestFields, res: Option<Bytes>, err: Option<Error>)
      requires callbackQueryID.Some?
      ensures assembled.httpMethod == MethodGet && assembled.endpoint == "/answerCallbackQuery"
      ensures assembled.form == None && assembled.header == None && assembled.body == None
      ensures assembled.fullURL == "" && assembled.json == []
      ensures Holds(Q(assembled), "callback_query_id", Str(callbackQueryID.value))
      ensures HoldsIfSet(Q(assembled), "text", StrOpt(text))
      ensures HoldsIfSet(Q(assembled), "show_alert", BoolOpt(showAlert))
      ensures HoldsIfSet(Q(assembled), "url", StrOpt(url))
      ensures HoldsIfSet(Q(assembled), "cache_time", IntOpt(cacheTime))
      ensures Q(assembled).Keys <= {"callback_query_id", "text", "show_alert", "url", "cache_time"}
      ensures var o := c.Outcome(assembled, opts);
        err == o.1 && res == (if o.1.Some? then None else o.0)
    {
      var r := Assemble();
      assembled := r.Fields();
      var data, e := c.CallAPI(r, opts);
      PlanOnly();
      PlanCallbackQueryID();
      PlanText();
      PlanShowAlert();
      PlanUrl();
      PlanCacheTime();
      if e.Some? {
        return assembled, None, e;
      }
      res, err := data, None;
    }
  }
}
