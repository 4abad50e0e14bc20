/** The user-profile builder (user_service.go). */
module UserService {
  import opened Values
  import opened Common
  import opened Requests
  import opened Clients

  /** `GetUserProfilePhotosService`: a GET request to `/getUserProfilePhotos`. */
  class GetUserProfilePhotosService {
    const c: Client
    var chatID: Option<int64>
    var offset: Option<int64>
    var limit: Option<int64>

    /** `NewGetUserProfilePhotosService`: every field starts out unset. */
    constructor (c: Client)
      ensures this.c == c
      ensures chatID == None && offset == None && limit == None
    {
      this.c := c;
      chatID := None;
      offset := None;
      limit := None;
    }

    /** `ChatID`: stores its argument in `chatID`. */
    method ChatID(chatID: int64) returns (t: GetUserProfilePhotosService)
      modifies this`chatID
      ensures this.chatID == Some(chatID) && t == this
    {
      this.chatID := Some(chatID);
      t := this;
    }

    /** `Offset`: stores its argument in `offset`. */
    method Offset(offset: int64) returns (t: GetUserProfilePhotosService)
      modifies this`offset
      ensures this.offset == Some(offset) && t == this
    {
      this.offset := Some(offset);
      t := this;
    }

    /** `Limit`: stores its argument in `limit`. */
    method Limit(limit: int64) returns (t: GetUserProfilePhotosService)
      modifies this`limit
      ensures this.limit == Some(limit) && t == this
    {
      this.limit := Some(limit);
      t := this;
    }

    /** The `setParam` calls `Do` makes, in order; a call that is skipped because its
        field is unset has value `None`. */
    ghost function Plan(): Writes
      reads this
    {
      var w1 := Then(NoWrites, "chat_id", IntOpt(chatID));
      var w2 := Then(w1, "offset", IntOpt(offset));
      var w3 := Then(w2, "limit", IntOpt(limit));
      w3
    }

    /** The value the calls leave at `chat_id`. */
    lemma PlanChatID()
      ensures HoldsIfSet(OrEmpty(Written(Plan())), "chat_id", IntOpt(chatID))
    {
      var w0 := NoWrites;
      var w1 := Then(w0, "chat_id", IntOpt(chatID));
      var w2 := Then(w1, "offset", IntOpt(offset));
      var w3 := Then(w2, "limit", IntOpt(limit));
      LastSetOther(w1, "offset", IntOpt(offset), "chat_id");
      LastSetOther(w2, "limit", IntOpt(limit), "chat_id");
      WrittenLastSet(w3, "chat_id");
    }

    /** The value the calls leave at `offset`. */
    lemma PlanOffset()
      ensures HoldsIfSet(OrEmpty(Written(Plan())), "offset", IntOpt(offset))
    {
      var w0 := NoWrites;
      var w1 := Then(w0, "chat_id", IntOpt(chatID));
      var w2 := Then(w1, "offset", IntOpt(offset));
      var w3 := Then(w2, "limit", IntOpt(limit));
      LastSetOther(w0, "chat_id", IntOpt(chatID), "offset");
      LastSetOther(w2, "limit", IntOpt(limit), "offset");
      WrittenLastSet(w3, "offset");
    }

    /** The value the calls leave at `limit`. */
    lemma PlanLimit()
      ensures HoldsIfSet(OrEmpty(Written(Plan())), "limit", IntOpt(limit))
    {
      var w0 := NoWrites;
      var w1 := Then(w0, "chat_id", IntOpt(chatID));
      var w2 := Then(w1, "offset", IntOpt(offset));
      var w3 := Then(w2, "limit", IntOpt(limit));
      LastSetOther(w0, "chat_id", IntOpt(chatID), "limit");
      LastSetOther(w1, "offset", IntOpt(offset), "limit");
      WrittenLastSet(w3, "limit");
    }

    /** The calls write no key but these. */
    lemma PlanOnly()
      ensures OrEmpty(Written(Plan())).Keys <= {"chat_id", "offset", "limit"}
    {
      var w0 := NoWrites;
      var w1 := Then(w0, "chat_id", IntOpt(chatID));
      var w2 := Then(w1, "offset", IntOpt(offset));
      var w3 := Then(w2, "limit", IntOpt(limit));
      forall j | j !in {"chat_id", "offset", "limit"}
        ensures j !in OrEmpty(Written(w3))
      {
        LastSetOther(w0, "chat_id", IntOpt(chatID), j);
        LastSetOther(w1, "offset", IntOpt(offset), j);
        LastSetOther(w2, "limit", IntOpt(limit), j);
        WrittenLastSet(w3, j);
      }
    }

    /** The request `Do` builds before it calls the API: the endpoint, and a query made
        by the `setParam` calls of `Plan`. */
    method Assemble() returns (r: Request)
      ensures fresh(r)
      ensures r.Fields() == RequestFields(MethodGet, "/getUserProfilePhotos", Written(Plan()), None, None, None, "", [])
    {
      r := new Request(MethodGet, "/getUserProfilePhotos");
      ghost var done := NoWrites;
      var _ := r.SetParamIfSet("chat_id", IntOpt(chatID), done);
      done := Then(done, "chat_id", IntOpt(chatID));
      var _ := r.SetParamIfSet("offset", IntOpt(offset), done);
      done := Then(done, "offset", IntOpt(offset));
      var _ := r.SetParamIfSet("limit", IntOpt(limit), done);
      done := Then(done, "limit", IntOpt(limit));
      assert done == Plan();
    }

    /** `Do`: Always sets `chat_id`; sets each of the other keys only when its field is set; then calls the API. */
    method Do(opts: seq<RequestOption>) returns (assembled: RequestFields, res: Option<Bytes>, err: Option<Error>)
      requires chatID.Some?
      ensures assembled.httpMethod == MethodGet && assembled.endpoint == "/getUserProfilePhotos"
      ensures assembled.form == None && assembled.header == None && assembled.body == None
      ensures assembled.fullURL == "" && assembled.json == []
      ensures Holds(Q(assembled), "chat_id", Int(chatID.value as int))
      ensures HoldsIfSet(Q(assembled), "offset", IntOpt(offset))
      ensures HoldsIfSet(Q(assembled), "limit", IntOpt(limit))
      ensures Q(assembled).Keys <= {"chat_id", "offset", "limit"}
      ensures var o := c.Outcome(assembled, opts);
        err == o.1 && res == (if o.1.Some? then None else o.0)
    {
      var r := Assemble();
      assembled := r.Fields();
      var data, e := c.CallAPI(r, opts);
      PlanOnly();
      PlanChatID();
      PlanOffset();
      PlanLimit();
      if e.Some? {
        return assembled, None, e;
      }
      res, err := data, None;
    }
  }
}
