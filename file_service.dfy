/** The file-lookup builder (file_service.go). */
module FileService {
  import opened Values
  import opened Common
  import opened Requests
  import opened Clients

  /** `GetFileService`: a GET request to `/getFile`. */
  class GetFileService {
    const c: Client
    var fileID: Option<string>

    /** `NewGetFileService`: every field starts out unset. */
    constructor (c: Client)
      ensures this.c == c
      ensures fileID == None
    {
      this.c := c;
      fileID := None;
    }

    /** `FleID`: stores its argument in `fileID`. */
    method FleID(fileID: string) returns (t: GetFileService)
      modifies this`fileID
      ensures this.fileID == Some(fileID) && t == this
    {
      this.fileID := Some(fileID);
      t := this;
    }

    /** The `setParam` calls `Do` makes, in order; a call that is skipped because its
        field is unset has value `None`. */
    ghost function Plan(): Writes
      reads this
    {
      var w1 := Then(NoWrites, "file_id", StrOpt(fileID));
      w1
    }

    /** The value the calls leave at `file_id`. */
    lemma PlanFileID()
      ensures HoldsIfSet(OrEmpty(Written(Plan())), "file_id", StrOpt(fileID))
    {
      var w0 := NoWrites;
      var w1 := Then(w0, "file_id", StrOpt(fileID));
      WrittenLastSet(w1, "file_id");
    }

    /** The calls write no key but these. */
    lemma PlanOnly()
      ensures OrEmpty(Written(Plan())).Keys <= {"file_id"}
    {
      var w0 := NoWrites;
      var w1 := Then(w0, "file_id", StrOpt(fileID));
      forall j | j !in {"file_id"}
        ensures j !in OrEmpty(Written(w1))
      {
        LastSetOther(w0, "file_id", StrOpt(fileID), j);
        WrittenLastSet(w1, j);
      }
    }

    /** The request `Do` builds before it calls the API: the endpoint, and a query made
        by the `setParam` calls of `Plan`. */
    method Assemble() returns (r: Request)
      ensures fresh(r)
      ensures r.Fields() == RequestFields(MethodGet, "/getFile", Written(Plan()), None, None, None, "", [])
    {
      r := new Request(MethodGet, "/getFile");
      ghost var done := NoWrites;
      var _ := r.SetParamIfSet("file_id", StrOpt(fileID), done);
      done := Then(done, "file_id", StrOpt(fileID));
      assert done == Plan();
    }

    /** `Do`: Always sets `file_id`; then calls the API. */
    method Do(opts: seq<RequestOption>) returns (assembled: RequestFields, res: Option<Bytes>, err: Option<Error>)
      requires fileID.Some?
      ensures assembled.httpMethod == MethodGet && assembled.endpoint == "/getFile"
      ensures assembled.form == None && assembled.header == None && assembled.body == None
      ensures assembled.fullURL == "" && assembled.json == []
      ensures Holds(Q(assembled), "file_id", Str(fileID.value))
      ensures Q(assembled).Keys == {"file_id"}
      ensures var o := c.Outcome(assembled, opts);
        err == o.1 && res == (if o.1.Some? then None else o.0)
    {
      var r := Assemble();
      assembled := r.Fields();
      var data, e := c.CallAPI(r, opts);
      PlanOnly();
      PlanFileID();
      if e.Some? {
        return assembled, None, e;
      }
      res, err := data, None;
    }
  }
}
