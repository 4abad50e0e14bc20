/** The bot-account builders (account_service.go). */
module AccountService {
  import opened Values
  import opened Common
  import opened Requests
  import opened Clients

  /** `GetMeService`: a GET request to `/getMe`. */
  class GetMeService {
    const c: Client

    /** `NewGetMeService`: every field starts out unset. */
    constructor (c: Client)
      ensures this.c == c
    {
      this.c := c;
    }

    /** The `setParam` calls `Do` makes, in order; a call that is skipped because its
        field is unset has value `None`. */
    ghost function Plan(): Writes
      reads this
    {
      NoWrites
    }

    /** The calls write no key. */
    lemma PlanOnly()
      ensures OrEmpty(Written(Plan())) == map[]
    {
      var w0 := NoWrites;
      forall j
        ensures j !in OrEmpty(Written(w0))
      {
        WrittenLastSet(w0, j);
      }
    }

    /** The request `Do` builds before it calls the API: the endpoint, and a query made
        by the `setParam` calls of `Plan`. */
    method Assemble() returns (r: Request)
      ensures fresh(r)
      ensures r.Fields() == RequestFields(MethodGet, "/getMe", Written(Plan()), None, None, None, "", [])
    {
      r := new Request(MethodGet, "/getMe");
      ghost var done := NoWrites;
      assert done == Plan();
    }

    /** `Do`: Sets no parameter; then calls the API. */
    method Do(opts: seq<RequestOption>) returns (assembled: RequestFields, res: Option<Bytes>, err: Option<Error>)
      ensures assembled.httpMethod == MethodGet && assembled.endpoint == "/getMe"
      ensures assembled.form == None && assembled.header == None && assembled.body == None
      ensures assembled.fullURL == "" && assembled.json == []
      ensures Q(assembled) == map[]
      ensures opts == [] ==> c.Prepared(assembled, opts).fullURL == c.baseURL + "/getMe"
      ensures var o := c.Outcome(assembled, opts);
        err == o.1 && res == (if o.1.Some? then None else o.0)
    {
      var r := Assemble();
      assembled := r.Fields();
      var data, e := c.CallAPI(r, opts);
      FinalizeShape(c.baseURL, assembled);
      PlanOnly();
      if e.Some? {
        return assembled, None, e;
      }
      res, err := data, None;
    }
  }

  /** `LogOutService`: a GET request to `/logOut`. */
  class LogOutService {
    const c: Client

    /** `NewLogOutService`: every field starts out unset. */
    constructor (c: Client)
      ensures this.c == c
    {
      this.c := c;
    }

    /** The `setParam` calls `Do` makes, in order; a call that is skipped because its
        field is unset has value `None`. */
    ghost function Plan(): Writes
      reads this
    {
      NoWrites
    }

    /** The calls write no key. */
    lemma PlanOnly()
      ensures OrEmpty(Written(Plan())) == map[]
    {
      var w0 := NoWrites;
      forall j
        ensures j !in OrEmpty(Written(w0))
      {
        WrittenLastSet(w0, j);
      }
    }

    /** The request `Do` builds before it calls the API: the endpoint, and a query made
        by the `setParam` calls of `Plan`. */
    method Assemble() returns (r: Request)
      ensures fresh(r)
      ensures r.Fields() == RequestFields(MethodGet, "/logOut", Written(Plan()), None, None, None, "", [])
    {
      r := new Request(MethodGet, "/logOut");
      ghost var done := NoWrites;
      assert done == Plan();
    }

    /** `Do`: Sets no parameter; then calls the API. */
    method Do(opts: seq<RequestOption>) returns (assembled: RequestFields, res: Option<Bytes>, err: Option<Error>)
      ensures assembled.httpMethod == MethodGet && assembled.endpoint == "/logOut"
      ensures assembled.form == None && assembled.header == None && assembled.body == None
      ensures assembled.fullURL == "" && assembled.json == []
      ensures Q(assembled) == map[]
      ensures opts == [] ==> c.Prepared(assembled, opts).fullURL == c.baseURL + "/logOut"
      ensures var o := c.Outcome(assembled, opts);
        err == o.1 && res == (if o.1.Some? then None else o.0)
    {
      var r := Assemble();
      assembled := r.Fields();
      var data, e := c.CallAPI(r, opts);
      FinalizeShape(c.baseURL, assembled);
      PlanOnly();
      if e.Some? {
        return assembled, None, e;
      }
      res, err := data, None;
    }
  }

  /** `CloseService`: a GET request to `/close`. */
  class CloseService {
    const c: Client

    /** `NewCloseService`: every field starts out unset. */
    constructor (c: Client)
      ensures this.c == c
    {
      this.c := c;
    }

    /** The `setParam` calls `Do` makes, in order; a call that is skipped because its
        field is unset has value `None`. */
    ghost function Plan(): Writes
      reads this
    {
      NoWrites
    }

    /** The calls write no key. */
    lemma PlanOnly()
      ensures OrEmpty(Written(Plan())) == map[]
    {
      var w0 := NoWrites;
      forall j
        ensures j !in OrEmpty(Written(w0))
      {
        WrittenLastSet(w0, j);
      }
    }

    /** The request `Do` builds before it calls the API: the endpoint, and a query made
        by the `setParam` calls of `Plan`. */
    method Assemble() returns (r: Request)
      ensures fresh(r)
      ensures r.Fields() == RequestFields(MethodGet, "/close", Written(Plan()), None, None, None, "", [])
    {
      r := new Request(MethodGet, "/close");
      ghost var done := NoWrites;
      assert done == Plan();
    }

    /** `Do`: Sets no parameter; then calls the API. */
    method Do(opts: seq<RequestOption>) returns (assembled: RequestFields, res: Option<Bytes>, err: Option<Error>)
      ensures assembled.httpMethod == MethodGet && assembled.endpoint == "/close"
      ensures assembled.form == None && assembled.header == None && assembled.body == None
      ensures assembled.fullURL == "" && assembled.json == []
      ensures Q(assembled) == map[]
      ensures opts == [] ==> c.Prepared(assembled, opts).fullURL == c.baseURL + "/close"
      ensures var o := c.Outcome(assembled, opts);
        err == o.1 && res == (if o.1.Some? then None else o.0)
    {
      var r := Assemble();
      assembled := r.Fields();
      var data, e := c.CallAPI(r, opts);
      FinalizeShape(c.baseURL, assembled);
      PlanOnly();
      if e.Some? {
        return assembled, None, e;
      }
      res, err := data, None;
    }
  }

  /** `SetMyNameService`: a GET request to `/setMyName`. */
  class SetMyNameService {
    const c: Client
    var name: Option<string>
    var languageCode: Option<string>

    /** `NewSetMyNameService`: every field starts out unset. */
    constructor (c: Client)
      ensures this.c == c
      ensures name == None && languageCode == None
    {
      this.c := c;
      name := None;
      languageCode := None;
    }

    /** `Name`: stores its argument in `name`. */
    method Name(name: string) returns (t: SetMyNameService)
      modifies this`name
      ensures this.name == Some(name) && t == this
    {
      this.name := Some(name);
      t := this;
    }

    /** `LanguageCode`: stores its argument in `languageCode`. */
    method LanguageCode(languageCode: string) returns (t: SetMyNameService)
      modifies this`languageCode
      ensures this.languageCode == Some(languageCode) && t == this
    {
      this.languageCode := Some(languageCode);
      t := this;
    }

    /** The `setParam` calls `Do` makes, in order; a call that is skipped because its
        field is unset has value `None`. */
    ghost function Plan(): Writes
      reads this
    {
      var w1 := Then(NoWrites, "name", StrOpt(name));
      var w2 := Then(w1, "language_code", StrOpt(languageCode));
      w2
    }

    /** The value the calls leave at `name`. */
    lemma PlanName()
      ensures HoldsIfSet(OrEmpty(Written(Plan())), "name", StrOpt(name))
    {
      var w0 := NoWrites;
      var w1 := Then(w0, "name", StrOpt(name));
      var w2 := Then(w1, "language_code", StrOpt(languageCode));
      LastSetOther(w1, "language_code", StrOpt(languageCode), "name");
      WrittenLastSet(w2, "name");
    }

    /** The value the calls leave at `language_code`. */
    lemma PlanLanguageCode()
      ensures HoldsIfSet(OrEmpty(Written(Plan())), "language_code", StrOpt(languageCode))
    {
      var w0 := NoWrites;
      var w1 := Then(w0, "name", StrOpt(name));
      var w2 := Then(w1, "language_code", StrOpt(languageCode));
      LastSetOther(w0, "name", StrOpt(name), "language_code");
      WrittenLastSet(w2, "language_code");
    }

    /** The calls write no key but these. */
    lemma PlanOnly()
      ensures OrEmpty(Written(Plan())).Keys <= {"name", "language_code"}
    {
      var w0 := NoWrites;
      var w1 := Then(w0, "name", StrOpt(name));
      var w2 := Then(w1, "language_code", StrOpt(languageCode));
      forall j | j !in {"name", "language_code"}
        ensures j !in OrEmpty(Written(w2))
      {
        LastSetOther(w0, "name", StrOpt(name), j);
        LastSetOther(w1, "language_code", StrOpt(languageCode), j);
        WrittenLastSet(w2, j);
      }
    }

    /** The request `Do` builds before it calls the API: the endpoint, and a query made
        by the `setParam` calls of `Plan`. */
    method Assemble() returns (r: Request)
      ensures fresh(r)
      ensures r.Fields() == RequestFields(MethodGet, "/setMyName", Written(Plan()), None, None, None, "", [])
    {
      r := new Request(MethodGet, "/setMyName");
      ghost var done := NoWrites;
      var _ := r.SetParamIfSet("name", StrOpt(name), done);
      done := Then(done, "name", StrOpt(name));
      var _ := r.SetParamIfSet("language_code", StrOpt(languageCode), done);
      done := Then(done, "language_code", StrOpt(languageCode));
      assert done == Plan();
    }

    /** `Do`: Sets each of the other keys only when its field is set; then calls the API. */
    method Do(opts: seq<RequestOption>) returns (assembled: RequestFields, res: Option<Bytes>, err: Option<Error>)
      ensures assembled.httpMethod == MethodGet && assembled.endpoint == "/setMyName"
      ensures assembled.form == None && assembled.header == None && assembled.body == None
      ensures assembled.fullURL == "" && assembled.json == []
      ensures HoldsIfSet(Q(assembled), "name", StrOpt(name))
      ensures HoldsIfSet(Q(assembled), "language_code", StrOpt(languageCode))
      ensures Q(assembled).Keys <= {"name", "language_code"}
      ensures var o := c.Outcome(assembled, opts);
        err == o.1 && res == (if o.1.Some? then None else o.0)
    {
      var r := Assemble();
      assembled := r.Fields();
      var data, e := c.CallAPI(r, opts);
      PlanOnly();
      PlanName();
      PlanLanguageCode();
      if e.Some? {
        return assembled, None, e;
      }
      res, err := data, None;
    }
  }

  /** `GetMyNameService`: a GET request to `/getMyName`. */
  class GetMyNameService {
    const c: Client
    var languageCode: Option<string>

    /** `NewGetMyNameService`: every field starts out unset. */
    constructor (c: Client)
      ensures this.c == c
      ensures languageCode == None
    {
      this.c := c;
      languageCode := None;
    }

    /** `LanguageCode`: stores its argument in `languageCode`. */
    method LanguageCode(languageCode: string) returns (t: GetMyNameService)
      modifies this`languageCode
      ensures this.languageCode == Some(languageCode) && t == this
    {
      this.languageCode := Some(languageCode);
      t := this;
    }

    /** The `setParam` calls `Do` makes, in order; a call that is skipped because its
        field is unset has value `None`. */
    ghost function Plan(): Writes
      reads this
    {
      var w1 := Then(NoWrites, "language_code", StrOpt(languageCode));
      w1
    }

    /** The value the calls leave at `language_code`. */
    lemma PlanLanguageCode()
      ensures HoldsIfSet(OrEmpty(Written(Plan())), "language_code", StrOpt(languageCode))
    {
      var w0 := NoWrites;
      var w1 := Then(w0, "language_code", StrOpt(languageCode));
      WrittenLastSet(w1, "language_code");
    }

    /** The calls write no key but these. */
    lemma PlanOnly()
      ensures OrEmpty(Written(Plan())).Keys <= {"language_code"}
    {
      var w0 := NoWrites;
      var w1 := Then(w0, "language_code", StrOpt(languageCode));
      forall j | j !in {"language_code"}
        ensures j !in OrEmpty(Written(w1))
      {
        LastSetOther(w0, "language_code", StrOpt(languageCode), j);
        WrittenLastSet(w1, j);
      }
    }

    /** The request `Do` builds before it calls the API: the endpoint, and a query made
        by the `setParam` calls of `Plan`. */
    method Assemble() returns (r: Request)
      ensures fresh(r)
      ensures r.Fields() == RequestFields(MethodGet, "/getMyName", Written(Plan()), None, None, None, "", [])
    {
      r := new Request(MethodGet, "/getMyName");
      ghost var done := NoWrites;
      var _ := r.SetParamIfSet("language_code", StrOpt(languageCode), done);
      done := Then(done, "language_code", StrOpt(languageCode));
      assert done == Plan();
    }

    /** `Do`: Sets each of the other keys only when its field is set; then calls the API. */
    method Do(opts: seq<RequestOption>) returns (assembled: RequestFields, res: Option<Bytes>, err: Option<Error>)
      ensures assembled.httpMethod == MethodGet && assembled.endpoint == "/getMyName"
      ensures assembled.form == None && assembled.header == None && assembled.body == None
      ensures assembled.fullURL == "" && assembled.json == []
      ensures HoldsIfSet(Q(assembled), "language_code", StrOpt(languageCode))
      ensures Q(assembled).Keys <= {"language_code"}
      ensures var o := c.Outcome(assembled, opts);
        err == o.1 && res == (if o.1.Some? then None else o.0)
    {
      var r := Assemble();
      assembled := r.Fields();
      var data, e := c.CallAPI(r, opts);
      PlanOnly();
      PlanLanguageCode();
      if e.Some? {
        return assembled, None, e;
      }
      res, err := data, None;
    }
  }

  /** `SetMyDescriptionService`: a GET request to `/setMyDescription`. */
  class SetMyDescriptionService {
    const c: Client
    var description: Option<string>
    var languageCode: Option<string>

    /** `NewSetMyDescriptionService`: every field starts out unset. */
    constructor (c: Client)
      ensures this.c == c
      ensures description == None && languageCode == None
    {
      this.c := c;
      description := None;
      languageCode := None;
    }

    /** `Description`: stores its argument in `description`. */
    method Description(description: string) returns (t: SetMyDescriptionService)
      modifies this`description
      ensures this.description == Some(description) && t == this
    {
      this.description := Some(description);
      t := this;
    }

    /** `LanguageCode`: stores its argument in `languageCode`. */
    method LanguageCode(languageCode: string) returns (t: SetMyDescriptionService)
      modifies this`languageCode
      ensures this.languageCode == Some(languageCode) && t == this
    {
      this.languageCode := Some(languageCode);
      t := this;
    }

    /** The `setParam` calls `Do` makes, in order; a call that is skipped because its
        field is unset has value `None`. */
    ghost function Plan(): Writes
      reads this
    {
      var w1 := Then(NoWrites, "description", StrOpt(description));
      var w2 := Then(w1, "language_code", StrOpt(languageCode));
      w2
    }

    /** The value the calls leave at `description`. */
    lemma PlanDescription()
      ensures HoldsIfSet(OrEmpty(Written(Plan())), "description", StrOpt(description))
    {
      var w0 := NoWrites;
      var w1 := Then(w0, "description", StrOpt(description));
      var w2 := Then(w1, "language_code", StrOpt(languageCode));
      LastSetOther(w1, "language_code", StrOpt(languageCode), "description");
      WrittenLastSet(w2, "description");
    }

    /** The value the calls leave at `language_code`. */
    lemma PlanLanguageCode()
      ensures HoldsIfSet(OrEmpty(Written(Plan())), "language_code", StrOpt(languageCode))
    {
      var w0 := NoWrites;
      var w1 := Then(w0, "description", StrOpt(description));
      var w2 := Then(w1, "language_code", StrOpt(languageCode));
      LastSetOther(w0, "description", StrOpt(description), "language_code");
      WrittenLastSet(w2, "language_code");
    }

    /** The calls write no key but these. */
    lemma PlanOnly()
      ensures OrEmpty(Written(Plan())).Keys <= {"description", "language_code"}
    {
      var w0 := NoWrites;
      var w1 := Then(w0, "description", StrOpt(description));
      var w2 := Then(w1, "language_code", StrOpt(languageCode));
      forall j | j !in {"description", "language_code"}
        ensures j !in OrEmpty(Written(w2))
      {
        LastSetOther(w0, "description", StrOpt(description), j);
        LastSetOther(w1, "language_code", StrOpt(languageCode), j);
        WrittenLastSet(w2, j);
      }
    }

    /** The request `Do` builds before it calls the API: the endpoint, and a query made
        by the `setParam` calls of `Plan`. */
    method Assemble() returns (r: Request)
      ensures fresh(r)
      ensures r.Fields() == RequestFields(MethodGet, "/setMyDescription", Written(Plan()), None, None, None, "", [])
    {
      r := new Request(MethodGet, "/setMyDescription");
      ghost var done := NoWrites;
      var _ := r.SetParamIfSet("description", StrOpt(description), done);
      done := Then(done, "description", StrOpt(description));
      var _ := r.SetParamIfSet("language_code", StrOpt(languageCode), done);
      done := Then(done, "language_code", StrOpt(languageCode));
      assert done == Plan();
    }

    /** `Do`: Sets each of the other keys only when its field is set; then calls the API. */
    method Do(opts: seq<RequestOption>) returns (assembled: RequestFields, res: Option<Bytes>, err: Option<Error>)
      ensures assembled.httpMethod == MethodGet && assembled.endpoint == "/setMyDescription"
      ensures assembled.form == None && assembled.header == None && assembled.body == None
      ensures assembled.fullURL == "" && assembled.json == []
      ensures HoldsIfSet(Q(assembled), "description", StrOpt(description))
      ensures HoldsIfSet(Q(assembled), "language_code", StrOpt(languageCode))
      ensures Q(assembled).Keys <= {"description", "language_code"}
      ensures var o := c.Outcome(assembled, opts);
        err == o.1 && res == (if o.1.Some? then None else o.0)
    {
      var r := Assemble();
      assembled := r.Fields();
      var data, e := c.CallAPI(r, opts);
      PlanOnly();
      PlanDescription();
      PlanLanguageCode();
      if e.Some? {
        return assembled, None, e;
      }
      res, err := data, None;
    }
  }

  /** `GetMyDescriptionService`: a GET request to `/getMyDescription`. */
  class GetMyDescriptionService {
    const c: Client
    var languageCode: Option<string>

    /** `NewGetMyDescriptionService`: every field starts out unset. */
    constructor (c: Client)
      ensures this.c == c
      ensures languageCode == None
    {
      this.c := c;
      languageCode := None;
    }

    /** `LanguageCode`: stores its argument in `languageCode`. */
    method LanguageCode(languageCode: string) returns (t: GetMyDescriptionService)
      modifies this`languageCode
      ensures this.languageCode == Some(languageCode) && t == this
    {
      this.languageCode := Some(languageCode);
      t := this;
    }

    /** The `setParam` calls `Do` makes, in order; a call that is skipped because its
        field is unset has value `None`. */
    ghost function Plan(): Writes
      reads this
    {
      var w1 := Then(NoWrites, "language_code", StrOpt(languageCode));
      w1
    }

    /** The value the calls leave at `language_code`. */
    lemma PlanLanguageCode()
      ensures HoldsIfSet(OrEmpty(Written(Plan())), "language_code", StrOpt(languageCode))
    {
      var w0 := NoWrites;
      var w1 := Then(w0, "language_code", StrOpt(languageCode));
      WrittenLastSet(w1, "language_code");
    }

    /** The calls write no key but these. */
    lemma PlanOnly()
      ensures OrEmpty(Written(Plan())).Keys <= {"language_code"}
    {
      var w0 := NoWrites;
      var w1 := Then(w0, "language_code", StrOpt(languageCode));
      forall j | j !in {"language_code"}
        ensures j !in OrEmpty(Written(w1))
      {
        LastSetOther(w0, "language_code", StrOpt(languageCode), j);
        WrittenLastSet(w1, j);
      }
    }

    /** The request `Do` builds before it calls the API: the endpoint, and a query made
        by the `setParam` calls of `Plan`. */
    method Assemble() returns (r: Request)
      ensures fresh(r)
      ensures r.Fields() == RequestFields(MethodGet, "/getMyDescription", Written(Plan()), None, None, None, "", [])
    {
      r := new Request(MethodGet, "/getMyDescription");
      ghost var done := NoWrites;
      var _ := r.SetParamIfSet("language_code", StrOpt(languageCode), done);
      done := Then(done, "language_code", StrOpt(languageCode));
      assert done == Plan();
    }

    /** `Do`: Sets each of the other keys only when its field is set; then calls the API. */
    method Do(opts: seq<RequestOption>) returns (assembled: RequestFields, res: Option<Bytes>, err: Option<Error>)
      ensures assembled.httpMethod == MethodGet && assembled.endpoint == "/getMyDescription"
      ensures assembled.form == None && assembled.header == None && assembled.body == None
      ensures assembled.fullURL == "" && assembled.json == []
      ensures HoldsIfSet(Q(assembled), "language_code", StrOpt(languageCode))
      ensures Q(assembled).Keys <= {"language_code"}
      ensures var o := c.Outcome(assembled, opts);
        err == o.1 && res == (if o.1.Some? then None else o.0)
    {
      var r := Assemble();
      assembled := r.Fields();
      var data, e := c.CallAPI(r, opts);
      PlanOnly();
      PlanLanguageCode();
      if e.Some? {
        return assembled, None, e;
      }
      res, err := data, None;
    }
  }

  /** `SetMyShortDescriptionService`: a GET request to `/setMyShortDescription`. */
  class SetMyShortDescriptionService {
    const c: Client
    var shortDescription: Option<string>
    var languageCode: Option<string>

    /** `NewSetMyShortDescriptionService`: every field starts out unset. */
    constructor (c: Client)
      ensures this.c == c
      ensures shortDescription == None && languageCode == None
    {
      this.c := c;
      shortDescription := None;
      languageCode := None;
    }

    /** `ShortDescription`: stores its argument in `shortDescription`. */
    method ShortDescription(shortDescription: string) returns (t: SetMyShortDescriptionService)
      modifies this`shortDescription
      ensures this.shortDescription == Some(shortDescription) && t == this
    {
      this.shortDescription := Some(shortDescription);
      t := this;
    }

    /** `LanguageCode`: stores its argument in `languageCode`. */
    method LanguageCode(languageCode: string) returns (t: SetMyShortDescriptionService)
      modifies this`languageCode
      ensures this.languageCode == Some(languageCode) && t == this
    {
      this.languageCode := Some(languageCode);
      t := this;
    }

    /** The `setParam` calls `Do` makes, in order; a call that is skipped because its
        field is unset has value `None`. */
    ghost function Plan(): Writes
      reads this
    {
      var w1 := Then(NoWrites, "short_description", StrOpt(shortDescription));
      var w2 := Then(w1, "language_code", StrOpt(languageCode));
      w2
    }

    /** The value the calls leave at `short_description`. */
    lemma PlanShortDescription()
      ensures HoldsIfSet(OrEmpty(Written(Plan())), "short_description", StrOpt(shortDescription))
    {
      var w0 := NoWrites;
      var w1 := Then(w0, "short_description", StrOpt(shortDescription));
      var w2 := Then(w1, "language_code", StrOpt(languageCode));
      LastSetOther(w1, "language_code", StrOpt(languageCode), "short_description");
      WrittenLastSet(w2, "short_description");
    }

    /** The value the calls leave at `language_code`. */
    lemma PlanLanguageCode()
      ensures HoldsIfSet(OrEmpty(Written(Plan())), "language_code", StrOpt(languageCode))
    {
      var w0 := NoWrites;
      var w1 := Then(w0, "short_description", StrOpt(shortDescription));
      var w2 := Then(w1, "language_code", StrOpt(languageCode));
      LastSetOther(w0, "short_description", StrOpt(shortDescription), "language_code");
      WrittenLastSet(w2, "language_code");
    }

    /** The calls write no key but these. */
    lemma PlanOnly()
      ensures OrEmpty(Written(Plan())).Keys <= {"short_description", "language_code"}
    {
      var w0 := NoWrites;
      var w1 := Then(w0, "short_description", StrOpt(shortDescription));
      var w2 := Then(w1, "language_code", StrOpt(languageCode));
      forall j | j !in {"short_description", "language_code"}
        ensures j !in OrEmpty(Written(w2))
      {
        LastSetOther(w0, "short_description", StrOpt(shortDescription), j);
        LastSetOther(w1, "language_code", StrOpt(languageCode), j);
        WrittenLastSet(w2, j);
      }
    }

    /** The request `Do` builds before it calls the API: the endpoint, and a query made
        by the `setParam` calls of `Plan`. */
    method Assemble() returns (r: Request)
      ensures fresh(r)
      ensures r.Fields() == RequestFields(MethodGet, "/setMyShortDescription", Written(Plan()), None, None, None, "", [])
    {
      r := new Request(MethodGet, "/setMyShortDescription");
      ghost var done := NoWrites;
      var _ := r.SetParamIfSet("short_description", StrOpt(shortDescription), done);
      done := Then(done, "short_description", StrOpt(shortDescription));
      var _ := r.SetParamIfSet("language_code", StrOpt(languageCode), done);
      done := Then(done, "language_code", StrOpt(languageCode));
      assert done == Plan();
    }

    /** `Do`: Sets each of the other keys only when its field is set; then calls the API. */
    method Do(opts: seq<RequestOption>) returns (assembled: RequestFields, res: Option<Bytes>, err: Option<Error>)
      ensures assembled.httpMethod == MethodGet && assembled.endpoint == "/setMyShortDescription"
      ensures assembled.form == None && assembled.header == None && assembled.body == None
      ensures assembled.fullURL == "" && assembled.json == []
      ensures HoldsIfSet(Q(assembled), "short_description", StrOpt(shortDescription))
      ensures HoldsIfSet(Q(assembled), "language_code", StrOpt(languageCode))
      ensures Q(assembled).Keys <= {"short_description", "language_code"}
      ensures var o := c.Outcome(assembled, opts);
        err == o.1 && res == (if o.1.Some? then None else o.0)
    {
      var r := Assemble();
      assembled := r.Fields();
      var data, e := c.CallAPI(r, opts);
      PlanOnly();
      PlanShortDescription();
      PlanLanguageCode();
      if e.Some? {
        return assembled, None, e;
      }
      res, err := data, None;
    }
  }

  /** `GetMyShortDescriptionService`: a GET request to `/getMyShortDescription`. */
  class GetMyShortDescriptionService {
    const c: Client
    var languageCode: Option<string>

    /** `NewGetMyShortDescriptionService`: every field starts out unset. */
    constructor (c: Client)
      ensures this.c == c
      ensures languageCode == None
    {
      this.c := c;
      languageCode := None;
    }

    /** `LanguageCode`: stores its argument in `languageCode`. */
    method LanguageCode(languageCode: string) returns (t: GetMyShortDescriptionService)
      modifies this`languageCode
      ensures this.languageCode == Some(languageCode) && t == this
    {
      this.languageCode := Some(languageCode);
      t := this;
    }

    /** The `setParam` calls `Do` makes, in order; a call that is skipped because its
        field is unset has value `None`. */
    ghost function Plan(): Writes
      reads this
    {
      var w1 := Then(NoWrites, "language_code", StrOpt(languageCode));
      w1
    }

    /** The value the calls leave at `language_code`. */
    lemma PlanLanguageCode()
      ensures HoldsIfSet(OrEmpty(Written(Plan())), "language_code", StrOpt(languageCode))
    {
      var w0 := NoWrites;
      var w1 := Then(w0, "language_code", StrOpt(languageCode));
      WrittenLastSet(w1, "language_code");
    }

    /** The calls write no key but these. */
    lemma PlanOnly()
      ensures OrEmpty(Written(Plan())).Keys <= {"language_code"}
    {
      var w0 := NoWrites;
      var w1 := Then(w0, "language_code", StrOpt(languageCode));
      forall j | j !in {"language_code"}
        ensures j !in OrEmpty(Written(w1))
      {
        LastSetOther(w0, "language_code", StrOpt(languageCode), j);
        WrittenLastSet(w1, j);
      }
    }

    /** The request `Do` builds before it calls the API: the endpoint, and a query made
        by the `setParam` calls of `Plan`. */
    method Assemble() returns (r: Request)
      ensures fresh(r)
      ensures r.Fields() == RequestFields(MethodGet, "/getMyShortDescription", Written(Plan()), None, None, None, "", [])
    {
      r := new Request(MethodGet, "/getMyShortDescription");
      ghost var done := NoWrites;
      var _ := r.SetParamIfSet("language_code", StrOpt(languageCode), done);
      done := Then(done, "language_code", StrOpt(languageCode));
      assert done == Plan();
    }

    /** `Do`: Sets each of the other keys only when its field is set; then calls the API. */
    method Do(opts: seq<RequestOption>) returns (assembled: RequestFields, res: Option<Bytes>, err: Option<Error>)
      ensures assembled.httpMethod == MethodGet && assembled.endpoint == "/getMyShortDescription"
      ensures assembled.form == None && assembled.header == None && assembled.body == None
      ensures assembled.fullURL == "" && assembled.json == []
      ensures HoldsIfSet(Q(assembled), "language_code", StrOpt(languageCode))
      ensures Q(assembled).Keys <= {"language_code"}
      ensures var o := c.Outcome(assembled, opts);
        err == o.1 && res == (if o.1.Some? then None else o.0)
    {
      var r := Assemble();
      assembled := r.Fields();
      var data, e := c.CallAPI(r, opts);
      PlanOnly();
      PlanLanguageCode();
      if e.Some? {
        return assembled, None, e;
      }
      res, err := data, None;
    }
  }
}
