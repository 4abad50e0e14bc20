/** The webhook builders (webhook_service.go). */
module WebhookService {
  import opened Values
  import opened Common
  import opened Requests
  import opened Clients

  /** `SetWebhookService`: a GET request to `/setWebhook`. */
  class SetWebhookService {
    const c: Client
    var url: Option<string>
    var certificate: Option<string>
    var ipAddress: Option<string>
    var maxConnections: Option<int64>
    var allowedUpdates: Option<string>
    var dropPendingUpdates: Option<bool>
    var secretToken: Option<string>

    /** `NewSetWebhookService`: every field starts out unset. */
    constructor (c: Client)
      ensures this.c == c
      ensures url == None && certificate == None && ipAddress == None
      ensures maxConnections == None && allowedUpdates == None && dropPendingUpdates == None
      ensures secretToken == None
    {
      this.c := c;
      url := None;
      certificate := None;
      ipAddress := None;
      maxConnections := None;
      allowedUpdates := None;
      dropPendingUpdates := None;
      secretToken := None;
    }

    /** `URL`: stores its argument in `url`. */
    method URL(url: string) returns (t: SetWebhookService)
      modifies this`url
      ensures this.url == Some(url) && t == this
    {
      this.url := Some(url);
      t := this;
    }

    /** `Certificate`: stores the JSON text of its argument in `certificate`. `marshalled` is what
        `jsoniter.Marshal` makes of the argument, `None` when marshalling fails; then
        nothing changes and the result is nil. */
    method Certificate(marshalled: Option<string>) returns (t: SetWebhookService?)
      modifies this`certificate
      ensures marshalled.None? ==> t == null && certificate == old(certificate)
      ensures marshalled.Some? ==> t == this && certificate == marshalled
    {
      if marshalled.None? {
        return null;
      }
      certificate := marshalled;
      t := this;
    }

    /** `IpAddress`: stores its argument in `ipAddress`. */
    method IpAddress(ipAddress: string) returns (t: SetWebhookService)
      modifies this`ipAddress
      ensures this.ipAddress == Some(ipAddress) && t == this
    {
      this.ipAddress := Some(ipAddress);
      t := this;
    }

    /** `MaxConnections`: stores its argument in `maxConnections`. */
    method MaxConnections(maxConnections: int64) returns (t: SetWebhookService)
      modifies this`maxConnections
      ensures this.maxConnections == Some(maxConnections) && t == this
    {
      this.maxConnections := Some(maxConnections);
      t := this;
    }

    /** `AllowedUpdates`: stores its argument in `allowedUpdates`. */
    method AllowedUpdates(allowedUpdates: string) returns (t: SetWebhookService)
      modifies this`allowedUpdates
      ensures this.allowedUpdates == Some(allowedUpdates) && t == this
    {
      this.allowedUpdates := Some(allowedUpdates);
      t := this;
    }

    /** `DropPendingUpdates`: stores its argument in `dropPendingUpdates`. */
    method DropPendingUpdates(dropPendingUpdates: bool) returns (t: SetWebhookService)
      modifies this`dropPendingUpdates
      ensures this.dropPendingUpdates == Some(dropPendingUpdates) && t == this
    {
      this.dropPendingUpdates := Some(dropPendingUpdates);
      t := this;
    }

    /** `SecretToken`: stores its argument in `secretToken`. */
    method SecretToken(secretToken: string) returns (t: SetWebhookService)
      modifies this`secretToken
      ensures this.secretToken == Some(secretToken) && t == this
    {
      this.secretToken := Some(secretToken);
      t := this;
    }

    /** The `setParam` calls `Do` makes, in order; a call that is skipped because its
        field is unset has value `None`. */
    ghost function Plan(): Writes
      reads this
    {
      var w1 := Then(NoWrites, "url", StrOpt(url));
      var w2 := Then(w1, "certificate", StrOpt(certificate));
      var w3 := Then(w2, "ip_address", StrOpt(ipAddress));
      var w4 := Then(w3, "max_connections", IntOpt(maxConnections));
      var w5 := Then(w4, "allowed_updates", StrOpt(allowedUpdates));
      var w6 := Then(w5, "drop_pending_updates", BoolOpt(dropPendingUpdates));
      var w7 := Then(w6, "secret_token", StrOpt(secretToken));
      w7
    }

    /** The value the calls leave at `url`. */
    lemma PlanUrl()
      ensures HoldsIfSet(OrEmpty(Written(Plan())), "url", StrOpt(url))
    {
      var w0 := NoWrites;
      var w1 := Then(w0, "url", StrOpt(url));
      var w2 := Then(w1, "certificate", StrOpt(certificate));
      var w3 := Then(w2, "ip_address", StrOpt(ipAddress));
      var w4 := Then(w3, "max_connections", IntOpt(maxConnections));
      var w5 := Then(w4, "allowed_updates", StrOpt(allowedUpdates));
      var w6 := Then(w5, "drop_pending_updates", BoolOpt(dropPendingUpdates));
      var w7 := Then(w6, "secret_token", StrOpt(secretToken));
      LastSetOther(w1, "certificate", StrOpt(certificate), "url");
      LastSetOther(w2, "ip_address", StrOpt(ipAddress), "url");
      LastSetOther(w3, "max_connections", IntOpt(maxConnections), "url");
      LastSetOther(w4, "allowed_updates", StrOpt(allowedUpdates), "url");
      LastSetOther(w5, "drop_pending_updates", BoolOpt(dropPendingUpdates), "url");
      LastSetOther(w6, "secret_token", StrOpt(secretToken), "url");
      WrittenLastSet(w7, "url");
    }

    /** The value the calls leave at `certificate`. */
    lemma PlanCertificate()
      ensures HoldsIfSet(OrEmpty(Written(Plan())), "certificate", StrOpt(certificate))
    {
      var w0 := NoWrites;
      var w1 := Then(w0, "url", StrOpt(url));
      var w2 := Then(w1, "certificate", StrOpt(certificate));
      var w3 := Then(w2, "ip_address", StrOpt(ipAddress));
      var w4 := Then(w3, "max_connections", IntOpt(maxConnections));
      var w5 := Then(w4, "allowed_updates", StrOpt(allowedUpdates));
      var w6 := Then(w5, "drop_pending_updates", BoolOpt(dropPendingUpdates));
      var w7 := Then(w6, "secret_token", StrOpt(secretToken));
      LastSetOther(w0, "url", StrOpt(url), "certificate");
      LastSetOther(w2, "ip_address", StrOpt(ipAddress), "certificate");
      LastSetOther(w3, "max_connections", IntOpt(maxConnections), "certificate");
      LastSetOther(w4, "allowed_updates", StrOpt(allowedUpdates), "certificate");
      LastSetOther(w5, "drop_pending_updates", BoolOpt(dropPendingUpdates), "certificate");
      LastSetOther(w6, "secret_token", StrOpt(secretToken), "certificate");
      WrittenLastSet(w7, "certificate");
    }

    /** The value the calls leave at `ip_address`. */
    lemma PlanIpAddress()
      ensures HoldsIfSet(OrEmpty(Written(Plan())), "ip_address", StrOpt(ipAddress))
    {
      var w0 := NoWrites;
      var w1 := Then(w0, "url", StrOpt(url));
      var w2 := Then(w1, "certificate", StrOpt(certificate));
      var w3 := Then(w2, "ip_address", StrOpt(ipAddress));
      var w4 := Then(w3, "max_connections", IntOpt(maxConnections));
      var w5 := Then(w4, "allowed_updates", StrOpt(allowedUpdates));
      var w6 := Then(w5, "drop_pending_updates", BoolOpt(dropPendingUpdates));
      var w7 := Then(w6, "secret_token", StrOpt(secretToken));
      LastSetOther(w0, "url", StrOpt(url), "ip_address");
      LastSetOther(w1, "certificate", StrOpt(certificate), "ip_address");
      LastSetOther(w3, "max_connections", IntOpt(maxConnections), "ip_address");
      LastSetOther(w4, "allowed_updates", StrOpt(allowedUpdates), "ip_address");
      LastSetOther(w5, "drop_pending_updates", BoolOpt(dropPendingUpdates), "ip_address");
      LastSetOther(w6, "secret_token", StrOpt(secretToken), "ip_address");
      WrittenLastSet(w7, "ip_address");
    }

    /** The value the calls leave at `max_connections`. */
    lemma PlanMaxConnections()
      ensures HoldsIfSet(OrEmpty(Written(Plan())), "max_connections", IntOpt(maxConnections))
    {
      var w0 := NoWrites;
      var w1 := Then(w0, "url", StrOpt(url));
      var w2 := Then(w1, "certificate", StrOpt(certificate));
      var w3 := Then(w2, "ip_address", StrOpt(ipAddress));
      var w4 := Then(w3, "max_connections", IntOpt(maxConnections));
      var w5 := Then(w4, "allowed_updates", StrOpt(allowedUpdates));
      var w6 := Then(w5, "drop_pending_updates", BoolOpt(dropPendingUpdates));
      var w7 := Then(w6, "secret_token", StrOpt(secretToken));
      LastSetOther(w0, "url", StrOpt(url), "max_connections");
      LastSetOther(w1, "certificate", StrOpt(certificate), "max_connections");
      LastSetOther(w2, "ip_address", StrOpt(ipAddress), "max_connections");
      LastSetOther(w4, "allowed_updates", StrOpt(allowedUpdates), "max_connections");
      LastSetOther(w5, "drop_pending_updates", BoolOpt(dropPendingUpdates), "max_connections");
      LastSetOther(w6, "secret_token", StrOpt(secretToken), "max_connections");
      WrittenLastSet(w7, "max_connections");
    }

    /** The value the calls leave at `allowed_updates`. */
    lemma PlanAllowedUpdates()
      ensures HoldsIfSet(OrEmpty(Written(Plan())), "allowed_updates", StrOpt(allowedUpdates))
    {
      var w0 := NoWrites;
      var w1 := Then(w0, "url", StrOpt(url));
      var w2 := Then(w1, "certificate", StrOpt(certificate));
      var w3 := Then(w2, "ip_address", StrOpt(ipAddress));
      var w4 := Then(w3, "max_connections", IntOpt(maxConnections));
      var w5 := Then(w4, "allowed_updates", StrOpt(allowedUpdates));
      var w6 := Then(w5, "drop_pending_updates", BoolOpt(dropPendingUpdates));
      var w7 := Then(w6, "secret_token", StrOpt(secretToken));
      LastSetOther(w0, "url", StrOpt(url), "allowed_updates");
      LastSetOther(w1, "certificate", StrOpt(certificate), "allowed_updates");
      LastSetOther(w2, "ip_address", StrOpt(ipAddress), "allowed_updates");
      LastSetOther(w3, "max_connections", IntOpt(maxConnections), "allowed_updates");
      LastSetOther(w5, "drop_pending_updates", BoolOpt(dropPendingUpdates), "allowed_updates");
      LastSetOther(w6, "secret_token", StrOpt(secretToken), "allowed_updates");
      WrittenLastSet(w7, "allowed_updates");
    }

    /** The value the calls leave at `drop_pending_updates`. */
    lemma PlanDropPendingUpdates()
      ensures HoldsIfSet(OrEmpty(Written(Plan())), "drop_pending_updates", BoolOpt(dropPendingUpdates))
    {
      var w0 := NoWrites;
      var w1 := Then(w0, "url", StrOpt(url));
      var w2 := Then(w1, "certificate", StrOpt(certificate));
      var w3 := Then(w2, "ip_address", StrOpt(ipAddress));
      var w4 := Then(w3, "max_connections", IntOpt(maxConnections));
      var w5 := Then(w4, "allowed_updates", StrOpt(allowedUpdates));
      var w6 := Then(w5, "drop_pending_updates", BoolOpt(dropPendingUpdates));
      var w7 := Then(w6, "secret_token", StrOpt(secretToken));
      LastSetOther(w0, "url", StrOpt(url), "drop_pending_updates");
      LastSetOther(w1, "certificate", StrOpt(certificate), "drop_pending_updates");
      LastSetOther(w2, "ip_address", StrOpt(ipAddress), "drop_pending_updates");
      LastSetOther(w3, "max_connections", IntOpt(maxConnections), "drop_pending_updates");
      LastSetOther(w4, "allowed_updates", StrOpt(allowedUpdates), "drop_pending_updates");
      LastSetOther(w6, "secret_token", StrOpt(secretToken), "drop_pending_updates");
      WrittenLastSet(w7, "drop_pending_updates");
    }

    /** The value the calls leave at `secret_token`. */
    lemma PlanSecretToken()
      ensures HoldsIfSet(OrEmpty(Written(Plan())), "secret_token", StrOpt(secretToken))
    {
      var w0 := NoWrites;
      var w1 := Then(w0, "url", StrOpt(url));
      var w2 := Then(w1, "certificate", StrOpt(certificate));
      var w3 := Then(w2, "ip_address", StrOpt(ipAddress));
      var w4 := Then(w3, "max_connections", IntOpt(maxConnections));
      var w5 := Then(w4, "allowed_updates", StrOpt(allowedUpdates));
      var w6 := Then(w5, "drop_pending_updates", BoolOpt(dropPendingUpdates));
      var w7 := Then(w6, "secret_token", StrOpt(secretToken));
      LastSetOther(w0, "url", StrOpt(url), "secret_token");
      LastSetOther(w1, "certificate", StrOpt(certificate), "secret_token");
      LastSetOther(w2, "ip_address", StrOpt(ipAddress), "secret_token");
      LastSetOther(w3, "max_connections", IntOpt(maxConnections), "secret_token");
      LastSetOther(w4, "allowed_updates", StrOpt(allowedUpdates), "secret_token");
      LastSetOther(w5, "drop_pending_updates", BoolOpt(dropPendingUpdates), "secret_token");
      WrittenLastSet(w7, "secret_token");
    }

    /** The calls write no key but these. */
    lemma PlanOnly()
      ensures OrEmpty(Written(Plan())).Keys <= {"url", "certificate", "ip_address", "max_connections", "allowed_updates", "drop_pending_updates", "secret_token"}
    {
      var w0 := NoWrites;
      var w1 := Then(w0, "url", StrOpt(url));
      var w2 := Then(w1, "certificate", StrOpt(certificate));
      var w3 := Then(w2, "ip_address", StrOpt(ipAddress));
      var w4 := Then(w3, "max_connections", IntOpt(maxConnections));
      var w5 := Then(w4, "allowed_updates", StrOpt(allowedUpdates));
      var w6 := Then(w5, "drop_pending_updates", BoolOpt(dropPendingUpdates));
      var w7 := Then(w6, "secret_token", StrOpt(secretToken));
      forall j | j !in {"url", "certificate", "ip_address", "max_connections", "allowed_updates", "drop_pending_updates", "secret_token"}
        ensures j !in OrEmpty(Written(w7))
      {
        LastSetOther(w0, "url", StrOpt(url), j);
        LastSetOther(w1, "certificate", StrOpt(certificate), j);
        LastSetOther(w2, "ip_address", StrOpt(ipAddress), j);
        LastSetOther(w3, "max_connections", IntOpt(maxConnections), j);
        LastSetOther(w4, "allowed_updates", StrOpt(allowedUpdates), j);
        LastSetOther(w5, "drop_pending_updates", BoolOpt(dropPendingUpdates), j);
        LastSetOther(w6, "secret_token", StrOpt(secretToken), j);
        WrittenLastSet(w7, j);
      }
    }

    /** The request `Do` builds before it calls the API: the endpoint, and a query made
        by the `setParam` calls of `Plan`. */
    method Assemble() returns (r: Request)
      ensures fresh(r)
      ensures r.Fields() == RequestFields(MethodGet, "/setWebhook", Written(Plan()), None, None, None, "", [])
    {
      r := new Request(MethodGet, "/setWebhook");
      ghost var done := NoWrites;
      var _ := r.SetParamIfSet("url", StrOpt(url), done);
      done := Then(done, "url", StrOpt(url));
      var _ := r.SetParamIfSet("certificate", StrOpt(certificate), done);
      done := Then(done, "certificate", StrOpt(certificate));
      var _ := r.SetParamIfSet("ip_address", StrOpt(ipAddress), done);
      done := Then(done, "ip_address", StrOpt(ipAddress));
      var _ := r.SetParamIfSet("max_connections", IntOpt(maxConnections), done);
      done := Then(done, "max_connections", IntOpt(maxConnections));
      var _ := r.SetParamIfSet("allowed_updates", StrOpt(allowedUpdates), done);
      done := Then(done, "allowed_updates", StrOpt(allowedUpdates));
      var _ := r.SetParamIfSet("drop_pending_updates", BoolOpt(dropPendingUpdates), done);
      done := Then(done, "drop_pending_updates", BoolOpt(dropPendingUpdates));
      var _ := r.SetParamIfSet("secret_token", StrOpt(secretToken), done);
      done := Then(done, "secret_token", StrOpt(secretToken));
      assert done == Plan();
    }

    /** `Do`: Always sets `url`; sets each of the other keys only when its field is set; then calls the API. */
    method Do(opts: seq<RequestOption>) returns (assembled: RequestFields, res: Option<Bytes>, err: Option<Error>)
      requires url.Some?
      ensures assembled.httpMethod == MethodGet && assembled.endpoint == "/setWebhook"
      ensures assembled.form == None && assembled.header == None && assembled.body == None
      ensures assembled.fullURL == "" && assembled.json == []
      ensures Holds(Q(assembled), "url", Str(url.value))
      ensures HoldsIfSet(Q(assembled), "certificate", StrOpt(certificate))
      ensures HoldsIfSet(Q(assembled), "ip_address", StrOpt(ipAddress))
      ensures HoldsIfSet(Q(assembled), "max_connections", IntOpt(maxConnections))
      ensures HoldsIfSet(Q(assembled), "allowed_updates", StrOpt(allowedUpdates))
      ensures HoldsIfSet(Q(assembled), "drop_pending_updates", BoolOpt(dropPendingUpdates))
      ensures HoldsIfSet(Q(assembled), "secret_token", StrOpt(secretToken))
      ensures Q(assembled).Keys <= {"url", "certificate", "ip_address", "max_connections", "allowed_updates", "drop_pending_updates", "secret_token"}
      ensures var o := c.Outcome(assembled, opts);
        err == o.1 && res == (if o.1.Some? then None else o.0)
    {
      var r := Assemble();
      assembled := r.Fields();
      var data, e := c.CallAPI(r, opts);
      PlanOnly();
      PlanUrl();
      PlanCertificate();
      PlanIpAddress();
      PlanMaxConnections();
      PlanAllowedUpdates();
      PlanDropPendingUpdates();
      PlanSecretToken();
      if e.Some? {
        return assembled, None, e;
      }
      res, err := data, None;
    }
  }

  /** `DeleteWebhookService`: a GET request to `/deleteWebhook`. */
  class DeleteWebhookService {
    const c: Client
    var dropPendingUpdates: Option<bool>

    /** `NewDeleteWebhookService`: every field starts out unset. */
    constructor (c: Client)
      ensures this.c == c
      ensures dropPendingUpdates == None
    {
      this.c := c;
      dropPendingUpdates := None;
    }

    /** `DropPendingUpdates`: stores its argument in `dropPendingUpdates`. */
    method DropPendingUpdates(dropPendingUpdates: bool) returns (t: DeleteWebhookService)
      modifies this`dropPendingUpdates
      ensures this.dropPendingUpdates == Some(dropPendingUpdates) && t == this
    {
      this.dropPendingUpdates := Some(dropPendingUpdates);
      t := this;
    }

    /** The `setParam` calls `Do` makes, in order; a call that is skipped because its
        field is unset has value `None`. */
    ghost function Plan(): Writes
      reads this
    {
      var w1 := Then(NoWrites, "drop_pending_updates", BoolOpt(dropPendingUpdates));
      w1
    }

    /** The value the calls leave at `drop_pending_updates`. */
    lemma PlanDropPendingUpdates()
      ensures HoldsIfSet(OrEmpty(Written(Plan())), "drop_pending_updates", BoolOpt(dropPendingUpdates))
    {
      var w0 := NoWrites;
      var w1 := Then(w0, "drop_pending_updates", BoolOpt(dropPendingUpdates));
      WrittenLastSet(w1, "drop_pending_updates");
    }

    /** The calls write no key but these. */
    lemma PlanOnly()
      ensures OrEmpty(Written(Plan())).Keys <= {"drop_pending_updates"}
    {
      var w0 := NoWrites;
      var w1 := Then(w0, "drop_pending_updates", BoolOpt(dropPendingUpdates));
      forall j | j !in {"drop_pending_updates"}
        ensures j !in OrEmpty(Written(w1))
      {
        LastSetOther(w0, "drop_pending_updates", BoolOpt(dropPendingUpdates), j);
        WrittenLastSet(w1, j);
      }
    }

    /** The request `Do` builds before it calls the API: the endpoint, and a query made
        by the `setParam` calls of `Plan`. */
    method Assemble() returns (r: Request)
      ensures fresh(r)
      ensures r.Fields() == RequestFields(MethodGet, "/deleteWebhook", Written(Plan()), None, None, None, "", [])
    {
      r := new Request(MethodGet, "/deleteWebhook");
      ghost var done := NoWrites;
      var _ := r.SetParamIfSet("drop_pending_updates", BoolOpt(dropPendingUpdates), done);
      done := Then(done, "drop_pending_updates", BoolOpt(dropPendingUpdates));
      assert done == Plan();
    }

    /** `Do`: Sets each of the other keys only when its field is set; then calls the API. */
    method Do(opts: seq<RequestOption>) returns (assembled: RequestFields, res: Option<Bytes>, err: Option<Error>)
      ensures assembled.httpMethod == MethodGet && assembled.endpoint == "/deleteWebhook"
      ensures assembled.form == None && assembled.header == None && assembled.body == None
      ensures assembled.fullURL == "" && assembled.json == []
      ensures HoldsIfSet(Q(assembled), "drop_pending_updates", BoolOpt(dropPendingUpdates))
      ensures Q(assembled).Keys <= {"drop_pending_updates"}
      ensures var o := c.Outcome(assembled, opts);
        err == o.1 && res == (if o.1.Some? then None else o.0)
    {
      var r := Assemble();
      assembled := r.Fields();
      var data, e := c.CallAPI(r, opts);
      PlanOnly();
      PlanDropPendingUpdates();
      if e.Some? {
        return assembled, None, e;
      }
      res, err := data, None;
    }
  }

  /** `GetWebhookInfoService`: a GET request to `/getWebhookInfo`. */
  class GetWebhookInfoService {
    const c: Client

    /** `NewGetWebhookInfoService`: every field starts out unset. */
    constructor (c: Client)
      ensures this.c == c
    {
      this.c := c;
    }

    /** The `setParam` calls `Do` makes, in order; a call that is skipped because its
        field is unset has value `None`. */
    ghost function Plan(): Writes
      reads this
    {
      NoWrites
    }

    /** The calls write no key. */
    lemma PlanOnly()
      ensures OrEmpty(Written(Plan())) == map[]
    {
      var w0 := NoWrites;
      forall j
        ensures j !in OrEmpty(Written(w0))
      {
        WrittenLastSet(w0, j);
      }
    }

    /** The request `Do` builds before it calls the API: the endpoint, and a query made
        by the `setParam` calls of `Plan`. */
    method Assemble() returns (r: Request)
      ensures fresh(r)
      ensures r.Fields() == RequestFields(MethodGet, "/getWebhookInfo", Written(Plan()), None, None, None, "", [])
    {
      r := new Request(MethodGet, "/getWebhookInfo");
      ghost var done := NoWrites;
      assert done == Plan();
    }

    /** `Do`: Sets no parameter; then calls the API. */
    method Do(opts: seq<RequestOption>) returns (assembled: RequestFields, res: Option<Bytes>, err: Option<Error>)
      ensures assembled.httpMethod == MethodGet && assembled.endpoint == "/getWebhookInfo"
      ensures assembled.form == None && assembled.header == None && assembled.body == None
      ensures assembled.fullURL == "" && assembled.json == []
      ensures Q(assembled) == map[]
      ensures opts == [] ==> c.Prepared(assembled, opts).fullURL == c.baseURL + "/getWebhookInfo"
      ensures var o := c.Outcome(assembled, opts);
        err == o.1 && res == (if o.1.Some? then None else o.0)
    {
      var r := Assemble();
      assembled := r.Fields();
      var data, e := c.CallAPI(r, opts);
      FinalizeShape(c.baseURL, assembled);
      PlanOnly();
      if e.Some? {
        return assembled, None, e;
      }
      res, err := data, None;
    }
  }
}
