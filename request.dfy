/** The per-call request descriptor (`request` in request.go) and the methods that fill
    its parameter maps: `setParam` and `validate` (declared in client.go),
    `setFormParam` and `setFormParams`. */
module Requests {
  import opened Values
  import opened Common
  import QueryEncoding

  type Params = QueryEncoding.Params

  /** `http.Header`: a canonical key to its list of values. */
  type Header = map<string, seq<string>>

  /** A snapshot of every field of a request. */
  datatype RequestFields = RequestFields(
    httpMethod: string,
    endpoint: string,
    query: Option<Params>,
    form: Option<Params>,
    header: Option<Header>,
    body: Option<Bytes>,
    fullURL: string,
    json: Bytes)

  /** `RequestOption`: a caller-supplied change to the request, applied before it is sent. */
  type RequestOption = RequestFields -> RequestFields

  /** A nil map reads as the empty map. */
  function OrEmpty<K, V>(m: Option<map<K, V>>): map<K, V> {
    if m.Some? then m.value else map[]
  }

  /** The effect of applying `opts` one after another, first to last. */
  function ApplyOptions(opts: seq<RequestOption>, f: RequestFields): RequestFields
    decreases |opts|
  {
    if opts == [] then f else opts[|opts| - 1](ApplyOptions(opts[..|opts| - 1], f))
  }

  /** Options compose in the order given: applying `a + b` is applying `a`, then `b`. */
  lemma {:induction false} ApplyOptionsInOrder(a: seq<RequestOption>, b: seq<RequestOption>, f: RequestFields)
    ensures ApplyOptions(a + b, f) == ApplyOptions(b, ApplyOptions(a, f))
    decreases |b|
  {
    if b != [] {
      var ab := a + b;
      var b' := b[..|b| - 1];
      assert ab[..|ab| - 1] == a + b';
      assert ab[|ab| - 1] == b[|b| - 1];
      ApplyOptionsInOrder(a, b', f);
      calc {
        ApplyOptions(ab, f);
        ab[|ab| - 1](ApplyOptions(ab[..|ab| - 1], f));
        b[|b| - 1](ApplyOptions(a + b', f));
        b[|b| - 1](ApplyOptions(b', ApplyOptions(a, f)));
        ApplyOptions(b, ApplyOptions(a, f));
      }
    } else {
      assert a + b == a;
    }
  }

  /** Every value of `m`, rendered with `%v`. */
  function RenderAll(m: map<string, Value>): (p: Params)
    ensures p.Keys == m.Keys
    ensures forall k :: k in m ==> p[k] == Render(m[k])
  {
    map k | k in m :: Render(m[k])
  }

  /** The form after `setFormParams` wrote the keys of `m`: untouched (possibly still nil)
      when `m` is empty, otherwise the old entries overwritten by the rendered ones. */
  function MergeForm(form: Option<Params>, m: map<string, Value>): Option<Params> {
    if m == map[] then form else Some(OrEmpty(form) + RenderAll(m))
  }

  /** After merging, every key of `m` holds its rendered value, and every other key of the
      form keeps the value it had: nothing is removed. */
  lemma MergeFormKeys(form: Option<Params>, m: map<string, Value>)
    requires m != map[]
    ensures var merged := MergeForm(form, m);
      && merged.Some?
      && merged.value.Keys == OrEmpty(form).Keys + m.Keys
      && (forall k :: k in m ==> merged.value[k] == Render(m[k]))
      && (forall k :: k in OrEmpty(form) && k !in m ==> merged.value[k] == OrEmpty(form)[k])
  {
  }

  /** Writing one more entry into a merged form is merging the larger map. */
  lemma MergeFormStep(form: Option<Params>, acc: map<string, Value>, k: string, v: Value)
    ensures OrEmpty(MergeForm(form, acc))[k := Render(v)] == OrEmpty(form) + RenderAll(acc[k := v])
  {
    var lhs := OrEmpty(MergeForm(form, acc))[k := Render(v)];
    var rhs := OrEmpty(form) + RenderAll(acc[k := v]);
    assert lhs.Keys == rhs.Keys;
    forall j | j in lhs
      ensures lhs[j] == rhs[j]
    {
      if j != k && j in acc {
        assert MergeForm(form, acc).value[j] == RenderAll(acc)[j];
      }
    }
  }

  /** The query of a request; nil reads as empty. */
  function Q(f: RequestFields): Params {
    OrEmpty(f.query)
  }

  /** `key` holds the `%v` text of `v`. */
  predicate Holds(q: Params, key: string, v: Value) {
    key in q && q[key] == Render(v)
  }

  /** `key` is present exactly when `o` is set, and then holds its `%v` text. */
  predicate HoldsIfSet(q: Params, key: string, o: Option<Value>) {
    (key in q <==> o.Some?) && (o.Some? ==> q[key] == Render(o.value))
  }

  /** Of two writes to the same key, the later one wins when it happens. */
  function Later(earlier: Option<Value>, later: Option<Value>): Option<Value> {
    if later.Some? then later else earlier
  }

  /** The `setParam` calls of one `Do`, oldest first: `Then(before, key, value)` writes `key`
      when `value` is set and skips the call when it is `None`. */
  datatype Writes = NoWrites | Then(before: Writes, key: string, value: Option<Value>)

  /** The query those calls leave behind on a request whose query starts out nil. */
  function Written(ws: Writes): Option<Params> {
    match ws
    case NoWrites => None
    case Then(before, key, value) =>
      if value.Some? then Some(OrEmpty(Written(before))[key := Render(value.value)]) else Written(before)
  }

  /** The last set value written to `k`, if any. */
  function LastSet(ws: Writes, k: string): Option<Value> {
    match ws
    case NoWrites => None
    case Then(before, key, value) => if key == k && value.Some? then value else LastSet(before, k)
  }

  /** A key of the query holds the `%v` text of the last value set for it, and a key for
      which no value was ever set is absent: later writes overwrite earlier ones. */
  lemma {:induction false} WrittenLastSet(ws: Writes, k: string)
    ensures HoldsIfSet(OrEmpty(Written(ws)), k, LastSet(ws, k))
  {
    match ws
    case NoWrites =>
    case Then(before, key, value) =>
      WrittenLastSet(before, k);
  }

  /** A write to another key does not change what a key holds. */
  lemma LastSetOther(before: Writes, key: string, value: Option<Value>, k: string)
    requires k != key
    ensures LastSet(Then(before, key, value), k) == LastSet(before, k)
  {
  }

  /** A write to the key itself wins when it is set. */
  lemma LastSetSame(before: Writes, key: string, value: Option<Value>)
    ensures LastSet(Then(before, key, value), key) == Later(LastSet(before, key), value)
  {
  }

  /** The descriptor one endpoint call builds, finalizes and sends. */
  class Request {
    var httpMethod: string
    var endpoint: string
    var query: Option<Params>
    var form: Option<Params>
    var header: Option<Header>
    var body: Option<Bytes>
    var fullURL: string
    var json: Bytes

    /** `&request{method: ..., endpoint: ...}`: every other field is nil or empty. */
    constructor (httpMethod: string, endpoint: string)
      ensures Fields() == RequestFields(httpMethod, endpoint, None, None, None, None, "", [])
    {
      this.httpMethod := httpMethod;
      this.endpoint := endpoint;
      query := None;
      form := None;
      header := None;
      body := None;
      fullURL := "";
      json := [];
    }

    function Fields(): RequestFields
      reads this
    {
      RequestFields(httpMethod, endpoint, query, form, header, body, fullURL, json)
    }

    /** Runs one request option on this request. */
    method ApplyOption(opt: RequestOption)
      modifies this
      ensures Fields() == opt(old(Fields()))
    {
      var f := opt(Fields());
      httpMethod, endpoint, query, form := f.httpMethod, f.endpoint, f.query, f.form;
      header, body, fullURL, json := f.header, f.body, f.fullURL, f.json;
    }

    /** Runs the options one after another, first to last. */
    method ApplyEach(opts: seq<RequestOption>)
      modifies this
      ensures Fields() == ApplyOptions(opts, old(Fields()))
    {
      for i := 0 to |opts|
        invariant Fields() == ApplyOptions(opts[..i], old(Fields()))
      {
        assert opts[..i + 1][..i] == opts[..i];
        ApplyOption(opts[i]);
      }
      assert opts[..|opts|] == opts;
    }

    /** `validate`: nil parameter maps become empty ones; it never fails. */
    method Validate() returns (err: Option<Error>)
      modifies this`query, this`form
      ensures query == Some(OrEmpty(old(query)))
      ensures form == Some(OrEmpty(old(form)))
      ensures err == None
    {
      if query.None? {
        query := Some(map[]);
      }
      if form.None? {
        form := Some(map[]);
      }
      err := None;
    }

    /** `setParam`: the query gains `key` with the `%v` text of `value`, replacing any earlier
        value of that key; the query exists afterwards even if it was nil. */
    method SetParam(key: string, value: Value) returns (r: Request)
      modifies this`query
      ensures query == Some(OrEmpty(old(query))[key := Render(value)])
      ensures httpMethod == old(httpMethod) && endpoint == old(endpoint) && form == old(form)
      ensures header == old(header) && body == old(body) && fullURL == old(fullURL) && json == old(json)
      ensures r == this
    {
      var q := if query.Some? then query.value else map[];
      query := Some(q[key := Render(value)]);
      r := this;
    }

    /** One `setParam` call of a `Do`, or the guarded `if value != nil { r.setParam(key, *value) }`
        its optional keys use: nothing is written when `value` is `None` (a required key is
        always passed as set). `done` records the calls made so far; afterwards it records
        this one too, and no other field changes. */
    method SetParamIfSet(key: string, value: Option<Value>, ghost done: Writes) returns (r: Request)
      modifies this`query
      requires query == Written(done)
      ensures Fields() == old(Fields()).(query := Written(Then(done, key, value)))
      ensures r == this
    {
      r := this;
      if value.Some? {
        r := SetParam(key, value.value);
      }
    }

    /** `setFormParam`: the same for the form. */
    method SetFormParam(key: string, value: Value) returns (r: Request)
      modifies this`form
      ensures form == Some(OrEmpty(old(form))[key := Render(value)])
      ensures httpMethod == old(httpMethod) && endpoint == old(endpoint) && query == old(query)
      ensures header == old(header) && body == old(body) && fullURL == old(fullURL) && json == old(json)
      ensures r == this
    {
      var f := if form.Some? then form.value else map[];
      form := Some(f[key := Render(value)]);
      r := this;
    }

    /** `setFormParams`: `marshalled` is what `json.MarshalIndent(m, "", "   ")` produces, or
        `None` when marshalling fails; then nothing changes and the result is nil. Otherwise
        the JSON is kept as the body-to-be and every key of `m` is written into the form,
        in whatever order map iteration visits them. */
    method SetFormParams(m: map<string, Value>, marshalled: Option<Bytes>) returns (r: Request?)
      modifies this`json, this`form
      ensures marshalled.None? ==> r == null && json == old(json) && form == old(form)
      ensures marshalled.Some? ==> r == this && json == marshalled.value && form == MergeForm(old(form), m)
    {
      if marshalled.None? {
        return null;
      }
      json := marshalled.value;
      var todo := m.Keys;
      ghost var written: map<string, Value> := map[];
      while todo != {}
        invariant todo <= m.Keys
        invariant written.Keys == m.Keys - todo
        invariant forall j :: j in written ==> written[j] == m[j]
        invariant json == marshalled.value
        invariant form == MergeForm(old(form), written)
        decreases todo
      {
        var k :| k in todo;
        MergeFormStep(old(form), written, k, m[k]);
        var _ := SetFormParam(k, m[k]);
        written := written[k := m[k]];
        todo := todo - {k};
      }
      assert written == m;
      r := this;
    }
  }
}
