/** The `Lateral` client of src/index.js: option resolution, token signing,
    URL construction and the interpretation of a response into exactly one
    outcome.  The HTTP exchange and the token signer are parameters: `fetch`
    maps the request the client builds to the response it receives, and the
    signer stands for `jwt.sign(claims, secret, options)`. */
module Client {
  import opened Js
  import opened Errors
  import opened Configuration

  /** `jwt.sign(claims, secret, { expiresIn })`: a token, or what it throws. */
  type Signer = (Value, Value, Value) -> Result<string>

  /** What the client gives the transport: the URL and the Authorization header. */
  datatype Request = Request(url: string, authorization: string)

  /** What the client reads back: `response.ok`, `response.status`, and the
      body as `response.json()` parses it (None when it does not parse). */
  datatype HttpResponse = HttpResponse(ok: bool, status: int, body: Option<Value>)

  /** Where a TypeError arises while a response is interpreted. */
  datatype TypeErrorCause =
    | ServiceErrorOfNothing      // `new ServiceError(undefined)`: an empty `errors` array, or a null entry
    | OperationOfNullBody        // `json.operation` on a body that parsed to null
    | ResultOfNoOperation        // `json.operation.result` when there is no operation

  /** The one way a call ends. */
  datatype Outcome =
    | Benign                               // 404 or 409: resolves to undefined
    | Operation(operation: Value)          // `json.operation`, passed through
    | FalsyResult(result: Value)           // a falsy `operation.result`, returned as it is
    | FunctionResponse(response: Value)    // `operation.result.response`
    | RuntimeFailure(runtimeError: RuntimeError)
    | ServiceFailure(serviceError: ServiceError)
    | TypeFailure(cause: TypeErrorCause)
    | BodyReadFailure                      // `response.json()` rejects on an ok response
    | SignFailure(thrown: Value)           // the signer threw; propagated unwrapped
  {
    predicate Throws() {
      !(Benign? || Operation? || FalsyResult? || FunctionResponse?)
    }

    /** The value the returned promise resolves to. */
    function Resolved(): Value
      requires !Throws()
    {
      match this
      case Benign => Undefined
      case Operation(v) => v
      case FalsyResult(v) => v
      case FunctionResponse(v) => v
    }
  }

  /** `buildOptions(opts)` as a value: `{ async: true, tokenExpiresIn, ...opts }`,
      then `returnOperation` set to the resolved `async` when it is undefined. */
  function ResolvedOptions(tokenExpiresIn: Value, opts: map<string, Value>): (options: map<string, Value>)
    ensures options.Keys == opts.Keys + {"async", "tokenExpiresIn", "returnOperation"}
    ensures options["async"] == if "async" in opts then opts["async"] else Bool(true)
    ensures options["tokenExpiresIn"] == if "tokenExpiresIn" in opts then opts["tokenExpiresIn"] else tokenExpiresIn
    ensures forall k :: k in opts && k != "returnOperation" ==> options[k] == opts[k]
    ensures options["returnOperation"] ==
              if Lookup(opts, "returnOperation") == Undefined then options["async"] else opts["returnOperation"]
  {
    var merged := map["async" := Bool(true), "tokenExpiresIn" := tokenExpiresIn] + opts;
    if Lookup(merged, "returnOperation") == Undefined then merged["returnOperation" := merged["async"]]
    else merged
  }

  /** The resolved options of the three cases that are documented: no options,
      `async: false` alone, and `async: false` with an explicit `returnOperation`. */
  lemma ResolvedOptionsExamples(tokenExpiresIn: Value)
    ensures ResolvedOptions(tokenExpiresIn, map[]) ==
              map["async" := Bool(true), "tokenExpiresIn" := tokenExpiresIn, "returnOperation" := Bool(true)]
    ensures ResolvedOptions(tokenExpiresIn, map["async" := Bool(false)])["returnOperation"] == Bool(false)
    ensures ResolvedOptions(tokenExpiresIn, map["async" := Bool(false), "returnOperation" := Bool(true)])
              ["returnOperation"] == Bool(true)
  {
    var none := ResolvedOptions(tokenExpiresIn, map[]);
    assert none.Keys == {"async", "tokenExpiresIn", "returnOperation"};
  }

  /** The entry used to build the service error (the `error` variable of
      `throwServiceError`): `json.errors[0]`, or the synthesised
      `{ status, title: 'Unhandled Error' }` when the body does not parse or
      reading `errors[0]` throws. */
  function ErrorEntry(response: HttpResponse): (entry: Value)
    ensures var synthesised := Obj(map["status" := Num(response.status), "title" := Str("Unhandled Error")]);
            && (response.body.None? ==> entry == synthesised)
            && (response.body.Some? && Nullish(response.body.value) ==> entry == synthesised)
            && ((response.body.Some? && !Nullish(response.body.value) &&
                 Nullish(Member(response.body.value, "errors"))) ==> entry == synthesised)
            && ((response.body.Some? && !Nullish(response.body.value) &&
                 !Nullish(Member(response.body.value, "errors"))) ==>
                  Some(entry) == First(Member(response.body.value, "errors")))
    ensures Nullish(entry) ==> response.body.Some? && !Nullish(response.body.value) &&
                                !Nullish(Member(response.body.value, "errors"))
  {
    var synthesised := Obj(map["status" := Num(response.status), "title" := Str("Unhandled Error")]);
    match response.body
    case None => synthesised
    case Some(json) =>
      match Read(json, "errors")
      case None => synthesised
      case Some(errors) =>
        match First(errors)
        case None => synthesised
        case Some(entry) => entry
  }

  /** `throwServiceError(response)` always throws: a ServiceError built from the
      entry, or the TypeError of destructuring an undefined or null entry, which
      the `try` does not catch. */
  function ThrowServiceError(response: HttpResponse): (out: Outcome)
    ensures out.Throws()
    ensures out.ServiceFailure? <==> !Nullish(ErrorEntry(response))
    ensures out.ServiceFailure? ==> NewServiceError(ErrorEntry(response)) == Some(out.serviceError)
    ensures !out.ServiceFailure? ==> out == TypeFailure(ServiceErrorOfNothing)
  {
    match NewServiceError(ErrorEntry(response))
    case None => TypeFailure(ServiceErrorOfNothing)
    case Some(e) => ServiceFailure(e)
  }

  /** A body that does not parse, or that has no `errors`, yields the synthesised
      error: status as received, title and message "Unhandled Error". */
  lemma UnreadableErrorBody(response: HttpResponse)
    requires response.body.None? || Nullish(response.body.value) ||
             Nullish(Member(response.body.value, "errors"))
    ensures ThrowServiceError(response) ==
              ServiceFailure(ServiceError(Str("Unhandled Error"), Num(response.status), Str("Unhandled Error")))
  {
  }

  /** An `errors` array whose first entry is neither undefined nor null yields
      the error that entry describes. */
  lemma FirstErrorEntry(response: HttpResponse, fields: map<string, Value>, entries: seq<Value>)
    requires response.body == Some(Obj(fields)) && Lookup(fields, "errors") == Arr(entries)
    requires entries != [] && !Nullish(entries[0])
    ensures ThrowServiceError(response) == ServiceFailure(NewServiceError(entries[0]).value)
  {
  }

  /** An empty `errors` array fails with a TypeError, not a ServiceError. */
  lemma EmptyErrorsArray(response: HttpResponse, fields: map<string, Value>)
    requires response.body == Some(Obj(fields)) && Lookup(fields, "errors") == Arr([])
    ensures ThrowServiceError(response) == TypeFailure(ServiceErrorOfNothing)
  {
  }

  /** A null first entry of `errors` fails with a TypeError as well. */
  lemma NullErrorEntry(response: HttpResponse, fields: map<string, Value>, entries: seq<Value>)
    requires response.body == Some(Obj(fields)) && Lookup(fields, "errors") == Arr(entries)
    requires entries != [] && entries[0] == Null
    ensures ThrowServiceError(response) == TypeFailure(ServiceErrorOfNothing)
  {
  }

  /** `parseResponse(response, options)`: the ordered decision chain. */
  function ParseResponse(response: HttpResponse, options: map<string, Value>): (out: Outcome)
    // 404 and 409 resolve to undefined without the body being read
    ensures !response.ok && (response.status == 404 || response.status == 409) ==> out == Benign
    // every other failure status throws
    ensures !response.ok && response.status != 404 && response.status != 409 ==>
              out == ThrowServiceError(response) && out.Throws()
    // with `returnOperation` truthy the operation is passed through, its result unread
    ensures out.Operation? <==>
              response.ok && Truthy(Lookup(options, "returnOperation")) &&
              response.body.Some? && !Nullish(response.body.value)
    ensures out.Operation? ==> out.operation == Member(response.body.value, "operation")
    // a runtime error needs an ok response and a falsy `returnOperation`
    ensures out.RuntimeFailure? ==> response.ok && !Truthy(Lookup(options, "returnOperation"))
    ensures out.ServiceFailure? ==> !response.ok
    ensures out.BodyReadFailure? <==> response.ok && response.body.None?
    // the TypeErrors of reading through a null body or a missing operation
    ensures out == TypeFailure(OperationOfNullBody) <==>
              response.ok && response.body.Some? && Nullish(response.body.value)
    ensures out == TypeFailure(ResultOfNoOperation) <==>
              response.ok && response.body.Some? && !Nullish(response.body.value) &&
              !Truthy(Lookup(options, "returnOperation")) && Nullish(Member(response.body.value, "operation"))
  {
    if !response.ok then
      if response.status == 404 || response.status == 409 then Benign
      else ThrowServiceError(response)
    else
      match response.body
      case None => BodyReadFailure
      case Some(json) =>
        if Nullish(json) then TypeFailure(OperationOfNullBody)
        else
          var operation := Member(json, "operation");
          if Truthy(Lookup(options, "returnOperation")) then Operation(operation)
          else if Nullish(operation) then TypeFailure(ResultOfNoOperation)
          else
            var result := Member(operation, "result");
            if !Truthy(result) then FalsyResult(result)
            else
              var error := Member(result, "error");
              if Truthy(error) then RuntimeFailure(NewRuntimeError(error).value)
              else FunctionResponse(Member(result, "response"))
  }

  /** With `returnOperation` falsy and an operation present, the result decides:
      a falsy result is returned as that same value, a truthy `result.error`
      throws the RuntimeError built from that error ("name: message", the
      error kept as its source), and otherwise
      `result.response` is returned. */
  lemma OperationResultChain(response: HttpResponse, options: map<string, Value>)
    requires response.ok && response.body.Some? && !Nullish(response.body.value)
    requires !Truthy(Lookup(options, "returnOperation"))
    requires !Nullish(Member(response.body.value, "operation"))
    ensures var result := Member(Member(response.body.value, "operation"), "result");
            var out := ParseResponse(response, options);
            && (!Truthy(result) ==> out == FalsyResult(result))
            && (Truthy(result) && Truthy(Member(result, "error")) ==>
                  out == RuntimeFailure(NewRuntimeError(Member(result, "error")).value) &&
                  out.runtimeError.source == Member(result, "error") &&
                  out.runtimeError.message ==
                    ToStr(Member(Member(result, "error"), "name")) + ": " +
                    ToStr(Member(Member(result, "error"), "message")))
            && (Truthy(result) && !Truthy(Member(result, "error")) ==>
                  out == FunctionResponse(Member(result, "response")))
  {
  }

  /** A response never both resolves and throws; the not-found statuses resolve
      to undefined whatever the body holds. */
  lemma NotFoundResolvesUndefined(status: int, body: Option<Value>, options: map<string, Value>)
    requires status == 404 || status == 409
    ensures !ParseResponse(HttpResponse(false, status, body), options).Throws()
    ensures ParseResponse(HttpResponse(false, status, body), options).Resolved() == Undefined
  {
  }

  /** A 404 resolves to undefined even with `returnOperation` false. */
  lemma NotFoundExample()
    ensures ParseResponse(HttpResponse(false, 404, None), map["returnOperation" := Bool(false)]) == Benign
  {
  }

  /** A 500 whose body carries `{status: 500, title: "Boom", message: "bad"}`
      throws a ServiceError with message "Boom: bad". */
  lemma ServiceErrorExample()
    ensures var entry := Obj(map["status" := Num(500), "title" := Str("Boom"), "message" := Str("bad")]);
            var out := ParseResponse(HttpResponse(false, 500, Some(Obj(map["errors" := Arr([entry])]))), map[]);
            out.ServiceFailure? && out.serviceError.message == Str("Boom: bad")
  {
    var entry := Obj(map["status" := Num(500), "title" := Str("Boom"), "message" := Str("bad")]);
    var response := HttpResponse(false, 500, Some(Obj(map["errors" := Arr([entry])])));
    assert ErrorEntry(response) == entry;
    ServiceErrorOfStrings(Num(500), "Boom", "bad");
  }

  /** A function that failed with `{name: "TypeError", message: "x is undefined"}`
      throws a RuntimeError with message "TypeError: x is undefined". */
  lemma RuntimeErrorExample()
    ensures var error := Obj(map["name" := Str("TypeError"), "message" := Str("x is undefined")]);
            var body := Obj(map["operation" := Obj(map["result" := Obj(map["error" := error])])]);
            var out := ParseResponse(HttpResponse(true, 200, Some(body)), map["returnOperation" := Bool(false)]);
            out.RuntimeFailure? && out.runtimeError.message == "TypeError: x is undefined"
  {
    var error := Obj(map["name" := Str("TypeError"), "message" := Str("x is undefined")]);
    var result := Obj(map["error" := error]);
    var operation := Obj(map["result" := result]);
    var body := Obj(map["operation" := operation]);
    var response, options := HttpResponse(true, 200, Some(body)), map["returnOperation" := Bool(false)];
    assert Member(body, "operation") == operation && Member(operation, "result") == result;
    assert Member(result, "error") == error && Lookup(options, "returnOperation") == Bool(false);
    OperationResultChain(response, options);
    assert Member(error, "name") == Str("TypeError") && Member(error, "message") == Str("x is undefined");
  }

  /** A function that answered `{ok: 1}` resolves to that answer. */
  lemma FunctionResponseExample()
    ensures var answer := Obj(map["ok" := Num(1)]);
            var body := Obj(map["operation" := Obj(map["result" := Obj(map["response" := answer])])]);
            ParseResponse(HttpResponse(true, 200, Some(body)), map["returnOperation" := Bool(false)]) ==
              FunctionResponse(answer)
  {
  }

  /** The path of the cloud-function endpoints, and the query key of a run URL. */
  const RunRoute := "/api/cloud_functions/by_event/"
  const AsyncQuery := "/run?async="

  /** The keys `run` takes out of its argument; the rest are its options. */
  const RunArguments: set<string> := {"account", "event", "data"}

  /** The expiry `generateEditorURL` signs with: the caller's `tokenExpiresIn`,
      or "24h" when it is undefined. */
  function EditorExpiry(args: map<string, Value>): (expiresIn: Value)
    ensures expiresIn != Undefined
    ensures Lookup(args, "tokenExpiresIn") == Undefined ==> expiresIn == Str("24h")
    ensures "tokenExpiresIn" in args && args["tokenExpiresIn"] != Undefined ==> expiresIn == args["tokenExpiresIn"]
  {
    if Lookup(args, "tokenExpiresIn") == Undefined then Str("24h") else args["tokenExpiresIn"]
  }

  class Lateral {
    /** `this.config` */
    const config: Config

    /** `new Lateral(supplied)`: a fresh configuration over the shared defaults. */
    constructor (statics: ConfigDefaults, supplied: map<string, Value>)
      requires statics.Valid()
      ensures fresh(config) && config.statics == statics && config.Valid()
      ensures config.config == Layered(statics.defaults, map[], supplied)
    {
      config := new Config(statics, supplied);
    }

    /** `buildOptions(opts)`: builds the options object, then fills in
        `returnOperation` when it is undefined. */
    method BuildOptions(opts: map<string, Value>) returns (options: map<string, Value>)
      ensures options == ResolvedOptions(config.Get(Str("tokenExpiresIn")), opts)
    {
      options := map["async" := Bool(true), "tokenExpiresIn" := config.Get(Str("tokenExpiresIn"))] + opts;
      if Lookup(options, "returnOperation") == Undefined {
        options := options["returnOperation" := options["async"]];
      }
    }

    /** `buildURL(event, options)` */
    function BuildURL(event: Value, options: map<string, Value>): (url: string)
      reads config
    {
      ToStr(config.Get(Str("url"))) + RunRoute + ToStr(event) + AsyncQuery +
      ToStr(Lookup(options, "async"))
    }

    /** The claims `signJWT` signs: issuer the configured `appID`, subject the account. */
    function Claims(account: Value): (claims: Value)
      reads config
      ensures claims.Obj? && claims.fields.Keys == {"iss", "sub"}
      ensures claims.fields["iss"] == config.Get(Str("appID")) && claims.fields["sub"] == account
    {
      Obj(map["iss" := config.Get(Str("appID")), "sub" := account])
    }

    /** `signJWT(account, expiresIn)`: the signer's answer for the claims, the
        configured `appSecret` and `{ expiresIn }`, whatever it throws included. */
    function SignJWT(account: Value, expiresIn: Value, sign: Signer): (r: Result<string>)
      reads config
      ensures r == sign(Obj(map["iss" := config.Get(Str("appID")), "sub" := account]),
                        config.Get(Str("appSecret")), Obj(map["expiresIn" := expiresIn]))
    {
      sign(Claims(account), config.Get(Str("appSecret")), Obj(map["expiresIn" := expiresIn]))
    }

    /** The options `run(args)` resolves: `buildOptions` of the argument without
        `account`, `event` and `data`. */
    function RunOptions(args: map<string, Value>): (options: map<string, Value>)
      reads config
      ensures options.Keys == (args.Keys - RunArguments) + {"async", "tokenExpiresIn", "returnOperation"}
      ensures options["async"] == if "async" in args then args["async"] else Bool(true)
      ensures options["tokenExpiresIn"] ==
                if "tokenExpiresIn" in args then args["tokenExpiresIn"] else config.Get(Str("tokenExpiresIn"))
      ensures options["returnOperation"] ==
                if Lookup(args, "returnOperation") == Undefined then options["async"] else args["returnOperation"]
    {
      ResolvedOptions(config.Get(Str("tokenExpiresIn")), args - RunArguments)
    }

    /** The request `run(args)` sends, or what signing the token threw. */
    function RunRequest(args: map<string, Value>, sign: Signer): (r: Result<Request>)
      reads config
      ensures r.Ok? ==> r.value.url == BuildURL(Lookup(args, "event"), RunOptions(args))
      ensures var signed := SignJWT(Lookup(args, "account"), RunOptions(args)["tokenExpiresIn"], sign);
              && (r.Threw? <==> signed.Threw?)
              && (r.Threw? ==> r.error == signed.error)
              && (r.Ok? ==> r.value.authorization == "Bearer " + signed.value)
    {
      var options := RunOptions(args);
      match SignJWT(Lookup(args, "account"), options["tokenExpiresIn"], sign)
      case Threw(e) => Threw(e)
      case Ok(token) => Ok(Request(BuildURL(Lookup(args, "event"), options), "Bearer " + token))
    }

    /** The outcome of `run(args)` against a transport: a signing failure
        propagates as it was thrown; otherwise the response is interpreted
        with the resolved options. */
    function RunOutcome(args: map<string, Value>, sign: Signer, fetch: Request -> HttpResponse): (out: Outcome)
      reads config
      ensures out.SignFailure? <==> RunRequest(args, sign).Threw?
      ensures out.SignFailure? ==> out.thrown == RunRequest(args, sign).error
      ensures RunRequest(args, sign).Ok? ==> out == ParseResponse(fetch(RunRequest(args, sign).value), RunOptions(args))
    {
      match RunRequest(args, sign)
      case Threw(e) => SignFailure(e)
      case Ok(request) => ParseResponse(fetch(request), RunOptions(args))
    }

    /** `run(args)`: resolve the options, sign, send, interpret. */
    method Run(args: map<string, Value>, sign: Signer, fetch: Request -> HttpResponse) returns (out: Outcome)
      ensures out == RunOutcome(args, sign, fetch)
    {
      var options := BuildOptions(args - RunArguments);
      var token := SignJWT(Lookup(args, "account"), options["tokenExpiresIn"], sign);
      match token {
        case Threw(e) =>
          out := SignFailure(e);
        case Ok(t) =>
          var response := fetch(Request(BuildURL(Lookup(args, "event"), options), "Bearer " + t));
          out := ParseResponse(response, options);
      }
    }

    /** `runAsync(args)`: `run` with `async` forced to true. */
    method RunAsync(args: map<string, Value>, sign: Signer, fetch: Request -> HttpResponse) returns (out: Outcome)
      ensures out == RunOutcome(args["async" := Bool(true)], sign, fetch)
    {
      out := Run(args["async" := Bool(true)], sign, fetch);
    }

    /** `runSync(args)`: `run` with `async` forced to false. */
    method RunSync(args: map<string, Value>, sign: Signer, fetch: Request -> HttpResponse) returns (out: Outcome)
      ensures out == RunOutcome(args["async" := Bool(false)], sign, fetch)
    {
      out := Run(args["async" := Bool(false)], sign, fetch);
    }

    /** `generateEditorURL({ account, tokenExpiresIn = '24h' })`: the base URL,
        "/editor?token=" and the signed token; no request is made, and a
        signing failure propagates as it was thrown. */
    function GenerateEditorURL(args: map<string, Value>, sign: Signer): (r: Result<string>)
      reads config
      ensures r.Threw? <==> SignJWT(Lookup(args, "account"), EditorExpiry(args), sign).Threw?
      ensures r.Threw? ==> r.error == SignJWT(Lookup(args, "account"), EditorExpiry(args), sign).error
    {
      match SignJWT(Lookup(args, "account"), EditorExpiry(args), sign)
      case Threw(e) => Threw(e)
      case Ok(token) => Ok(ToStr(config.Get(Str("url"))) + "/editor?token=" + token)
    }
  }

  /** `runAsync` resolves `async` to true whatever the caller passed; with no
      explicit `returnOperation` that also makes `returnOperation` true. */
  lemma RunAsyncForcesAsync(l: Lateral, args: map<string, Value>)
    ensures var options := l.RunOptions(args["async" := Bool(true)]);
            && options["async"] == Bool(true)
            && options["returnOperation"] ==
                 if Lookup(args, "returnOperation") == Undefined then Bool(true) else args["returnOperation"]
  {
    var opts := args["async" := Bool(true)] - RunArguments;
    assert "async" in opts && opts["async"] == Bool(true);
    assert Lookup(opts, "returnOperation") == Lookup(args, "returnOperation");
  }

  /** `runSync` resolves `async` to false whatever the caller passed; with no
      explicit `returnOperation` that also makes `returnOperation` false. */
  lemma RunSyncForcesSync(l: Lateral, args: map<string, Value>)
    ensures var options := l.RunOptions(args["async" := Bool(false)]);
            && options["async"] == Bool(false)
            && options["returnOperation"] ==
                 if Lookup(args, "returnOperation") == Undefined then Bool(false) else args["returnOperation"]
  {
    var opts := args["async" := Bool(false)] - RunArguments;
    assert "async" in opts && opts["async"] == Bool(false);
    assert Lookup(opts, "returnOperation") == Lookup(args, "returnOperation");
  }

  /** The URL `runAsync` posts to carries `async=true` as its query, after the
      event inserted verbatim. */
  lemma RunAsyncURL(l: Lateral, args: map<string, Value>, sign: Signer)
    requires l.RunRequest(args["async" := Bool(true)], sign).Ok?
    ensures l.RunRequest(args["async" := Bool(true)], sign).value.url ==
              ToStr(l.config.Get(Str("url"))) + "/api/cloud_functions/by_event/" + ToStr(Lookup(args, "event")) +
              "/run?async=true"
  {
    RunAsyncForcesAsync(l, args);
    var forced := args["async" := Bool(true)];
    assert Lookup(forced, "event") == Lookup(args, "event");
    assert l.RunRequest(forced, sign).value.url == l.BuildURL(Lookup(args, "event"), l.RunOptions(forced));
    assert ToStr(Lookup(l.RunOptions(forced), "async")) == "true";
  }

  /** Without a `tokenExpiresIn` of its own, `run` signs for the configured
      one, which a valid configuration always stores. */
  lemma RunDefaultExpiry(l: Lateral, args: map<string, Value>)
    requires l.config.Valid() && "tokenExpiresIn" !in args
    ensures "tokenExpiresIn" in l.config.config
    ensures l.RunOptions(args)["tokenExpiresIn"] == l.config.config["tokenExpiresIn"]
  {
  }

  /** The URL `runSync` posts to carries `async=false` as its query. */
  lemma RunSyncURL(l: Lateral, args: map<string, Value>, sign: Signer)
    requires l.RunRequest(args["async" := Bool(false)], sign).Ok?
    ensures l.RunRequest(args["async" := Bool(false)], sign).value.url ==
              ToStr(l.config.Get(Str("url"))) + "/api/cloud_functions/by_event/" + ToStr(Lookup(args, "event")) +
              "/run?async=false"
  {
    RunSyncForcesSync(l, args);
    var forced := args["async" := Bool(false)];
    assert Lookup(forced, "event") == Lookup(args, "event");
    assert l.RunRequest(forced, sign).value.url == l.BuildURL(Lookup(args, "event"), l.RunOptions(forced));
    assert ToStr(Lookup(l.RunOptions(forced), "async")) == "false";
  }

  /** The event is inserted without encoding, so the URL determines it: two
      event names give the same URL only if they are the same name. */
  lemma BuildURLDeterminesEvent(l: Lateral, event1: string, event2: string, options: map<string, Value>)
    requires l.BuildURL(Str(event1), options) == l.BuildURL(Str(event2), options)
    ensures event1 == event2
  {
    var prefix := ToStr(l.config.Get(Str("url"))) + "/api/cloud_functions/by_event/";
    var async := ToStr(Lookup(options, "async"));
    assert ToStr(Str(event1)) == event1 && ToStr(Str(event2)) == event2;
    CancelFrame(prefix, event1, event2, "/run?async=", async);
  }

  /** A run URL reads back as its four parts: the configured base URL, the
      cloud-function route, the event name verbatim and the `async` query. */
  lemma BuildURLParts(l: Lateral, event: Value, options: map<string, Value>)
    ensures var base, name, query := ToStr(l.config.Get(Str("url"))), ToStr(event),
                                     AsyncQuery + ToStr(Lookup(options, "async"));
            var url := l.BuildURL(event, options);
            && |url| == |base| + |RunRoute| + |name| + |query|
            && url[..|base|] == base
            && url[|base|..|base| + |RunRoute|] == RunRoute
            && url[|base| + |RunRoute|..|base| + |RunRoute| + |name|] == name
            && url[|base| + |RunRoute| + |name|..] == query
  {
    var base, name, async := ToStr(l.config.Get(Str("url"))), ToStr(event), ToStr(Lookup(options, "async"));
    BuildURLRegrouped(l, event, options);
    FourParts(l.BuildURL(event, options), base, RunRoute, name, AsyncQuery + async);
  }

  /** `buildURL`'s concatenation with the `async` query taken as one part. */
  lemma BuildURLRegrouped(l: Lateral, event: Value, options: map<string, Value>)
    ensures l.BuildURL(event, options) ==
              ToStr(l.config.Get(Str("url"))) + RunRoute + ToStr(event) + (AsyncQuery + ToStr(Lookup(options, "async")))
  {
    var head, async := ToStr(l.config.Get(Str("url"))) + RunRoute + ToStr(event), ToStr(Lookup(options, "async"));
    assert head + AsyncQuery + async == head + (AsyncQuery + async);
  }

  /** The parts of a four-part concatenation can be read back by their lengths. */
  lemma FourParts(w: string, a: string, b: string, c: string, d: string)
    requires w == a + b + c + d
    ensures |w| == |a| + |b| + |c| + |d|
    ensures w[..|a|] == a && w[|a|..|a| + |b|] == b
    ensures w[|a| + |b|..|a| + |b| + |c|] == c && w[|a| + |b| + |c|..] == d
  {
    var abc := a + b + c;
    assert w[..|abc|] == abc;
    assert abc[..|a| + |b|] == a + b;
    assert (a + b)[..|a|] == a;
  }

  /** Strings framed alike are equal when the framed strings are. */
  lemma CancelFrame(prefix: string, middle1: string, middle2: string, infix: string, suffix: string)
    requires prefix + middle1 + infix + suffix == prefix + middle2 + infix + suffix
    ensures middle1 == middle2
  {
    var whole1, whole2 := prefix + middle1 + infix + suffix, prefix + middle2 + infix + suffix;
    assert |middle1| == |middle2|;
    assert whole1[|prefix|..|prefix| + |middle1|] == middle1;
    assert whole2[|prefix|..|prefix| + |middle2|] == middle2;
  }

  /** An editor URL is the base URL, "/editor?token=" and the signed token, so
      the token can be read back from its end. */
  lemma EditorURLCarriesToken(l: Lateral, args: map<string, Value>, sign: Signer)
    requires l.SignJWT(Lookup(args, "account"), EditorExpiry(args), sign).Ok?
    ensures var base, token := ToStr(l.config.Get(Str("url"))),
                               l.SignJWT(Lookup(args, "account"), EditorExpiry(args), sign).value;
            var url := l.GenerateEditorURL(args, sign).value;
            l.GenerateEditorURL(args, sign).Ok? &&
            url[..|base|] == base && url[|base|..|base| + 14] == "/editor?token=" && url[|base| + 14..] == token
  {
  }

  /** Without a `tokenExpiresIn` the editor token is signed for "24h"; an
      explicit null is passed on as it is. */
  lemma EditorURLDefaultExpiry(l: Lateral, args: map<string, Value>, sign: Signer)
    requires "tokenExpiresIn" !in args
    ensures l.GenerateEditorURL(args, sign) == l.GenerateEditorURL(args["tokenExpiresIn" := Str("24h")], sign)
    ensures EditorExpiry(args["tokenExpiresIn" := Null]) == Null
  {
    assert Lookup(args["tokenExpiresIn" := Str("24h")], "account") == Lookup(args, "account");
  }

  /** The only thing the signer is asked is the triple of claims
      `{iss: appID, sub: account}`, the configured secret and `{expiresIn}`:
      two signers that agree on it give the same editor URL. */
  lemma EditorURLSignsClaims(l: Lateral, args: map<string, Value>, sign1: Signer, sign2: Signer)
    requires var claims := Obj(map["iss" := l.config.Get(Str("appID")), "sub" := Lookup(args, "account")]);
             sign1(claims, l.config.Get(Str("appSecret")), Obj(map["expiresIn" := EditorExpiry(args)])) ==
             sign2(claims, l.config.Get(Str("appSecret")), Obj(map["expiresIn" := EditorExpiry(args)]))
    ensures l.GenerateEditorURL(args, sign1) == l.GenerateEditorURL(args, sign2)
  {
  }

  /** The signer `run` consults is asked only about `{iss: appID, sub: account}`,
      the configured secret and `{expiresIn}` with the resolved expiry: two
      signers that agree on that send the same request. */
  lemma RunSignsClaims(l: Lateral, args: map<string, Value>, sign1: Signer, sign2: Signer)
    requires var claims := Obj(map["iss" := l.config.Get(Str("appID")), "sub" := Lookup(args, "account")]);
             var expiry := Obj(map["expiresIn" := l.RunOptions(args)["tokenExpiresIn"]]);
             sign1(claims, l.config.Get(Str("appSecret")), expiry) == sign2(claims, l.config.Get(Str("appSecret")), expiry)
    ensures l.RunRequest(args, sign1) == l.RunRequest(args, sign2)
  {
  }

  /** `runSync` without an explicit `returnOperation`, on an ok body
      `{operation: {result: {response: answer}}}`, resolves to the answer. */
  lemma RunSyncReturnsResponse(l: Lateral, args: map<string, Value>, sign: Signer,
                               fetch: Request -> HttpResponse, status: int, answer: Value)
    requires Lookup(args, "returnOperation") == Undefined
    requires l.RunRequest(args["async" := Bool(false)], sign).Ok?
    requires fetch(l.RunRequest(args["async" := Bool(false)], sign).value) ==
             HttpResponse(true, status, Some(Obj(map["operation" := Obj(map["result" := Obj(map["response" := answer])])])))
    ensures l.RunOutcome(args["async" := Bool(false)], sign, fetch) == FunctionResponse(answer)
  {
    RunSyncForcesSync(l, args);
  }

  /** `runAsync` without an explicit `returnOperation`, on an ok body holding an
      operation, resolves to that operation without looking at its result. */
  lemma RunAsyncReturnsOperation(l: Lateral, args: map<string, Value>, sign: Signer,
                                 fetch: Request -> HttpResponse, status: int, operation: Value)
    requires Lookup(args, "returnOperation") == Undefined
    requires l.RunRequest(args["async" := Bool(true)], sign).Ok?
    requires fetch(l.RunRequest(args["async" := Bool(true)], sign).value) ==
             HttpResponse(true, status, Some(Obj(map["operation" := operation])))
    ensures l.RunOutcome(args["async" := Bool(true)], sign, fetch) == Operation(operation)
  {
    RunAsyncForcesAsync(l, args);
  }
}
