/** The two error classes the client throws (src/errors/service.js and
    src/errors/runtime.js).  `BaseError` is not part of this model: an error
    here carries the value its constructor hands to `BaseError` as `message`,
    and nothing else is assumed about the base class. */
module Errors {
  import opened Js

  /** A service-level failure: what the remote API reported about the request. */
  datatype ServiceError = ServiceError(message: Value, status: Value, title: Value)

  /** A failure of the invoked cloud function itself; `source` is the error
      object the service reported, kept as it was. */
  datatype RuntimeError = RuntimeError(message: string, source: Value)

  /** `new ServiceError(info)`.  The constructor destructures
      `{ status, title, message = '' }`, so None (a TypeError) is the result for
      an undefined or null argument.  A missing message defaults to the empty
      string, which is falsy like a missing one: the message is then `title`
      itself, and otherwise "title: message". */
  function NewServiceError(info: Value): (r: Option<ServiceError>)
    ensures r.None? <==> Nullish(info)
    ensures r.Some? ==> r.value.status == Member(info, "status") && r.value.title == Member(info, "title")
    ensures r.Some? && !Truthy(Member(info, "message")) ==> r.value.message == Member(info, "title")
    ensures r.Some? && Truthy(Member(info, "message")) ==>
              r.value.message == Str(ToStr(Member(info, "title")) + ": " + ToStr(Member(info, "message")))
  {
    if Nullish(info) then None
    else
      var status, title := Member(info, "status"), Member(info, "title");
      var message := if Member(info, "message") == Undefined then Str("") else Member(info, "message");
      Some(ServiceError(if Truthy(message) then Str(ToStr(title) + ": " + ToStr(message)) else title,
                        status, title))
  }

  /** The message rule for the usual shape, string title and string message:
      exactly the title when the message is empty, "title: message" otherwise. */
  lemma ServiceErrorOfStrings(status: Value, title: string, message: string)
    ensures var info := Obj(map["status" := status, "title" := Str(title), "message" := Str(message)]);
            NewServiceError(info) ==
              Some(ServiceError(Str(if message == "" then title else title + ": " + message), status, Str(title)))
  {
  }

  /** Leaving `message` out and passing the empty string build the same error. */
  lemma MissingMessageIsEmptyMessage(fields: map<string, Value>)
    ensures NewServiceError(Obj(fields - {"message"})) == NewServiceError(Obj(fields["message" := Str("")]))
  {
    assert "message" !in (fields - {"message"});
  }

  /** `new RuntimeError(source)`: the message is "name: message" of the source,
      which is kept untouched; None (a TypeError) for an undefined or null source. */
  function NewRuntimeError(source: Value): (r: Option<RuntimeError>)
    ensures r.None? <==> Nullish(source)
    ensures r.Some? ==> r.value.source == source
  {
    if Nullish(source) then None
    else Some(RuntimeError(ToStr(Member(source, "name")) + ": " + ToStr(Member(source, "message")), source))
  }

  /** A runtime error's message splits at the first position after the source's
      name: it begins with the name, then ": ", then the source's message, so
      both parts can be read back from it. */
  lemma RuntimeMessageParts(source: Value)
    requires !Nullish(source)
    ensures var m, name, text := NewRuntimeError(source).value.message,
                                 ToStr(Member(source, "name")), ToStr(Member(source, "message"));
            |m| == |name| + 2 + |text| && m[..|name|] == name && m[|name|..|name| + 2] == ": " &&
            m[|name| + 2..] == text
  {
  }

  /** With an empty message a runtime error still renders the separator, while
      a service error renders its title alone. */
  lemma EmptyMessageSeparator(name: string, title: string, status: Value)
    ensures NewRuntimeError(Obj(map["name" := Str(name), "message" := Str("")])).value.message == name + ": "
    ensures NewServiceError(Obj(map["status" := status, "title" := Str(title), "message" := Str("")])).value.message
            == Str(title)
  {
  }
}
