/**
 * `_summarize_openai_error` (graph.py:199-222): a short, human-readable line
 * from an error payload (`status_code`, `body.error.{message, code, param}`,
 * `message`).
 */
module ErrorSummary {
  import opened Wrappers
  import opened Strings
  import opened Json

  /** `isinstance(x, str) and x`: the string, when it is a non-empty one. */
  function NonEmptyStr(j: Json): Option<string> {
    if j.JStr? && j.s != [] then Some(j.s) else None
  }

  /** The `message`, `code=` and `param=` bits of `body.error`, when it is a dict. */
  function ErrorBits(payload: map<string, Json>): seq<string> {
    var body := Get(payload, "body");
    var err := if body.JObj? then Get(body.fields, "error") else JNull;
    if !err.JObj? then []
    else
      var e := err.fields;
      (match NonEmptyStr(Get(e, "message")) case Some(m) => [m] case None => [])
      + (match NonEmptyStr(Get(e, "code")) case Some(c) => ["code=" + c] case None => [])
      + (match NonEmptyStr(Get(e, "param")) case Some(p) => ["param=" + p] case None => [])
  }

  /** `f"{status}: {core}" if status else core` */
  function WithStatus(status: Json, core: string): string {
    if Truthy(status) then PyStr(status) + ": " + core else core
  }

  /** `_summarize_openai_error(payload)` */
  function Summarize(payload: map<string, Json>): string {
    var status := Or(Get(payload, "status_code"), Get(payload, "response_status"));
    var bits := ErrorBits(payload);
    if bits != [] then WithStatus(status, Join("; ", bits))
    else match NonEmptyStr(Get(payload, "message"))
      case Some(m) => WithStatus(status, m)
      case None => if Truthy(status) then PyStr(status) else "unknown"
  }

  /** The summary is never empty. */
  lemma SummarizeNonEmpty(payload: map<string, Json>)
    ensures Summarize(payload) != []
  {
    var bits := ErrorBits(payload);
    if bits != [] {
      JoinStartsWithFirst("; ", bits);
    }
  }

  /** A truthy status heads the summary. */
  lemma SummarizeStartsWithStatus(payload: map<string, Json>)
    requires Truthy(Or(Get(payload, "status_code"), Get(payload, "response_status")))
    ensures StartsWith(Summarize(payload), PyStr(Or(Get(payload, "status_code"), Get(payload, "response_status"))))
  {
    var status := Or(Get(payload, "status_code"), Get(payload, "response_status"));
    var p := PyStr(status);
    var bits := ErrorBits(payload);
    if bits != [] {
      assert Summarize(payload)[..|p|] == p;
    } else if NonEmptyStr(Get(payload, "message")).Some? {
      assert Summarize(payload)[..|p|] == p;
    }
  }

  /** Without a status, the error body's message, when it has one, is the summary's head. */
  lemma SummarizeLeadsWithBodyMessage(payload: map<string, Json>, m: string)
    requires !Truthy(Or(Get(payload, "status_code"), Get(payload, "response_status")))
    requires Get(payload, "body").JObj? && Get(Get(payload, "body").fields, "error").JObj?
    requires Get(Get(Get(payload, "body").fields, "error").fields, "message") == JStr(m) && m != []
    ensures StartsWith(Summarize(payload), m)
  {
    var bits := ErrorBits(payload);
    assert bits[0] == m;
    JoinStartsWithFirst("; ", bits);
  }

  /** The error body's bits take priority: once there are any, the top-level
      `message` has no effect on the summary. */
  lemma SummarizeBodyOverMessage(payload: map<string, Json>, x: Json)
    requires ErrorBits(payload) != []
    ensures Summarize(payload["message" := x]) == Summarize(payload)
  {
    var p' := payload["message" := x];
    assert Get(p', "body") == Get(payload, "body");
    assert Get(p', "status_code") == Get(payload, "status_code");
    assert Get(p', "response_status") == Get(payload, "response_status");
  }

  /** Without a status and without body bits, the summary is exactly the
      top-level message. */
  lemma SummarizeIsMessage(payload: map<string, Json>, m: string)
    requires !Truthy(Or(Get(payload, "status_code"), Get(payload, "response_status")))
    requires ErrorBits(payload) == [] && Get(payload, "message") == JStr(m) && m != []
    ensures Summarize(payload) == m
  {
  }
}
