/** Parsed API records: an endpoint and the specification that lists them. */
module Types {

  datatype Option<T> = None | Some(value: T)

  /** A parameter or security requirement object of the parsed document, kept as a key-value map. */
  type Record = map<string, string>

  /** Scan configuration (`timeout`, `max_concurrent`, ...). */
  type Config = map<string, int>

  /** One (path, HTTP method) operation. The optional lists are `None` until the parser fills them. */
  datatype Endpoint = Endpoint(
    path: string,
    httpMethod: string,
    parameters: Option<seq<Record>>,
    security: Option<seq<Record>>,
    operationId: Option<string>)

  datatype ApiSpec = ApiSpec(endpoints: seq<Endpoint>, baseUrl: string, title: string, version: string)

  /** The endpoint identity used in findings and failure messages: method, one space, path. */
  function EndpointLabel(e: Endpoint): (s: string)
    ensures |s| == |e.httpMethod| + 1 + |e.path|
    ensures s[..|e.httpMethod|] == e.httpMethod && s[|e.httpMethod|] == ' ' && s[|e.httpMethod| + 1..] == e.path
  {
    e.httpMethod + " " + e.path
  }

  /** Index of the first space in `s`, or `|s|` when there is none. */
  function FirstSpace(s: string): (k: nat)
    ensures k <= |s|
    ensures k < |s| ==> s[k] == ' '
    ensures forall i :: 0 <= i < k ==> s[i] != ' '
  {
    if |s| == 0 then 0 else if s[0] == ' ' then 0 else 1 + FirstSpace(s[1..])
  }

  lemma {:induction false} FirstSpaceOfLabel(m: string, p: string)
    requires ' ' !in m
    ensures FirstSpace(m + " " + p) == |m|
  {
    var s := m + " " + p;
    assert s[|m|] == ' ';
    assert forall i :: 0 <= i < |m| ==> s[i] == m[i];
  }

  /** An HTTP verb never contains a space, so the label determines both method and path. */
  lemma {:induction false} EndpointLabelInjective(e1: Endpoint, e2: Endpoint)
    requires ' ' !in e1.httpMethod && ' ' !in e2.httpMethod
    requires EndpointLabel(e1) == EndpointLabel(e2)
    ensures e1.httpMethod == e2.httpMethod && e1.path == e2.path
  {
    FirstSpaceOfLabel(e1.httpMethod, e1.path);
    FirstSpaceOfLabel(e2.httpMethod, e2.path);
  }
}
