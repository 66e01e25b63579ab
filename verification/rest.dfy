/** The transport boundary. A request is a method, a URL and a map of
    key/value parameters (query string for GET, JSON body for POST); the
    transport itself is an oracle from a request to a response. */
module Rest {
  import opened Wrappers

  /** `TwitchAlertsAPI.RESTUri`. */
  const RestUri := "https://streamlabs.com/api/v1.0/"

  /** `GetSpecificUri`: the section is appended to the base address verbatim. */
  function SpecificUri(section: string): (uri: string)
    ensures |uri| == |RestUri| + |section|
    ensures uri[..|RestUri|] == RestUri && uri[|RestUri|..] == section
  {
    RestUri + section
  }

  /** Distinct sections address distinct endpoints, and the section can be
      read back from the address. */
  lemma SpecificUriInjective(a: string, b: string)
    ensures SpecificUri(a) == SpecificUri(b) <==> a == b
    ensures SpecificUri(a)[|RestUri|..] == a
  {
    if SpecificUri(a) == SpecificUri(b) {
      assert a == SpecificUri(a)[|RestUri|..] == SpecificUri(b)[|RestUri|..] == b;
    }
  }

  datatype Method = GET | POST

  /** Request parameters by key; a `None` value is a C# null. Every key
      the client sends is distinct, so the order they are added in does
      not matter to the server. */
  type Params = map<string, Option<string>>

  datatype Request = Request(verb: Method, url: string, query: Params, body: Params)

  const StatusOK := 200

  /** What the transport hands back: the HTTP status, the exception it
      caught (if any), the raw body text and the deserialized payload
      (`None` when deserialization produced null). */
  datatype Response<T> = Response(status: int, errorException: Option<string>, content: string, data: Option<T>)

  /** `Dictionary.Add`, which throws on a key already present (and
      `AddParameter`, which the client never calls twice with one key). */
  function Put(ps: Params, key: string, value: Option<string>): Params
    requires key !in ps
  {
    ps[key := value]
  }

  /** A parameter with a non-null value. */
  function Add(ps: Params, key: string, value: string): Params
    requires key !in ps
  {
    Put(ps, key, Some(value))
  }

  /** An optional parameter: added only when the condition holds. */
  function AddIf(ps: Params, condition: bool, key: string, value: string): Params
    requires key !in ps
  {
    if condition then Add(ps, key, value) else ps
  }
}
