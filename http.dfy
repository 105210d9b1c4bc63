/**
 * HTTP responses and header maps as the workers' host platform has them.
 * Header names are case-insensitive: like the Fetch standard's `Headers`
 * object, a header map stores every name lower-cased.
 */
module Http {
  import opened Wrappers
  import opened Text

  /** A response: status, status text, headers (lower-cased names) and body text. */
  datatype Response = Response(status: int, statusText: string, headers: map<string, string>, body: string)

  /** What a worker does with a request: `fetch(request)` to the origin, or a response of its own. */
  datatype Outcome = PassThrough | Respond(response: Response)

  /** `headers.get(name)`. */
  function GetHeader(headers: map<string, string>, name: string): Option<string> {
    if Lower(name) in headers then Some(headers[Lower(name)]) else None
  }

  /** `headers.set(name, value)` on a header map. */
  function SetHeader(headers: map<string, string>, name: string, value: string): (h: map<string, string>)
    ensures GetHeader(h, name) == Some(value)
    ensures forall other :: Lower(other) != Lower(name) ==> GetHeader(h, other) == GetHeader(headers, other)
  {
    headers[Lower(name) := value]
  }

  /**
   * The header map a `headers: { … }` object literal builds. Only literals
   * whose names are distinct up to case are described by it (every literal
   * the workers write is one); for a repeated name the platform would append
   * and combine the values, which this map does not model.
   */
  function HeadersOf(pairs: seq<(string, string)>): (h: map<string, string>)
    ensures h.Keys == set k | 0 <= k < |pairs| :: Lower(pairs[k].0)
  {
    if pairs == [] then map[]
    else
      var init := pairs[..|pairs| - 1];
      var h := HeadersOf(init);
      assert (set k | 0 <= k < |pairs| :: Lower(pairs[k].0))
          == (set k | 0 <= k < |init| :: Lower(init[k].0)) + {Lower(pairs[|pairs| - 1].0)};
      SetHeader(h, pairs[|pairs| - 1].0, pairs[|pairs| - 1].1)
  }

  /** Each entry of a literal header list with distinct names is found with its value. */
  lemma {:induction false} HeadersOfLast(pairs: seq<(string, string)>, k: nat)
    requires k < |pairs|
    requires forall i, j :: 0 <= i < j < |pairs| ==> Lower(pairs[i].0) != Lower(pairs[j].0)
    ensures GetHeader(HeadersOf(pairs), pairs[k].0) == Some(pairs[k].1)
  {
    if k < |pairs| - 1 {
      HeadersOfLast(pairs[..|pairs| - 1], k);
    }
  }

  /** When no two entries name the same header, every entry is found with its value. */
  lemma HeadersOfDistinct(pairs: seq<(string, string)>)
    requires forall j, k :: 0 <= j < k < |pairs| ==> Lower(pairs[j].0) != Lower(pairs[k].0)
    ensures forall k :: 0 <= k < |pairs| ==> GetHeader(HeadersOf(pairs), pairs[k].0) == Some(pairs[k].1)
  {
    forall k | 0 <= k < |pairs|
      ensures GetHeader(HeadersOf(pairs), pairs[k].0) == Some(pairs[k].1)
    {
      HeadersOfLast(pairs, k);
    }
  }

  /** The mutable `Headers` object of a response under construction. */
  class Headers {
    var entries: map<string, string>

    /** `new Headers(init)`: a copy of an existing header map. */
    constructor (init: map<string, string>)
      ensures entries == init
    {
      entries := init;
    }

    /** `headers.set(name, value)`. */
    method Set(name: string, value: string)
      modifies this
      ensures entries == SetHeader(old(entries), name, value)
    {
      entries := SetHeader(entries, name, value);
    }
  }
}

/**
 * The host platform's built-in parsers, which the model does not interpret:
 * `new Date(text)` (a time in milliseconds, or None for an Invalid Date),
 * `new URL(text).protocol === 'https:'` (false also when `new URL` throws)
 * and `new Date(text).toUTCString()` (which yields "Invalid Date" rather
 * than throwing).
 */
module Platform {
  import opened Wrappers

  datatype Builtins = Builtins(
    parseDate: string -> Option<int>,
    isHttpsUrl: string -> bool,
    utcString: string -> string)
}
