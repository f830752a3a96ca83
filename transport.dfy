/** `http_request` and `http_post`: the network round trips. What the exchange
    answers is an oracle fixed when the transport is created; a failed request
    (which the client rescues, prints and turns into nil) is an oracle answer
    of `Null`. Every call is recorded in `log`, in order. */
module Transport {
  import opened OrderedHash
  import opened RubyValues

  datatype Call =
    | GetCall(url: string)                          // HTTP GET, read timeout 600 s
    | PostCall(url: string, headers: Assoc<string>)  // HTTPS POST, empty body

  /** Two calls logged one after the other. */
  lemma AppendTwo(log: seq<Call>, a: Call, b: Call)
    ensures log + [a] + [b] == log + [a, b]
  {
  }

  /** Calls logged in two batches are the calls of both, in order. */
  lemma AppendBatches(log: seq<Call>, a: seq<Call>, b: seq<Call>)
    ensures log + a + b == log + (a + b)
  {
  }

  class Http {
    var log: seq<Call>
    const getResponse: string -> Value
    const postResponse: (string, Assoc<string>) -> Value

    constructor(getResponse: string -> Value, postResponse: (string, Assoc<string>) -> Value)
      ensures log == []
      ensures this.getResponse == getResponse && this.postResponse == postResponse
    {
      log := [];
      this.getResponse := getResponse;
      this.postResponse := postResponse;
    }

    /** `http_request(url)`: GET and parse the JSON body. */
    method Request(url: string) returns (r: Value)
      modifies this`log
      ensures log == old(log) + [GetCall(url)]
      ensures r == getResponse(url)
    {
      log := log + [GetCall(url)];
      r := getResponse(url);
    }

    /** `http_post(url, headers)`: POST with the given headers and parse the JSON body. */
    method Post(url: string, headers: Assoc<string>) returns (r: Value)
      modifies this`log
      ensures log == old(log) + [PostCall(url, headers)]
      ensures r == postResponse(url, headers)
    {
      log := log + [PostCall(url, headers)];
      r := postResponse(url, headers);
    }
  }
}
