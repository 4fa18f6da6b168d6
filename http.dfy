/**
 * What the gateway sends to, and gets back from, the HTTP client library.
 * The network itself is not modelled: a downstream call is described by the
 * request that would be sent and by an `Outcome` supplied from outside.
 */
module Http {
  import opened Wrappers

  newtype byte = x: int | 0 <= x < 256

  /** An ordered string-to-string dictionary: a JSON object of strings, or a header set. */
  type Fields = seq<(string, string)>

  /** The keys of a dictionary, in insertion order. */
  function Names(fs: Fields): (ks: seq<string>)
    ensures |ks| == |fs|
    ensures forall i :: 0 <= i < |fs| ==> ks[i] == fs[i].0
  {
    if fs == [] then [] else [fs[0].0] + Names(fs[1..])
  }

  /** `d.get(key)` on a dictionary whose keys are distinct: the value stored under `key`. */
  function Lookup(fs: Fields, key: string): (r: Option<string>)
    ensures r.None? <==> key !in Names(fs)
    ensures r.Some? ==> (key, r.value) in fs
  {
    if fs == [] then None
    else if fs[0].0 == key then Some(fs[0].1)
    else Lookup(fs[1..], key)
  }

  /** A dictionary literal whose keys are pairwise distinct, as Python's are. */
  predicate DistinctNames(fs: Fields) {
    forall i, j :: 0 <= i < j < |fs| ==> fs[i].0 != fs[j].0
  }

  /** In a dictionary with distinct keys, looking up the i-th key finds the i-th value. */
  lemma {:induction false} LookupAt(fs: Fields, i: nat)
    requires DistinctNames(fs) && i < |fs|
    ensures Lookup(fs, fs[i].0) == Some(fs[i].1)
    decreases i
  {
    if i > 0 {
      assert fs[0].0 != fs[i].0;
      assert fs[1..][i - 1] == fs[i];
      LookupAt(fs[1..], i - 1);
    }
  }

  /** An outgoing request: verb, URL, headers given explicitly, and JSON body. */
  datatype HttpRequest = HttpRequest(verb: string, url: string, headers: Fields, json: Fields)

  /** The failures the HTTP client itself raises instead of returning a response. */
  datatype NetError =
    | Timeout                   // httpx.TimeoutException and its subclasses
    | ConnectFailure            // httpx.ConnectError
    | Other(message: string)    // any other exception, with its str()

  /** What a downstream call does: a response, or a raised client exception. */
  datatype Outcome =
    | Reply(statusCode: int, content: seq<byte>, text: string)
    | Failed(error: NetError)

  /** An exception propagating out of a request builder. */
  datatype Exception =
    | HttpException(statusCode: int, detail: string)   // fastapi.HTTPException
    | Transport(error: NetError)                       // an HTTP client exception, not caught there
}
