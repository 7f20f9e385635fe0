/** The network as the data layer sees it through `fetch`: a scripted sequence
    of outcomes, answered one per request, and a log of the URLs requested.
    A script that has run out answers every further request with a transport
    error. */
module Network {
  import opened Json

  /** One answer to `fetch(url)`: a response with its status and its body
      (None when `response.json()` would fail to parse it), or a transport
      error (the rejected promise). */
  datatype Outcome =
    | Resp(status: int, body: Option<Json>)
    | NetErr

  /** `response.ok`. */
  predicate Ok(status: int) {
    200 <= status <= 299
  }

  function Head(script: seq<Outcome>): Outcome {
    if script == [] then NetErr else script[0]
  }

  function Tail(script: seq<Outcome>): (r: seq<Outcome>)
    ensures |r| == if script == [] then 0 else |script| - 1
  {
    if script == [] then [] else script[1..]
  }

  /** The outcome of the `k`-th request made from `script` on. */
  function At(script: seq<Outcome>, k: nat): Outcome {
    if k < |script| then script[k] else NetErr
  }

  /** The script left after `k` requests. */
  function Drop(script: seq<Outcome>, k: nat): (r: seq<Outcome>)
    ensures |r| == if k <= |script| then |script| - k else 0
  {
    if k <= |script| then script[k..] else []
  }

  /** `n` copies of `url`: the log of `n` requests for the same resource. */
  function Repeat(url: string, n: nat): (r: seq<string>)
    ensures |r| == n && forall k | 0 <= k < n :: r[k] == url
  {
    if n == 0 then [] else Repeat(url, n - 1) + [url]
  }

  /** One more request: the next outcome is the `k`-th, and the script moves
      on by one. */
  lemma DropStep(script: seq<Outcome>, k: nat)
    ensures Head(Drop(script, k)) == At(script, k)
    ensures Tail(Drop(script, k)) == Drop(script, k + 1)
  {
  }

  lemma AtTail(script: seq<Outcome>, k: nat)
    ensures At(Tail(script), k) == At(script, k + 1)
  {
  }

  class Net {
    var script: seq<Outcome>
    var sent: seq<string>

    constructor (script: seq<Outcome>)
      ensures this.script == script && sent == []
    {
      this.script := script;
      sent := [];
    }

    /** `fetch(url)`: answers with the next scripted outcome and logs the URL. */
    method Fetch(url: string) returns (o: Outcome)
      modifies this
      ensures o == Head(old(script))
      ensures script == Tail(old(script))
      ensures sent == old(sent) + [url]
    {
      o := Head(script);
      script := Tail(script);
      sent := sent + [url];
    }
  }
}
