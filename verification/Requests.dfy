/** One request (sequence.py), and the plain sequential decode it must agree with. */
module Requests {
  import opened LanguageModel
  import opened Options

  datatype Status = Waiting | Prefilling | Running | Swapped | Finished

  datatype Request = Request(
    prompt: seq<Token>,
    maxNew: nat,
    eos: Option<Token>,
    stops: set<Token>,
    output: seq<Token>,
    status: Status)

  function History(r: Request): seq<Token> {
    r.prompt + r.output
  }

  function LastToken(r: Request): Token
    requires r.prompt != []
  {
    if r.output != [] then r.output[|r.output| - 1] else r.prompt[|r.prompt| - 1]
  }

  predicate IsStop(r: Request, t: Token) {
    r.eos == Some(t) || t in r.stops
  }

  function AppendToken(r: Request, t: Token): (a: Request) {
    var output := r.output + [t];
    r.(output := output, status := if IsStop(r, t) || |output| >= r.maxNew then Finished else r.status)
  }

  /** The most tokens a request may occupy in the cache, as admission control estimates it. */
  function TotalLenEstimate(r: Request): nat {
    |r.prompt| + r.maxNew
  }

  // ---- the reference ----

  /** Whether sequential decoding stops after n tokens. */
  predicate StopsAt(m: Model, r: Request, n: nat)
    requires r.prompt != []
  {
    n >= 1 && (IsStop(r, Greedy(m, r.prompt, n)[n - 1]) || n >= r.maxNew)
  }

  /** The first length from n on at which sequential decoding stops. */
  function StopLength(m: Model, r: Request, n: nat): (len: nat)
    requires r.prompt != [] && n >= 1
    ensures len >= n && StopsAt(m, r, len)
    ensures forall k | n <= k < len :: !StopsAt(m, r, k)
    decreases r.maxNew - n
  {
    if StopsAt(m, r, n) then n else StopLength(m, r, n + 1)
  }

  /** What generating for this request alone, without a cache, returns: the greedy continuation cut
      at the first end or stop token or at the token limit. */
  function Reference(m: Model, r: Request): seq<Token>
    requires r.prompt != []
  {
    Greedy(m, r.prompt, StopLength(m, r, 1))
  }

  // ---- what holds of every request at every moment ----

  /** The output is the greedy continuation so far, nothing but its last token can stop it, and
      the request is finished exactly when that last token did. */
  ghost predicate OnTrack(m: Model, r: Request) {
    && r.prompt != []
    && r.output == Greedy(m, r.prompt, |r.output|)
    && (forall k | 1 <= k < |r.output| :: !StopsAt(m, r, k))
    && (r.status == Finished <==> StopsAt(m, r, |r.output|))
  }

  /** A fresh request is on track. */
  lemma FreshOnTrack(m: Model, r: Request)
    requires r.prompt != [] && r.output == [] && r.status != Finished
    ensures OnTrack(m, r)
  {
  }

  /** Moving between lists does not touch a request's progress. */
  lemma StatusOnTrack(m: Model, r: Request, status: Status)
    requires OnTrack(m, r) && r.status != Finished && status != Finished
    ensures OnTrack(m, r.(status := status))
  {
    assert forall k | k >= 1 :: StopsAt(m, r.(status := status), k) == StopsAt(m, r, k);
  }

  /** Appending the greedy token keeps a request on track, and finishes it exactly where plain
      decoding would stop. */
  lemma AppendOnTrack(m: Model, r: Request, t: Token)
    requires OnTrack(m, r) && r.status != Finished && t == Next(m, History(r))
    ensures OnTrack(m, AppendToken(r, t))
  {
    var a := AppendToken(r, t);
    var n := |a.output|;
    assert Greedy(m, r.prompt, n) == a.output;
    forall k | 1 <= k < n ensures !StopsAt(m, a, k) {
      assert !StopsAt(m, r, k);
    }
  }

  /** Output is always a prefix of the reference, and all of it once finished. */
  lemma OnTrackIsReference(m: Model, r: Request)
    requires OnTrack(m, r)
    ensures r.output <= Reference(m, r)
    ensures r.status == Finished ==> r.output == Reference(m, r)
    ensures r.status != Finished ==> |r.output| < |Reference(m, r)|
  {
    var len := StopLength(m, r, 1);
    var n := |r.output|;
    assert StopsAt(m, r, len);
    GreedyPrefix(m, r.prompt, n, len);
    assert Greedy(m, r.prompt, len)[..n] == r.output;
  }

  /** The reference really is the cache-free generator's text up to the first stopping point. */
  lemma ReferenceIsCutGreedy(m: Model, r: Request, n: nat)
    requires r.prompt != [] && n >= |Reference(m, r)|
    ensures Reference(m, r) == Greedy(m, r.prompt, n)[..|Reference(m, r)|]
    ensures StopsAt(m, r, |Reference(m, r)|)
    ensures forall j | 0 <= j < |Reference(m, r)| - 1 ::
              !IsStop(r, Greedy(m, r.prompt, n)[j]) && j + 1 < r.maxNew
  {
    var len := |Reference(m, r)|;
    GreedyPrefix(m, r.prompt, len, n);
    forall j | 0 <= j < len - 1 ensures !IsStop(r, Greedy(m, r.prompt, n)[j]) && j + 1 < r.maxNew {
      GreedyPrefix(m, r.prompt, j + 1, n);
      assert !StopsAt(m, r, j + 1);
    }
  }
}
