/**
 * The request side of `call_video_processing_api` in app.py: the form
 * fields sent to the prediction endpoint, the fixed authorization header,
 * and how the reply becomes a `{success, data}` or `{success, error}` record.
 * The HTTP exchange itself is a parameter: `post` maps the request to the
 * reply the endpoint gives.
 */
module Prediction {
  import opened Wrappers
  import opened Text

  /** The header sent on every call, whatever key the caller passes. */
  const BearerToken := "Bearer 2e16d307-9c70-4b50-8bc8-4a4953b585bb"

  const MaxPlayerImages := 4
  const MaxJerseyImages := 2

  /** Seconds the call may take. */
  const RequestTimeout := 600

  const PlayerPrefix := "player_image_"
  const JerseyPrefix := "jersey_image_"

  /** The fixed part of the form: the video link, the player's name and the number as decimal text. */
  function BaseForm(videoUrl: string, playerName: string, playerNumber: int): map<string, string>
  {
    map["video_url" := videoUrl, "player_name" := playerName, "player_number" := IntToString(playerNumber)]
  }

  /** `m` after adding `prefix + "1"` ... `prefix + str(n)` for the first `n` links, in order. */
  function Fill(m: map<string, string>, prefix: string, urls: seq<string>, n: nat): map<string, string>
    requires n <= |urls|
  {
    if n == 0 then m else Fill(m, prefix, urls, n - 1)[prefix + NatToString(n) := urls[n - 1]]
  }

  /** The whole form: at most four player links and at most two jersey links, numbered from 1. */
  function Form(videoUrl: string, playerImageUrls: seq<string>, jerseyImageUrls: seq<string>,
                playerName: string, playerNumber: int): map<string, string>
  {
    var players := Take(playerImageUrls, MaxPlayerImages);
    var jerseys := Take(jerseyImageUrls, MaxJerseyImages);
    Fill(Fill(BaseForm(videoUrl, playerName, playerNumber), PlayerPrefix, players, |players|),
         JerseyPrefix, jerseys, |jerseys|)
  }

  /** The headers of the call: only the fixed bearer token. */
  function Headers(apiKey: Option<string>): (h: map<string, string>)
    ensures h.Keys == {"Authorization"} && h["Authorization"] == BearerToken
  {
    map["Authorization" := BearerToken]
  }

  /** The key passed in has no effect on the headers. */
  lemma HeadersIgnoreKey(a: Option<string>, b: Option<string>)
    ensures Headers(a) == Headers(b)
  {
  }

  /** `form_data`, filled by the two numbered loops over the capped link lists. */
  method BuildForm(videoUrl: string, playerImageUrls: seq<string>, jerseyImageUrls: seq<string>,
                   playerName: string, playerNumber: int)
    returns (form: map<string, string>)
    ensures form == Form(videoUrl, playerImageUrls, jerseyImageUrls, playerName, playerNumber)
  {
    var base := BaseForm(videoUrl, playerName, playerNumber);
    form := base;
    var players := Take(playerImageUrls, MaxPlayerImages);
    var idx := 0;
    while idx < |players|
      invariant 0 <= idx <= |players|
      invariant form == Fill(base, PlayerPrefix, players, idx)
    {
      form := form[PlayerPrefix + NatToString(idx + 1) := players[idx]];
      idx := idx + 1;
    }
    var afterPlayers := form;
    var jerseys := Take(jerseyImageUrls, MaxJerseyImages);
    idx := 0;
    while idx < |jerseys|
      invariant 0 <= idx <= |jerseys|
      invariant form == Fill(afterPlayers, JerseyPrefix, jerseys, idx)
    {
      form := form[JerseyPrefix + NatToString(idx + 1) := jerseys[idx]];
      idx := idx + 1;
    }
  }

  // ----- What the form holds ---------------------------------------------------

  /** `k` is `prefix` followed by one of the numbers 1 to `n`. */
  ghost predicate NumberedKey(prefix: string, n: nat, k: string)
  {
    exists i :: 1 <= i <= n && k == prefix + NatToString(i)
  }

  /** Different numbers give different keys under one prefix. */
  lemma NumberedKeysDistinct(prefix: string, i: nat, j: nat)
    requires i != j
    ensures prefix + NatToString(i) != prefix + NatToString(j)
  {
    NatToStringInjective(i, j);
    assert (prefix + NatToString(i))[|prefix|..] == NatToString(i);
    assert (prefix + NatToString(j))[|prefix|..] == NatToString(j);
  }

  /** The numbered keys up to `n` are those up to `n - 1` and the one for `n`. */
  lemma NumberedKeyStep(prefix: string, n: nat, k: string)
    requires n >= 1
    ensures NumberedKey(prefix, n, k) <==> k == prefix + NatToString(n) || NumberedKey(prefix, n - 1, k)
  {
    if NumberedKey(prefix, n, k) {
      var i :| 1 <= i <= n && k == prefix + NatToString(i);
      if i < n {
        assert 1 <= i <= n - 1;
      }
    }
    if k == prefix + NatToString(n) {
      assert 1 <= n <= n;
    }
    if NumberedKey(prefix, n - 1, k) {
      var i :| 1 <= i <= n - 1 && k == prefix + NatToString(i);
      assert 1 <= i <= n;
    }
  }

  /** Filling adds exactly the numbered keys. */
  lemma {:induction false} FillKeys(m: map<string, string>, prefix: string, urls: seq<string>, n: nat)
    requires n <= |urls|
    ensures forall k :: k in Fill(m, prefix, urls, n) <==> k in m || NumberedKey(prefix, n, k)
  {
    if n > 0 {
      FillKeys(m, prefix, urls, n - 1);
      forall k ensures k in Fill(m, prefix, urls, n) <==> k in m || NumberedKey(prefix, n, k)
      {
        NumberedKeyStep(prefix, n, k);
      }
    }
  }

  /** Filling keeps every other key with its value. */
  lemma {:induction false} FillKeeps(m: map<string, string>, prefix: string, urls: seq<string>, n: nat)
    requires n <= |urls|
    ensures forall k :: k in m && !NumberedKey(prefix, n, k) ==> k in Fill(m, prefix, urls, n) && Fill(m, prefix, urls, n)[k] == m[k]
  {
    if n > 0 {
      FillKeeps(m, prefix, urls, n - 1);
      forall k | k in m && !NumberedKey(prefix, n, k)
        ensures k in Fill(m, prefix, urls, n) && Fill(m, prefix, urls, n)[k] == m[k]
      {
        NumberedKeyStep(prefix, n, k);
      }
    }
  }

  /** Filling maps each numbered key to its link. */
  lemma {:induction false} FillValues(m: map<string, string>, prefix: string, urls: seq<string>, n: nat)
    requires n <= |urls|
    ensures forall i :: 1 <= i <= n ==> prefix + NatToString(i) in Fill(m, prefix, urls, n)
                                        && Fill(m, prefix, urls, n)[prefix + NatToString(i)] == urls[i - 1]
  {
    if n > 0 {
      FillValues(m, prefix, urls, n - 1);
      forall i | 1 <= i < n
        ensures Fill(m, prefix, urls, n)[prefix + NatToString(i)] == urls[i - 1]
      {
        NumberedKeysDistinct(prefix, i, n);
      }
    }
  }

  /** Filling adds one key per link when none of the numbered keys was there before. */
  lemma {:induction false} FillSize(m: map<string, string>, prefix: string, urls: seq<string>, n: nat)
    requires n <= |urls|
    requires forall k :: k in m ==> !NumberedKey(prefix, n, k)
    ensures |Fill(m, prefix, urls, n)| == |m| + n
  {
    if n > 0 {
      var key := prefix + NatToString(n);
      forall k | k in m ensures !NumberedKey(prefix, n - 1, k)
      {
        NumberedKeyStep(prefix, n, k);
      }
      FillSize(m, prefix, urls, n - 1);
      FillKeys(m, prefix, urls, n - 1);
      NumberedKeyStep(prefix, n, key);
      assert key !in m;
      forall i | 1 <= i <= n - 1 ensures key != prefix + NatToString(i)
      {
        NumberedKeysDistinct(prefix, i, n);
      }
      assert key !in Fill(m, prefix, urls, n - 1);
    }
  }

  /** A key that starts with `p` is not numbered under a different prefix `q` of the same length. */
  lemma PrefixesApart(p: string, q: string, n: nat, k: string)
    requires |p| == |q| && p != q && p <= k
    ensures !NumberedKey(q, n, k)
  {
    forall i | 1 <= i <= n ensures k != q + NatToString(i)
    {
      assert (q + NatToString(i))[..|q|] == q;
      assert k[..|p|] == p;
    }
  }

  /** The fixed keys are not numbered keys: they differ from both prefixes at index 7. */
  lemma BaseKeysApart(prefix: string, n: nat, k: string)
    requires prefix == PlayerPrefix || prefix == JerseyPrefix
    requires k in {"video_url", "player_name", "player_number"}
    ensures !NumberedKey(prefix, n, k)
  {
    assert k[7] != 'i';
    forall i | 1 <= i <= n ensures k != prefix + NatToString(i)
    {
      assert (prefix + NatToString(i))[7] == 'i';
    }
  }

  /** The fixed part has its three keys and values. */
  lemma BaseFormContents(videoUrl: string, playerName: string, playerNumber: int)
    ensures var base := BaseForm(videoUrl, playerName, playerNumber);
            && base.Keys == {"video_url", "player_name", "player_number"} && |base| == 3
            && base["video_url"] == videoUrl && base["player_name"] == playerName
            && base["player_number"] == IntToString(playerNumber)
  {
    var base := BaseForm(videoUrl, playerName, playerNumber);
    assert base.Keys == {"video_url", "player_name", "player_number"};
  }

  /** After the player loop, no key is a numbered jersey key. */
  lemma PlayersApartFromJerseys(base: map<string, string>, playerUrls: seq<string>, jerseys: nat)
    requires base.Keys == {"video_url", "player_name", "player_number"}
    ensures forall k :: k in base ==> !NumberedKey(PlayerPrefix, |playerUrls|, k) && !NumberedKey(JerseyPrefix, jerseys, k)
    ensures forall k :: k in Fill(base, PlayerPrefix, playerUrls, |playerUrls|) ==> !NumberedKey(JerseyPrefix, jerseys, k)
  {
    var mid := Fill(base, PlayerPrefix, playerUrls, |playerUrls|);
    FillKeys(base, PlayerPrefix, playerUrls, |playerUrls|);
    forall k | k in base ensures !NumberedKey(PlayerPrefix, |playerUrls|, k) && !NumberedKey(JerseyPrefix, jerseys, k)
    {
      BaseKeysApart(PlayerPrefix, |playerUrls|, k);
      BaseKeysApart(JerseyPrefix, jerseys, k);
    }
    forall k | k in mid ensures !NumberedKey(JerseyPrefix, jerseys, k)
    {
      if k !in base {
        var i :| 1 <= i <= |playerUrls| && k == PlayerPrefix + NatToString(i);
        PrefixesApart(PlayerPrefix, JerseyPrefix, jerseys, k);
      }
    }
  }

  /**
   * The form's keys are exactly `video_url`, `player_name`, `player_number`,
   * `player_image_1` ... up to min(4, #player links) and `jersey_image_1` ...
   * up to min(2, #jersey links); extra links add no key.
   */
  lemma FormKeys(videoUrl: string, playerImageUrls: seq<string>, jerseyImageUrls: seq<string>,
                 playerName: string, playerNumber: int)
    ensures var form := Form(videoUrl, playerImageUrls, jerseyImageUrls, playerName, playerNumber);
            var players := Min(|playerImageUrls|, MaxPlayerImages);
            var jerseys := Min(|jerseyImageUrls|, MaxJerseyImages);
            forall k :: k in form <==>
                          (k in {"video_url", "player_name", "player_number"}
                           || NumberedKey(PlayerPrefix, players, k) || NumberedKey(JerseyPrefix, jerseys, k))
  {
    var base := BaseForm(videoUrl, playerName, playerNumber);
    var playerUrls := Take(playerImageUrls, MaxPlayerImages);
    var jerseyUrls := Take(jerseyImageUrls, MaxJerseyImages);
    BaseFormContents(videoUrl, playerName, playerNumber);
    FillKeys(base, PlayerPrefix, playerUrls, |playerUrls|);
    FillKeys(Fill(base, PlayerPrefix, playerUrls, |playerUrls|), JerseyPrefix, jerseyUrls, |jerseyUrls|);
  }

  /** The fixed fields carry their inputs, and the i-th numbered key of each list carries that list's i-th link. */
  lemma FormValues(videoUrl: string, playerImageUrls: seq<string>, jerseyImageUrls: seq<string>,
                   playerName: string, playerNumber: int)
    ensures var form := Form(videoUrl, playerImageUrls, jerseyImageUrls, playerName, playerNumber);
            && "video_url" in form && form["video_url"] == videoUrl
            && "player_name" in form && form["player_name"] == playerName
            && "player_number" in form && form["player_number"] == IntToString(playerNumber)
            && (forall i :: 1 <= i <= Min(|playerImageUrls|, MaxPlayerImages) ==>
                  PlayerPrefix + NatToString(i) in form && form[PlayerPrefix + NatToString(i)] == playerImageUrls[i - 1])
            && (forall i :: 1 <= i <= Min(|jerseyImageUrls|, MaxJerseyImages) ==>
                  JerseyPrefix + NatToString(i) in form && form[JerseyPrefix + NatToString(i)] == jerseyImageUrls[i - 1])
  {
    var base := BaseForm(videoUrl, playerName, playerNumber);
    var playerUrls := Take(playerImageUrls, MaxPlayerImages);
    var jerseyUrls := Take(jerseyImageUrls, MaxJerseyImages);
    var mid := Fill(base, PlayerPrefix, playerUrls, |playerUrls|);
    var form := Fill(mid, JerseyPrefix, jerseyUrls, |jerseyUrls|);
    BaseFormContents(videoUrl, playerName, playerNumber);
    PlayersApartFromJerseys(base, playerUrls, |jerseyUrls|);
    FillKeeps(base, PlayerPrefix, playerUrls, |playerUrls|);
    FillKeeps(mid, JerseyPrefix, jerseyUrls, |jerseyUrls|);
    FillValues(base, PlayerPrefix, playerUrls, |playerUrls|);
    FillValues(mid, JerseyPrefix, jerseyUrls, |jerseyUrls|);
    forall i | 1 <= i <= |playerUrls|
      ensures PlayerPrefix + NatToString(i) in form && form[PlayerPrefix + NatToString(i)] == playerImageUrls[i - 1]
    {
      assert PlayerPrefix + NatToString(i) in mid;
      assert playerUrls[i - 1] == playerImageUrls[i - 1];
    }
    forall i | 1 <= i <= |jerseyUrls|
      ensures form[JerseyPrefix + NatToString(i)] == jerseyImageUrls[i - 1]
    {
      assert jerseyUrls[i - 1] == jerseyImageUrls[i - 1];
    }
  }

  /** The form has 3 + min(4, #player links) + min(2, #jersey links) entries. */
  lemma FormSize(videoUrl: string, playerImageUrls: seq<string>, jerseyImageUrls: seq<string>,
                 playerName: string, playerNumber: int)
    ensures |Form(videoUrl, playerImageUrls, jerseyImageUrls, playerName, playerNumber)|
            == 3 + Min(|playerImageUrls|, MaxPlayerImages) + Min(|jerseyImageUrls|, MaxJerseyImages)
  {
    var base := BaseForm(videoUrl, playerName, playerNumber);
    var playerUrls := Take(playerImageUrls, MaxPlayerImages);
    var jerseyUrls := Take(jerseyImageUrls, MaxJerseyImages);
    BaseFormContents(videoUrl, playerName, playerNumber);
    PlayersApartFromJerseys(base, playerUrls, |jerseyUrls|);
    FillSize(base, PlayerPrefix, playerUrls, |playerUrls|);
    FillSize(Fill(base, PlayerPrefix, playerUrls, |playerUrls|), JerseyPrefix, jerseyUrls, |jerseyUrls|);
  }

  // ----- The call --------------------------------------------------------------

  /** What is posted: the endpoint, the form fields, the headers and the timeout. */
  datatype Request = Request(endpoint: string, form: map<string, string>, headers: map<string, string>, timeout: nat)

  /**
   * What the HTTP exchange gives back: a response with its status, the text
   * `raise_for_status` would raise for it, and the decoded body or the
   * decoding error; or a transport error with its text.
   */
  datatype Reply<J> = Received(status: int, statusError: string, body: Result<J, string>)
                    | RequestFailed(message: string)

  /** The record returned to the page. */
  datatype ApiResult<J> = ApiSuccess(data: J) | ApiFailure(error: string)

  /** `raise_for_status` raises for client (4xx) and server (5xx) statuses only. */
  predicate StatusFails(status: int)
  {
    400 <= status < 600
  }

  /** Every request error (transport, status, undecodable body) becomes a failure record carrying its text. */
  function Outcome<J>(reply: Reply<J>): (r: ApiResult<J>)
    ensures r.ApiSuccess? <==> reply.Received? && !StatusFails(reply.status) && reply.body.Success?
    ensures r.ApiSuccess? ==> r.data == reply.body.value
    ensures reply.RequestFailed? ==> r.error == reply.message
    ensures reply.Received? && StatusFails(reply.status) ==> r.error == reply.statusError
    ensures reply.Received? && !StatusFails(reply.status) && reply.body.Failure? ==> r.error == reply.body.error
  {
    match reply
    case RequestFailed(message) => ApiFailure(message)
    case Received(status, statusError, body) =>
      if StatusFails(status) then ApiFailure(statusError)
      else match body
        case Success(data) => ApiSuccess(data)
        case Failure(e) => ApiFailure(e)
  }

  /** `call_video_processing_api`: builds the request, posts it, and reports the outcome. */
  method CallVideoProcessingApi<J>(post: Request -> Reply<J>, apiEndpoint: string, videoUrl: string,
                                   playerImageUrls: seq<string>, jerseyImageUrls: seq<string>,
                                   playerName: string, playerNumber: int, apiKey: Option<string> := None)
    returns (request: Request, result: ApiResult<J>)
    ensures request == Request(apiEndpoint, Form(videoUrl, playerImageUrls, jerseyImageUrls, playerName, playerNumber),
                               map["Authorization" := BearerToken], RequestTimeout)
    ensures result == Outcome(post(request))
  {
    var headers := Headers(apiKey);
    var form := BuildForm(videoUrl, playerImageUrls, jerseyImageUrls, playerName, playerNumber);
    request := Request(apiEndpoint, form, headers, RequestTimeout);
    result := Outcome(post(request));
  }
}
