/**
 * The OAuth routes of `routes/auth.js`: `/callback` exchanges the
 * authorization code for tokens and files them in the shared credential map
 * under a new session id, and `/tokens/:sessionId` reads them back. The
 * exchange with Google, `Date.now()` and the random part of the id are
 * parameters.
 */
module Auth {
  import opened Wrappers
  import opened Json
  import Api

  /** The reply of an auth route: a redirect, a JSON body, or an error status with its message. */
  datatype Response = Redirect(location: string) | Json(body: Value) | Failure(status: nat, error: string)

  /** Where the callback sends the browser; the session id follows. */
  const FrontendUrl: string := "http://localhost:3000?session="

  /**
   * `session_${Date.now()}_${suffix}`, with `stamp` the milliseconds since
   * the epoch and `suffix` the random base-36 part.
   */
  function SessionId(stamp: nat, suffix: string): string {
    "session_" + NatString(stamp) + "_" + suffix
  }

  /**
   * `/callback`: a missing code is a 400; otherwise `getToken(code)` either
   * fails, or answers an object whose `tokens` are filed under a new id and
   * the browser is redirected with that id. Destructuring `tokens` out of an
   * `undefined` or `null` answer throws, which is the same 500.
   */
  function CallbackOutcome(entries: map<string, Value>, code: Value, getToken: Value -> Result<Value>,
                           stamp: nat, suffix: string): (Response, map<string, Value>)
  {
    if !Truthy(code) then (Failure(400, "No authorization code provided"), entries)
    else
      var answer := getToken(code);
      if answer.Err? || Member(answer.value, "tokens").Err? then (Failure(500, "Failed to authenticate"), entries)
      else
        var id := SessionId(stamp, suffix);
        (Redirect(FrontendUrl + id), entries[id := Member(answer.value, "tokens").value])
  }

  /** `GET /callback?code=...` against the shared credential map. */
  method Callback(store: Api.TokenStore, code: Value, getToken: Value -> Result<Value>, stamp: nat, suffix: string)
    returns (r: Response)
    modifies store
    ensures (r, store.entries) == CallbackOutcome(old(store.entries), code, getToken, stamp, suffix)
  {
    if !Truthy(code) {
      return Failure(400, "No authorization code provided");
    }
    var answer := getToken(code);
    if answer.Err? {
      return Failure(500, "Failed to authenticate");
    }
    var tokens := Member(answer.value, "tokens");
    if tokens.Err? {
      return Failure(500, "Failed to authenticate");
    }
    var id := SessionId(stamp, suffix);
    store.entries := store.entries[id := tokens.value];
    r := Redirect(FrontendUrl + id);
  }

  /** `/tokens/:sessionId`: 404 unless the id has truthy tokens, which are then answered as they are. */
  function LookupTokens(entries: map<string, Value>, sessionId: string): (r: Response)
    ensures r.Failure? <==> !Truthy(Api.TokensOf(entries, sessionId))
    ensures r.Failure? ==> r == Failure(404, "Session not found")
    ensures r.Json? ==> sessionId in entries && r.body == Obj(map["tokens" := entries[sessionId]])
  {
    var tokens := Api.TokensOf(entries, sessionId);
    if !Truthy(tokens) then Failure(404, "Session not found") else Json(Obj(map["tokens" := tokens]))
  }

  // ---- properties ----

  /** A callback that does not complete the exchange answers 400 or 500 and files nothing. */
  lemma FailedCallbackStoresNothing(entries: map<string, Value>, code: Value, getToken: Value -> Result<Value>,
                                    stamp: nat, suffix: string)
    ensures var (r, after) := CallbackOutcome(entries, code, getToken, stamp, suffix);
            && (!Truthy(code) ==> r == Failure(400, "No authorization code provided"))
            && ((Truthy(code) && (getToken(code).Err? || getToken(code).value.Undefined? || getToken(code).value.Null?))
                ==> r == Failure(500, "Failed to authenticate"))
            && (!r.Redirect? ==> after == entries)
  {
  }

  /**
   * A completed exchange files the tokens under an id that starts with
   * `session_` and the time, redirects with exactly that id, and leaves
   * every other id's entry as it was.
   */
  lemma CallbackFilesSession(entries: map<string, Value>, code: Value, getToken: Value -> Result<Value>,
                             stamp: nat, suffix: string)
    requires Truthy(code) && getToken(code).Ok? && Member(getToken(code).value, "tokens").Ok?
    ensures var (r, after) := CallbackOutcome(entries, code, getToken, stamp, suffix);
            var id := SessionId(stamp, suffix);
            && r == Redirect(FrontendUrl + id)
            && |id| > 8 && id[..8] == "session_" && id[8..8 + |NatString(stamp)|] == NatString(stamp)
            && id in after && after[id] == Member(getToken(code).value, "tokens").value
            && forall other :: other != id ==> Api.TokensOf(after, other) == Api.TokensOf(entries, other)
  {
    var id := SessionId(stamp, suffix);
    assert id == "session_" + (NatString(stamp) + "_" + suffix);
  }

  /**
   * After a completed exchange with truthy tokens, the lookup route answers
   * exactly those tokens under the new id, and the session gate of the API
   * routes lets that id through with them.
   */
  lemma CallbackThenLookup(entries: map<string, Value>, code: Value, getToken: Value -> Result<Value>,
                           stamp: nat, suffix: string)
    requires Truthy(code) && getToken(code).Ok? && Member(getToken(code).value, "tokens").Ok?
    requires Truthy(Member(getToken(code).value, "tokens").value)
    ensures var after := CallbackOutcome(entries, code, getToken, stamp, suffix).1;
            var id := SessionId(stamp, suffix);
            var tokens := Member(getToken(code).value, "tokens").value;
            && LookupTokens(after, id) == Json(Obj(map["tokens" := tokens]))
            && Api.GetTokens(after, Some(id)) == Api.Pass(tokens)
  {
    var id := SessionId(stamp, suffix);
    assert id[0] == 's';
  }

  /** The decimal text of a number is a single digit exactly when the number is below ten. */
  lemma NatStringSingle(n: nat)
    ensures |NatString(n)| == 1 <==> n < 10
  {
    if n >= 10 {
      assert |NatString(n)| == |NatString(n / 10)| + 1;
    }
  }

  /** The decimal text of a number names only that number. */
  lemma {:induction false} NatStringInjective(a: nat, b: nat)
    requires NatString(a) == NatString(b)
    ensures a == b
  {
    NatStringSingle(a);
    NatStringSingle(b);
    if a < 10 {
      assert b < 10;
      DigitCharInjective(a, b);
    } else {
      assert b >= 10;
      var x, y := NatString(a), NatString(b);
      assert x == NatString(a / 10) + [DigitChar(a % 10)];
      assert y == NatString(b / 10) + [DigitChar(b % 10)];
      assert x[..|x| - 1] == NatString(a / 10);
      assert y[..|y| - 1] == NatString(b / 10);
      NatStringInjective(a / 10, b / 10);
      DigitCharInjective(a % 10, b % 10);
      SameDigits(a, b);
    }
  }

  lemma DigitCharInjective(d: nat, e: nat)
    requires d < 10 && e < 10 && DigitChar(d) == DigitChar(e)
    ensures d == e
  {
  }

  lemma SameDigits(a: nat, b: nat)
    requires a / 10 == b / 10 && a % 10 == b % 10
    ensures a == b
  {
  }

  /**
   * Ids minted at different times, or with different random parts, differ:
   * the time is all digits, so the `_` after it marks where it ends.
   */
  lemma SessionIdInjective(a: nat, x: string, b: nat, y: string)
    requires SessionId(a, x) == SessionId(b, y)
    ensures a == b && x == y
  {
    var p, q := NatString(a), NatString(b);
    var u, v := p + "_" + x, q + "_" + y;
    assert SessionId(a, x) == "session_" + u && SessionId(b, y) == "session_" + v;
    assert u == SessionId(a, x)[8..] == v;
    assert u[|p|] == '_' && v[|q|] == '_';
    assert forall i :: 0 <= i < |q| ==> v[i] == q[i];
    assert forall i :: 0 <= i < |p| ==> u[i] == p[i];
    assert |p| >= |q|;
    assert |q| >= |p|;
    assert p == u[..|p|] == v[..|q|] == q;
    NatStringInjective(a, b);
    assert x == u[|p| + 1..] == v[|q| + 1..] == y;
  }
}
