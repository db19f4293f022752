/** The middleware of src/lib/apiMiddleware.ts: the in-memory
    `RateLimitStore`, the client address rule, and handler composition.
    Handlers are described by the layers wrapped around the route's own
    handler; time is an explicit millisecond count. */
module ApiMiddleware {
  import opened Common
  import RateWindow
  import Errors

  /** How long `cleanup` keeps a timestamp: one hour. */
  const KeepMs := 3600000

  /** The timestamps `cleanup` keeps for one key. */
  function Young(times: seq<int>, now: int): seq<int> {
    Filter(t => now - t < KeepMs, times)
  }

  /** The store after `cleanup` at `now`. */
  function Cleaned(store: map<string, seq<int>>, now: int): (r: map<string, seq<int>>)
    ensures forall k :: k in r <==> k in store && Young(store[k], now) != []
    ensures forall k :: k in r ==> r[k] == Young(store[k], now)
  {
    map k | k in store && Young(store[k], now) != [] :: Young(store[k], now)
  }

  /** The store part way through `cleanup`: the keys still to visit are
      as they were, the visited ones are cleaned. */
  function Partial(store: map<string, seq<int>>, pending: set<string>, now: int): map<string, seq<int>> {
    map k | k in store && (k in pending || Young(store[k], now) != []) ::
      if k in pending then store[k] else Young(store[k], now)
  }

  class RateLimitStore {
    var store: map<string, seq<int>>

    constructor ()
      ensures store == map[]
    {
      store := map[];
    }

    function Times(key: string): seq<int>
      reads this
    {
      if key in store then store[key] else []
    }

    /** `cleanup()`: drops every key with no timestamp younger than an hour
        and keeps only the younger timestamps of the others. */
    method Cleanup(now: int)
      modifies this
      ensures store == Cleaned(old(store), now)
    {
      var keys := store.Keys;
      ghost var original := store;
      while keys != {}
        invariant keys <= original.Keys
        invariant store == Partial(original, keys, now)
        decreases keys
      {
        var key :| key in keys;
        var valid := Young(store[key], now);
        if valid == [] {
          store := store - {key};
        } else {
          store := store[key := valid];
        }
        keys := keys - {key};
      }
    }

    /** `isAllowed(key, config)` at `now`. */
    method IsAllowed(key: string, maxRequests: int, windowMs: int, now: int) returns (ok: bool)
      modifies this
      ensures var d := RateWindow.Admit(old(Times(key)), now, maxRequests, windowMs);
        ok == d.Some? && store == if ok then old(store)[key := d.value] else old(store)
    {
      var validTimes := RateWindow.Recent(Times(key), now, windowMs);
      if |validTimes| >= maxRequests {
        return false;
      }
      store := store[key := validTimes + [now]];
      return true;
    }

    /** `getRemainingRequests(key, config)` at `now`. */
    method GetRemainingRequests(key: string, maxRequests: int, windowMs: int, now: int) returns (n: int)
      ensures n == RateWindow.Remaining(Times(key), now, maxRequests, windowMs)
      ensures 0 <= n <= Max(0, maxRequests)
    {
      var validTimes := RateWindow.Recent(Times(key), now, windowMs);
      n := Max(0, maxRequests - |validTimes|);
    }
  }

  /** After a cleanup every kept key has a timestamp younger than an hour,
      and every such timestamp of an old key is kept. */
  lemma Cleaned_Young(store: map<string, seq<int>>, now: int, k: string, t: int)
    ensures k in store && t in store[k] && now - t < KeepMs ==> k in Cleaned(store, now) && t in Cleaned(store, now)[k]
    ensures k in Cleaned(store, now) && t in Cleaned(store, now)[k] ==> t in store[k] && now - t < KeepMs
  {
    if k in store {
      Filter_Mem(t => now - t < KeepMs, store[k], t);
    }
  }

  /** `getClientIp(request)`: the first comma-separated entry of
      `x-forwarded-for`, trimmed, when non-empty; else `x-real-ip` when
      non-empty; else `unknown`. */
  function GetClientIp(forwardedFor: Option<string>, realIp: Option<string>): (ip: string)
    ensures forwardedFor.Some? && Trim(Split(forwardedFor.value, ',')[0]) != "" ==> ip == Trim(Split(forwardedFor.value, ',')[0])
    ensures (forwardedFor.None? || Trim(Split(forwardedFor.value, ',')[0]) == "") && Present(realIp) ==> ip == realIp.value
    ensures (forwardedFor.None? || Trim(Split(forwardedFor.value, ',')[0]) == "") && !Present(realIp) ==> ip == "unknown"
    ensures ip != ""
  {
    var first := if forwardedFor.Some? then Trim(Split(forwardedFor.value, ',')[0]) else "";
    if first != "" then first else if Present(realIp) then realIp.value else "unknown"
  }

  /** The first forwarded address has no comma in it. */
  lemma GetClientIp_NoComma(forwardedFor: string, realIp: Option<string>)
    requires Trim(Split(forwardedFor, ',')[0]) != ""
    ensures ',' !in GetClientIp(Some(forwardedFor), realIp)
  {
    var part := Split(forwardedFor, ',')[0];
    assert ',' !in part;
    TrimIn(part);
  }

  lemma TrimIn(s: string)
    ensures forall c :: c in Trim(s) ==> c in s
  {
    var a := TrimStart(s);
    assert forall c :: c in a ==> c in s by {
      forall c | c in a ensures c in s {
        var i :| 0 <= i < |a| && a[i] == c;
        assert s[|s| - |a| + i] == c;
      }
    }
    var b := TrimEnd(a);
    assert forall c :: c in b ==> c in a by {
      forall c | c in b ensures c in a {
        var i :| 0 <= i < |b| && b[i] == c;
        assert a[i] == c;
      }
    }
  }

  // ---------------------------------------------------------- composition

  datatype RateLimitConfig = RateLimitConfig(maxRequests: int, windowMs: int, message: Option<string>)

  /** A middleware, as the layer it puts around a handler. */
  datatype Middleware = RateLimit(config: RateLimitConfig) | ErrorHandling

  /** A handler: the route's own handler inside any number of layers. */
  datatype Handler = Route | Wrapped(layer: Middleware, inner: Handler)

  /** `withMiddleware(handler, middlewares)`:
      `middlewares.reduce((h, m) => m(h), handler)`. */
  function WithMiddleware(h: Handler, ms: seq<Middleware>): Handler
    decreases |ms|
  {
    if ms == [] then h else WithMiddleware(Wrapped(ms[0], h), ms[1..])
  }

  /** The fold puts the last middleware outermost. */
  lemma {:induction false} WithMiddleware_Last(h: Handler, ms: seq<Middleware>, m: Middleware)
    ensures WithMiddleware(h, ms + [m]) == Wrapped(m, WithMiddleware(h, ms))
    decreases |ms|
  {
    if ms != [] {
      assert (ms + [m])[1..] == ms[1..] + [m];
      WithMiddleware_Last(Wrapped(ms[0], h), ms[1..], m);
    }
  }

  /** The options of `createApiHandler`: `rateLimit` is `false`, absent, or
      overrides of the default configuration. */
  datatype RateLimitOption = NoRateLimit | DefaultRateLimit | Overrides(maxRequests: Option<int>, windowMs: Option<int>, message: Option<string>)

  function ConfigOf(o: RateLimitOption): RateLimitConfig
    requires !o.NoRateLimit?
  {
    match o
    case DefaultRateLimit => RateLimitConfig(100, 60000, None)
    case Overrides(m, w, msg) => RateLimitConfig(m.GetOr(100), w.GetOr(60000), msg)
  }

  /** `createApiHandler(handler, options)`: error handling is pushed first,
      rate limiting second. */
  function CreateApiHandler(rateLimit: RateLimitOption, errorHandling: bool): Handler {
    var ms := (if errorHandling then [ErrorHandling] else [])
            + (if rateLimit.NoRateLimit? then [] else [RateLimit(ConfigOf(rateLimit))]);
    WithMiddleware(Route, ms)
  }

  /** With both layers, rate limiting sits outside error handling. */
  lemma CreateApiHandler_Order(rateLimit: RateLimitOption)
    requires !rateLimit.NoRateLimit?
    ensures CreateApiHandler(rateLimit, true) == Wrapped(RateLimit(ConfigOf(rateLimit)), Wrapped(ErrorHandling, Route))
  {
    WithMiddleware_Last(Route, [ErrorHandling], RateLimit(ConfigOf(rateLimit)));
  }

  /** What the route's own handler does: answer with a status, or throw. */
  datatype Outcome = Responds(status: int) | Throws(error: Errors.Error)

  /** The status a layered handler answers with, given whether the rate
      limiter admits the request; an uncaught throw stays a throw. */
  function Run(h: Handler, admitted: bool, route: Outcome): Outcome {
    match h
    case Route => route
    case Wrapped(RateLimit(_), inner) => if admitted then Run(inner, admitted, route) else Responds(429)
    case Wrapped(ErrorHandling, inner) =>
      match Run(inner, admitted, route)
      case Responds(s) => Responds(s)
      case Throws(e) =>
        var caught := if e.ApiError? then e else Errors.PlainError("Internal server error");
        Responds(Errors.CreateErrorResponse(caught, "", "").status)
  }

  /** With the default options a refused request gets 429 whatever the route
      would have done, and a throwing route gets its error's status or 500. */
  lemma CreateApiHandler_Run(route: Outcome)
    ensures Run(CreateApiHandler(DefaultRateLimit, true), false, route) == Responds(429)
    ensures route.Throws? ==>
      Run(CreateApiHandler(DefaultRateLimit, true), true, route) == Responds(if route.error.ApiError? then route.error.statusCode else 500)
  {
    CreateApiHandler_Order(DefaultRateLimit);
    var inner := Wrapped(ErrorHandling, Route);
    assert Run(CreateApiHandler(DefaultRateLimit, true), true, route) == Run(inner, true, route);
    if route.Throws? {
      var e := route.error;
      var caught := if e.ApiError? then e else Errors.PlainError("Internal server error");
      assert Run(inner, true, route) == Responds(Errors.CreateErrorResponse(caught, "", "").status);
    }
  }
}
