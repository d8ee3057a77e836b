// The per-host token bucket in front of the auth endpoints (user-service/handlers/ratelimit.go).
// Seconds and tokens are exact reals; the clock read under the mutex never runs backwards.
module TokenBuckets {
  import opened Collections

  datatype Config = Config(rps: real, burst: nat) {
    predicate Valid() { rps >= 0.0 }
  }

  datatype Bucket = Bucket(tokens: real, lastSeen: real)
  datatype Request = Request(host: string, at: real)

  type Buckets = map<string, Bucket>

  // ---------------------------------------------------------------- what one request does

  // The bucket a request finds: a new host starts with a full one.
  function Found(cfg: Config, buckets: Buckets, r: Request): Bucket
  {
    if r.host in buckets then buckets[r.host] else Bucket(cfg.burst as real, r.at)
  }

  function Refill(cfg: Config, seconds: real): real { seconds * cfg.rps }

  function Refilled(cfg: Config, b: Bucket, at: real): real
  {
    var tokens := b.tokens + Refill(cfg, at - b.lastSeen);
    if tokens > cfg.burst as real then cfg.burst as real else tokens
  }

  predicate Admits(cfg: Config, buckets: Buckets, r: Request)
  {
    Refilled(cfg, Found(cfg, buckets, r), r.at) >= 1.0
  }

  function Serve(cfg: Config, buckets: Buckets, r: Request): Buckets
  {
    var tokens := Refilled(cfg, Found(cfg, buckets, r), r.at);
    buckets[r.host := Bucket(if tokens >= 1.0 then tokens - 1.0 else tokens, r.at)]
  }

  class RateLimit {
    const cfg: Config
    var buckets: Buckets

    constructor (cfg: Config)
      ensures this.cfg == cfg && buckets == map[]
    {
      this.cfg, buckets := cfg, map[];
    }

    // The locked section of the handler.
    method Handle(host: string, now: real) returns (allowed: bool)
      modifies this
      ensures buckets == Serve(cfg, old(buckets), Request(host, now))
      ensures allowed == Admits(cfg, old(buckets), Request(host, now))
    {
      if host !in buckets {
        buckets := buckets[host := Bucket(cfg.burst as real, now)];
      }
      var b := buckets[host];
      var elapsed := now - b.lastSeen;
      var tokens := b.tokens + elapsed * cfg.rps;
      if tokens > cfg.burst as real {
        tokens := cfg.burst as real;
      }
      allowed := tokens >= 1.0;
      if allowed {
        tokens := tokens - 1.0;
      }
      buckets := buckets[host := Bucket(tokens, now)];
    }
  }

  // ---------------------------------------------------------------- runs

  ghost predicate ClockRuns(rs: seq<Request>)
  {
    forall i, j :: 0 <= i < j < |rs| ==> rs[i].at <= rs[j].at
  }

  // The buckets after the first n requests.
  function After(cfg: Config, rs: seq<Request>, n: nat): Buckets
    requires n <= |rs|
  {
    if n == 0 then map[] else Serve(cfg, After(cfg, rs, n - 1), rs[n - 1])
  }

  predicate Admitted(cfg: Config, rs: seq<Request>, i: nat)
    requires i < |rs|
  {
    Admits(cfg, After(cfg, rs, i), rs[i])
  }

  // Requests of host admitted among those numbered from i up to, not including, j.
  function AdmittedIn(cfg: Config, rs: seq<Request>, host: string, i: nat, j: nat): nat
    requires i <= j <= |rs|
  {
    if i == j then 0
    else AdmittedIn(cfg, rs, host, i, j - 1) + if rs[j - 1].host == host && Admitted(cfg, rs, j - 1) then 1 else 0
  }

  // Tokens stay in [0, burst], and no bucket was seen later than the last request.
  ghost predicate Inv(cfg: Config, buckets: Buckets, now: real)
  {
    forall h :: h in buckets ==> 0.0 <= buckets[h].tokens <= cfg.burst as real && buckets[h].lastSeen <= now
  }

  lemma RefillLaws(cfg: Config, x: real, y: real)
    requires cfg.Valid()
    ensures Refill(cfg, x + y) == Refill(cfg, x) + Refill(cfg, y)
    ensures x >= 0.0 ==> Refill(cfg, x) >= 0.0
    ensures Refill(cfg, 0.0) == 0.0
  {
  }

  lemma RefillBounds(cfg: Config, b: Bucket, at: real)
    requires cfg.Valid() && 0.0 <= b.tokens <= cfg.burst as real && b.lastSeen <= at
    ensures 0.0 <= Refilled(cfg, b, at) <= cfg.burst as real
    ensures b.tokens <= Refilled(cfg, b, at) <= b.tokens + Refill(cfg, at - b.lastSeen)
  {
    RefillLaws(cfg, at - b.lastSeen, 0.0);
    hide Refill;
  }

  lemma {:induction false} RunKeepsInv(cfg: Config, rs: seq<Request>, n: nat)
    requires cfg.Valid() && ClockRuns(rs) && n <= |rs|
    ensures n > 0 ==> Inv(cfg, After(cfg, rs, n), rs[n - 1].at)
  {
    if n > 0 {
      RunKeepsInv(cfg, rs, n - 1);
      var r, before := rs[n - 1], After(cfg, rs, n - 1);
      assert n > 1 ==> rs[n - 2].at <= r.at;
      RefillBounds(cfg, Found(cfg, before, r), r.at);
    }
  }

  // In every run every bucket holds between 0 and burst tokens.
  lemma TokensStayInRange(cfg: Config, rs: seq<Request>, n: nat, host: string)
    requires cfg.Valid() && ClockRuns(rs) && n <= |rs| && host in After(cfg, rs, n)
    ensures 0.0 <= After(cfg, rs, n)[host].tokens <= cfg.burst as real
  {
    RunKeepsInv(cfg, rs, n);
  }

  // The tokens host would find at the time of request n, before that request is served.
  ghost function Available(cfg: Config, buckets: Buckets, host: string, at: real): real
  {
    Refilled(cfg, Found(cfg, buckets, Request(host, at)), at)
  }

  lemma RefillTwice(cfg: Config, b: Bucket, t: real, u: real)
    requires cfg.Valid() && b.lastSeen <= t <= u
    ensures Refilled(cfg, b, u) <= Refilled(cfg, b, t) + Refill(cfg, u - t)
  {
    RefillLaws(cfg, u - t, t - b.lastSeen);
    hide Refill;
    assert (u - t) + (t - b.lastSeen) == u - b.lastSeen;
  }

  lemma AvailableBounds(cfg: Config, buckets: Buckets, host: string, now: real)
    requires cfg.Valid() && Inv(cfg, buckets, now)
    ensures 0.0 <= Available(cfg, buckets, host, now) <= cfg.burst as real
  {
    RefillBounds(cfg, Found(cfg, buckets, Request(host, now)), now);
  }

  // Serving a request of whatever host costs this host one token if it was admitted, and
  // nothing otherwise.
  lemma ServeCosts(cfg: Config, buckets: Buckets, r: Request, host: string, now: real)
    requires cfg.Valid() && Inv(cfg, buckets, now) && now <= r.at
    ensures Available(cfg, Serve(cfg, buckets, r), host, r.at)
         == Available(cfg, buckets, host, r.at) - if r.host == host && Admits(cfg, buckets, r) then 1.0 else 0.0
  {
    hide Refill;
    RefillBounds(cfg, Found(cfg, buckets, r), r.at);
    RefillBounds(cfg, Found(cfg, buckets, Request(host, r.at)), r.at);
    RefillLaws(cfg, 0.0, 0.0);
    assert r.at - r.at == 0.0;
  }

  lemma AvailableGrows(cfg: Config, buckets: Buckets, host: string, t: real, u: real)
    requires cfg.Valid() && Inv(cfg, buckets, t) && t <= u
    ensures Available(cfg, buckets, host, u) <= Available(cfg, buckets, host, t) + Refill(cfg, u - t)
  {
    RefillLaws(cfg, u - t, 0.0);
    hide Refill;
    if host in buckets {
      RefillTwice(cfg, buckets[host], t, u);
    } else {
      RefillLaws(cfg, 0.0, 0.0);
      assert t - t == 0.0 && u - u == 0.0;
    }
  }

  // What is left at the end plus what was admitted is paid for by the refill of the window.
  lemma {:induction false} WindowBalance(cfg: Config, rs: seq<Request>, host: string, i: nat, j: nat)
    requires cfg.Valid() && ClockRuns(rs) && i < j <= |rs|
    ensures AdmittedIn(cfg, rs, host, i, j) as real + Available(cfg, After(cfg, rs, j), host, rs[j - 1].at)
         <= Available(cfg, After(cfg, rs, i), host, rs[i].at) + Refill(cfg, rs[j - 1].at - rs[i].at)
    decreases j - i
  {
    hide Refill, Available, Admits;
    var r, before := rs[j - 1], After(cfg, rs, j - 1);
    InvBefore(cfg, rs, j - 1);
    ServeCosts(cfg, before, r, host, r.at);
    if i == j - 1 {
      assert AdmittedIn(cfg, rs, host, i, j - 1) == 0;
      RefillLaws(cfg, 0.0, 0.0);
      assert r.at - rs[i].at == 0.0;
    } else {
      WindowBalance(cfg, rs, host, i, j - 1);
      RunKeepsInv(cfg, rs, j - 1);
      AvailableGrows(cfg, before, host, rs[j - 2].at, r.at);
      RefillLaws(cfg, r.at - rs[j - 2].at, rs[j - 2].at - rs[i].at);
      assert (r.at - rs[j - 2].at) + (rs[j - 2].at - rs[i].at) == r.at - rs[i].at;
    }
  }

  lemma InvBefore(cfg: Config, rs: seq<Request>, n: nat)
    requires cfg.Valid() && ClockRuns(rs) && n < |rs|
    ensures Inv(cfg, After(cfg, rs, n), rs[n].at)
  {
    RunKeepsInv(cfg, rs, n);
    assert n > 0 ==> rs[n - 1].at <= rs[n].at;
  }

  // For one host, the requests admitted in any window of any run, whatever other hosts do,
  // number at most burst + rps * length of the window.
  lemma AdmittedInAnyWindow(cfg: Config, rs: seq<Request>, host: string, i: nat, j: nat)
    requires cfg.Valid() && ClockRuns(rs) && i < j <= |rs|
    ensures AdmittedIn(cfg, rs, host, i, j) as real <= cfg.burst as real + (rs[j - 1].at - rs[i].at) * cfg.rps
  {
    hide Available, AdmittedIn, After, Inv;
    assert Refill(cfg, rs[j - 1].at - rs[i].at) == (rs[j - 1].at - rs[i].at) * cfg.rps;
    WindowBalance(cfg, rs, host, i, j);
    InvBefore(cfg, rs, i);
    AvailableBounds(cfg, After(cfg, rs, i), host, rs[i].at);
    RunKeepsInv(cfg, rs, j);
    AvailableBounds(cfg, After(cfg, rs, j), host, rs[j - 1].at);
  }

  // The time of host's latest request among the first n, or None.
  function LastSeen(rs: seq<Request>, host: string, n: nat): Option<real>
    requires n <= |rs|
  {
    if n == 0 then None else if rs[n - 1].host == host then Some(rs[n - 1].at) else LastSeen(rs, host, n - 1)
  }

  lemma {:induction false} BucketRemembersHost(cfg: Config, rs: seq<Request>, host: string, n: nat)
    requires n <= |rs|
    ensures (host in After(cfg, rs, n) <==> LastSeen(rs, host, n).Some?)
    ensures host in After(cfg, rs, n) ==> LastSeen(rs, host, n) == Some(After(cfg, rs, n)[host].lastSeen)
  {
    if n > 0 {
      BucketRemembersHost(cfg, rs, host, n - 1);
    }
  }

  // A host's first request, and any request at least 1/rps after its previous one, is
  // admitted exactly when the burst is at least one.
  lemma SlowHostsAreAdmitted(cfg: Config, rs: seq<Request>, i: nat)
    requires cfg.Valid() && ClockRuns(rs) && i < |rs|
    requires var last := LastSeen(rs, rs[i].host, i); last.Some? ==> Refill(cfg, rs[i].at - last.value) >= 1.0
    ensures Admitted(cfg, rs, i) <==> cfg.burst >= 1
  {
    hide After, LastSeen, Refill;
    BucketRemembersHost(cfg, rs, rs[i].host, i);
    InvBefore(cfg, rs, i);
    var before := After(cfg, rs, i);
    if rs[i].host !in before {
      RefillLaws(cfg, 0.0, 0.0);
      assert rs[i].at - rs[i].at == 0.0;
    }
  }

  // How many of the first n requests are the host's.
  function RequestsOf(rs: seq<Request>, host: string, n: nat): nat
    requires n <= |rs|
  {
    if n == 0 then 0 else RequestsOf(rs, host, n - 1) + if rs[n - 1].host == host then 1 else 0
  }

  lemma {:induction false} TokensLeft(cfg: Config, rs: seq<Request>, host: string, n: nat)
    requires cfg.Valid() && ClockRuns(rs) && n <= |rs|
    ensures if host in After(cfg, rs, n)
            then After(cfg, rs, n)[host].tokens >= cfg.burst as real - RequestsOf(rs, host, n) as real
            else RequestsOf(rs, host, n) == 0
  {
    if n > 0 {
      TokensLeft(cfg, rs, host, n - 1);
      var before, r := After(cfg, rs, n - 1), rs[n - 1];
      InvBefore(cfg, rs, n - 1);
      if r.host == host && host in before {
        RefillBounds(cfg, before[host], r.at);
      }
      hide Refill, Inv, ClockRuns;
      RefillLaws(cfg, 0.0, 0.0);
      assert r.at - r.at == 0.0;
    }
  }

  // A host starts with the whole burst: its first requests are admitted up to the burst, at
  // whatever times and whatever other hosts do.
  lemma BurstIsAdmitted(cfg: Config, rs: seq<Request>, i: nat)
    requires cfg.Valid() && ClockRuns(rs) && i < |rs|
    requires RequestsOf(rs, rs[i].host, i) < cfg.burst
    ensures Admitted(cfg, rs, i)
  {
    var r, before := rs[i], After(cfg, rs, i);
    TokensLeft(cfg, rs, r.host, i);
    InvBefore(cfg, rs, i);
    hide RequestsOf, After, ClockRuns, Refill;
    if r.host in before {
      RefillBounds(cfg, before[r.host], r.at);
    } else {
      RefillLaws(cfg, 0.0, 0.0);
      assert r.at - r.at == 0.0;
    }
  }
}
