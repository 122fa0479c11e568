/** The permission cache in front of the forge: its key, its TTL, and any number
    of authorizations in flight while time passes. Durations are nanoseconds. */
module AuthCache {
  import opened Wrappers
  import opened Strings
  import opened Uris
  import opened Allowlist
  import Lifecycle

  type Permission = Lifecycle.Permission

  const MINUTE: int := 60 * 1_000_000_000
  const TTL_DEFAULT: int := 5 * MINUTE
  const TTL_MAX: int := 60 * MINUTE
  const TTL_MARGIN: int := 5 * MINUTE

  // ------------------------------------------------------------ the TTL

  /** authCacheTTL: negative means do not cache. */
  function AuthCacheTtl(rawTtl: int): int {
    if rawTtl < 0 then -1
    else
      var ttl := if rawTtl == 0 then TTL_DEFAULT else rawTtl - TTL_MARGIN;
      if ttl <= 0 then -1 else if ttl > TTL_MAX then TTL_MAX else ttl
  }

  /** A decision is cached exactly without an expiry signal or with more than the
      margin left, and then for a positive time up to the cap. */
  lemma CachedIff(rawTtl: int)
    ensures AuthCacheTtl(rawTtl) >= 0 <==> rawTtl == 0 || rawTtl > TTL_MARGIN
    ensures AuthCacheTtl(rawTtl) >= 0 ==> 0 < AuthCacheTtl(rawTtl) <= TTL_MAX
  {}

  /** The delay between computing a TTL and writing the entry that a token's
      lifetime can absorb. */
  predicate Absorbed(rawTtl: int, delay: int) {
    delay <= TTL_MARGIN || delay <= rawTtl - TTL_MAX
  }

  /** An entry written `delay` late still ends before the token does, exactly if
      the margin or the cap leaves room for the delay. */
  lemma EndsInTimeIff(rawTtl: int, delay: int)
    requires rawTtl > 0 && AuthCacheTtl(rawTtl) >= 0
    ensures delay + AuthCacheTtl(rawTtl) <= rawTtl <==> Absorbed(rawTtl, delay)
  {}

  // ------------------------------------------------------------ the key

  datatype Quad = Quad(host: string, repo: string, username: string, token: string)

  function Joined(q: Quad): string {
    q.host + ":" + q.repo + ":" + q.username + ":" + q.token
  }

  ghost predicate Injective(hash: string -> string) {
    forall a, b :: hash(a) == hash(b) ==> a == b
  }

  /** Where a request goes. */
  datatype Site = Site(host: string, repo: string)

  function SiteOf(q: Quad): Site {
    Site(q.host, q.repo)
  }

  /** The part of the key before the credentials. */
  function Tag(x: Site): string {
    x.host + ":" + x.repo + ":"
  }

  /** The credentials of x can spell the rest of y. */
  predicate Nests(x: Site, y: Site) {
    x != y && HasPrefix(Tag(y), Tag(x))
  }

  lemma JoinedAfterTag(q: Quad)
    ensures Joined(q) == Tag(SiteOf(q)) + (q.username + ":" + q.token)
  {}

  /** Two requests share the text of their key only if their sites nest. */
  lemma SharedKeysNest(q: Quad, p: Quad)
    requires ':' !in q.username && ':' !in p.username && Joined(q) == Joined(p) && q != p
    ensures Nests(SiteOf(q), SiteOf(p)) || Nests(SiteOf(p), SiteOf(q))
  {
    var x, y := Tag(SiteOf(q)), Tag(SiteOf(p));
    JoinedAfterTag(q);
    JoinedAfterTag(p);
    assert Joined(q)[..|x|] == x && Joined(p)[..|y|] == y;
    if SiteOf(q) == SiteOf(p) {
      assert Joined(q)[|x|..] == Joined(p)[|x|..];
      assert q.username + [':'] + q.token == p.username + [':'] + p.token;
      CutsApart(q.username, ':', q.token, p.username, p.token);
    } else if |x| <= |y| {
      assert y[..|x|] == Joined(p)[..|y|][..|x|] == x;
    } else {
      assert x[..|y|] == Joined(q)[..|x|][..|y|] == y;
    }
  }

  /** Moving the rest of a longer tag into the credentials. */
  lemma Respelled(tag: string, before: string, after: string, username: string, token: string)
    ensures tag + (before + ":" + after) + (username + ":" + token) == tag + (before + ":" + (after + username + ":" + token))
  {
    var text, more := before + ":", username + ":" + token;
    assert after + username + ":" + token == after + more;
    assert text + after + more == text + (after + more);
    assert tag + (text + after) + more == tag + (text + after + more);
  }

  /** If x nests in y, then any credentials for y share their key with some for x. */
  lemma NestedSitesCollide(x: Site, y: Site, username: string, token: string) returns (q: Quad)
    requires Nests(x, y) && ':' !in username && token != ""
    ensures SiteOf(q) == x && ':' !in q.username && q.token != ""
    ensures Joined(q) == Joined(Quad(y.host, y.repo, username, token))
  {
    var rest := Tag(y)[|Tag(x)|..];
    JoinedAfterTag(Quad(y.host, y.repo, username, token));
    assert Tag(y) == Tag(x) + rest;
    if rest == "" {
      q := Quad(x.host, x.repo, username, token);
      JoinedAfterTag(q);
    } else {
      assert Tag(y)[|Tag(y)| - 1] == ':' && rest[|rest| - 1] == ':';
      var (before, after) := Cut(rest, ':').value;
      q := Quad(x.host, x.repo, before, after + username + ":" + token);
      JoinedAfterTag(q);
      Respelled(Tag(x), before, after, username, token);
    }
  }

  /** Only the token may contain a colon. */
  predicate Clean(q: Quad) {
    ':' !in q.host && ':' !in q.repo && ':' !in q.username
  }

  lemma CleanSitesDoNotNest(x: Site, y: Site)
    requires ':' !in x.host && ':' !in x.repo && ':' !in y.host && ':' !in y.repo
    ensures !Nests(x, y)
  {
    if HasPrefix(Tag(y), Tag(x)) {
      var rest := Tag(y)[|Tag(x)|..];
      var a, b := x.repo + [':'] + rest, y.repo + [':'] + "";
      assert x.host + [':'] + a == Tag(x) + rest == y.host + [':'] + b;
      CutsApart(x.host, ':', a, y.host, b);
      CutsApart(x.repo, ':', rest, y.repo, "");
    }
  }

  /** Without colons the four values can be read back from the key. */
  lemma JoinedIsInjective(q: Quad, p: Quad)
    requires Clean(q) && Clean(p) && Joined(q) == Joined(p)
    ensures q == p
  {
    CleanSitesDoNotNest(SiteOf(q), SiteOf(p));
    CleanSitesDoNotNest(SiteOf(p), SiteOf(q));
    if q != p { SharedKeysNest(q, p); }
  }

  /** Colons elsewhere collide: a host with a port shares keys with another host,
      and a repository with a colon shares keys with one on the same host. */
  lemma ColonsCollide(username: string, token: string)
    ensures Joined(Quad("h:1", "r", username, token)) == Joined(Quad("h", "1:r", username, token))
    ensures Joined(Quad("h", "r:x", "u", token)) == Joined(Quad("h", "r", "x", "u:" + token))
  {
    assert "h:1" + ":" + "r" == "h" + ":" + "1:r";
    assert "h" + ":" + "r:x" + ":" + "u" + ":" == "h" + ":" + "r" + ":" + "x" + ":" + "u:";
    JoinedAfterTag(Quad("h:1", "r", username, token));
    JoinedAfterTag(Quad("h", "1:r", username, token));
    assert Joined(Quad("h", "r:x", "u", token)) == ("h" + ":" + "r:x" + ":" + "u" + ":") + token;
    assert Joined(Quad("h", "r", "x", "u:" + token)) == ("h" + ":" + "r" + ":" + "x" + ":" + "u:") + token;
  }

  // ------------------------------------------------------------ the handler

  datatype Env = Env(hosts: set<string>, allow: (string, string) -> bool, hash: string -> string)

  /** What the forge answers for a token. */
  datatype Verdict = Granted(perm: Permission, rawTtl: int) | TokenInvalid | ForgeError

  /** A permission the forge has granted, and when it computed the TTL. */
  datatype Grant = Grant(quad: Quad, perm: Permission, rawTtl: int, at: int)

  datatype Item = Item(perm: Permission, until: int)

  datatype Flight =
    | Looking(quad: Quad)
    | Asking(quad: Quad)
    | Storing(grant: Grant)
    | Served(quad: Quad, perm: Permission, at: int, fromCache: bool)
    | Rejected(status: int)

  /** `grants` remembers every permission the forge ever gave. */
  datatype State = State(now: int, cache: map<string, Item>, flights: map<nat, Flight>, grants: set<Grant>)

  datatype Event =
    | Tick(elapsed: nat)
    | Arrive(pid: nat, host: string, credentials: Option<string>, path: string)
    | Get(pid: nat, broken: bool)
    | Ask(pid: nat, verdict: Verdict)
    | Set(pid: nat, fails: bool)
    | Evict(key: string)

  /** The item is still served at time t. */
  predicate LivesAt(item: Item, t: int) {
    t <= item.until
  }

  function KeyOf(env: Env, q: Quad): string {
    env.hash(Joined(q))
  }

  /** The checks before the cache. Basic credentials split at their first colon
      (section 2 of RFC 7617). */
  function Admitted(env: Env, host: string, credentials: Option<string>, path: string): Flight {
    if host !in env.hosts then Rejected(400)
    else
      match Cut(credentials.GetOr(""), ':')
      case None => Rejected(401)
      case Some((username, token)) =>
        var repo := ToLower(path);
        if token == "" then Rejected(401)
        else if repo == "" then Rejected(400)
        else if !env.allow(host, repo) then Rejected(403)
        else Looking(Quad(host, repo, username, token))
  }

  function Next(env: Env, s: State, e: Event): State {
    match e
    case Tick(elapsed) => s.(now := s.now + elapsed)
    case Evict(key) => s.(cache := s.cache - {key})
    case Arrive(pid, host, credentials, path) =>
      if pid in s.flights then s else s.(flights := s.flights[pid := Admitted(env, host, credentials, path)])
    case Get(pid, broken) =>
      if pid !in s.flights || !s.flights[pid].Looking? then s
      else
        var q := s.flights[pid].quad;
        var key := KeyOf(env, q);
        if !broken && key in s.cache && LivesAt(s.cache[key], s.now)
        then s.(flights := s.flights[pid := Served(q, s.cache[key].perm, s.now, true)])
        else s.(flights := s.flights[pid := Asking(q)])
    case Ask(pid, verdict) =>
      if pid !in s.flights || !s.flights[pid].Asking? then s
      else
        (match verdict
         case TokenInvalid => s.(flights := s.flights[pid := Rejected(403)])
         case ForgeError => s.(flights := s.flights[pid := Rejected(500)])
         case Granted(perm, rawTtl) =>
           var g := Grant(s.flights[pid].quad, perm, rawTtl, s.now);
           s.(flights := s.flights[pid := Storing(g)], grants := s.grants + {g}))
    case Set(pid, fails) =>
      if pid !in s.flights || !s.flights[pid].Storing? then s
      else
        var g := s.flights[pid].grant;
        var ttl := AuthCacheTtl(g.rawTtl);
        s.(flights := s.flights[pid := Served(g.quad, g.perm, s.now, false)],
           cache := if ttl >= 0 && !fails then s.cache[KeyOf(env, g.quad) := Item(g.perm, s.now + ttl)] else s.cache)
  }

  function Run(env: Env, s: State, events: seq<Event>): State
    decreases |events|
  {
    if events == [] then s else Run(env, Next(env, s, events[0]), events[1..])
  }

  const INITIAL: State := State(0, map[], map[], {})

  // ------------------------------------------------------------ agreement with the forge

  /** The configuration lets requests for this site through. */
  predicate IsSite(env: Env, x: Site) {
    x.host in env.hosts && x.repo != "" && ToLower(x.repo) == x.repo && env.allow(x.host, x.repo)
  }

  /** A request that can reach the cache. */
  predicate Possible(env: Env, q: Quad) {
    IsSite(env, SiteOf(q)) && ':' !in q.username && q.token != ""
  }

  ghost predicate NoNesting(env: Env) {
    forall x, y | IsSite(env, x) && IsSite(env, y) :: !Nests(x, y)
  }

  ghost predicate KeysApart(env: Env) {
    forall q, p | Possible(env, q) && Possible(env, p) && KeyOf(env, q) == KeyOf(env, p) :: q == p
  }

  lemma LowerTwice(path: string)
    ensures ToLower(ToLower(path)) == ToLower(path)
  {}

  /** The checks let exactly these requests through, for some path and header. */
  lemma PossibleIff(env: Env, q: Quad)
    ensures Possible(env, q) <==>
            exists credentials, path :: Admitted(env, q.host, credentials, path) == Looking(q)
  {
    if Possible(env, q) {
      CutAtFirst(q.username, ':', q.token);
      assert Admitted(env, q.host, Some(q.username + [':'] + q.token), q.repo) == Looking(q);
    }
    forall credentials, path | Admitted(env, q.host, credentials, path) == Looking(q) ensures Possible(env, q) {
      LowerTwice(path);
    }
  }

  /** Different requests have different keys exactly if no site that the
      configuration lets through nests in another. */
  lemma KeysApartIff(env: Env)
    requires Injective(env.hash)
    ensures KeysApart(env) <==> NoNesting(env)
  {
    if NoNesting(env) {
      forall q, p | Possible(env, q) && Possible(env, p) && KeyOf(env, q) == KeyOf(env, p) ensures q == p {
        if q != p { SharedKeysNest(q, p); }
      }
    } else {
      var x, y :| IsSite(env, x) && IsSite(env, y) && Nests(x, y);
      var p := Quad(y.host, y.repo, "", "t");
      var q := NestedSitesCollide(x, y, "", "t");
      assert Possible(env, q) && Possible(env, p) && q != p;
    }
  }

  /** A host without an allowlist, or with a tree of repositories, has sites that
      nest: a repository and the same with a colon behind. */
  lemma TreesNest(env: Env, host: string, tree: Option<string>)
    requires host in env.hosts && (tree.Some? ==> ToLower(tree.value) == tree.value)
    requires forall repo | tree.None? || Below(tree.value, repo) :: env.allow(host, repo)
    ensures !NoNesting(env)
  {
    var repo := if tree.None? then "r" else tree.value + "/" + "r";
    var x, y := Site(host, repo), Site(host, repo + ":");
    assert tree.Some? ==> Below(tree.value, repo) && Below(tree.value, repo + ":");
    assert forall i | 0 <= i < |repo| :: tree.Some? && i < |tree.value| ==> ToLower(tree.value)[i] == repo[i];
    assert ToLower(repo) == repo && ToLower(repo + ":") == repo + ":";
    assert Tag(y) == Tag(x) + ":";
    assert IsSite(env, x) && IsSite(env, y) && Nests(x, y);
  }

  /** A cache write late enough to outlive the token it was made for. */
  predicate Late(s: State, e: Event) {
    && e.Set? && !e.fails && e.pid in s.flights && s.flights[e.pid].Storing?
    && var g := s.flights[e.pid].grant;
       g.rawTtl > 0 && AuthCacheTtl(g.rawTtl) >= 0 && !Absorbed(g.rawTtl, s.now - g.at)
  }

  /** An item under a key stands for a grant of the forge; if no write so far
      was late (`prompt`), it ends in time. */
  predicate ItemFor(env: Env, s: State, prompt: bool, key: string, item: Item, g: Grant) {
    && g in s.grants && Possible(env, g.quad) && KeyOf(env, g.quad) == key
    && item.perm == g.perm && AuthCacheTtl(g.rawTtl) >= 0
    && (prompt && g.rawTtl > 0 ==> item.until <= g.at + g.rawTtl)
  }

  ghost predicate ItemOk(env: Env, s: State, prompt: bool, key: string)
    requires key in s.cache
  {
    exists g :: ItemFor(env, s, prompt, key, s.cache[key], g)
  }

  /** A served request stands for a grant for its own four values; if no write
      so far was late, it is served from the cache no later than the token lives. */
  predicate ServedFor(s: State, prompt: bool, f: Flight, g: Grant)
    requires f.Served?
  {
    && g in s.grants && g.quad == f.quad && g.perm == f.perm
    && (prompt && f.fromCache && g.rawTtl > 0 ==> f.at <= g.at + g.rawTtl)
  }

  ghost predicate FlightOk(env: Env, s: State, prompt: bool, f: Flight) {
    match f
    case Looking(q) => Possible(env, q)
    case Asking(q) => Possible(env, q)
    case Storing(g) => Possible(env, g.quad) && g in s.grants
    case Served(q, _, _, _) => Possible(env, q) && exists g :: ServedFor(s, prompt, f, g)
    case Rejected(_) => true
  }

  ghost predicate Agrees(env: Env, s: State, prompt: bool) {
    && (forall key | key in s.cache :: ItemOk(env, s, prompt, key))
    && (forall pid | pid in s.flights :: FlightOk(env, s, prompt, s.flights[pid]))
  }

  /** The cache and the flights not touched by an event. */
  lemma Stays(env: Env, s: State, t: State, prompt: bool)
    requires Agrees(env, s, prompt) && s.grants <= t.grants && s.now <= t.now
    ensures forall key | key in s.cache && key in t.cache && t.cache[key] == s.cache[key] :: ItemOk(env, t, prompt, key)
    ensures forall pid | pid in s.flights :: FlightOk(env, t, prompt, s.flights[pid])
  {
    forall key | key in s.cache && key in t.cache && t.cache[key] == s.cache[key] ensures ItemOk(env, t, prompt, key) {
      assert ItemOk(env, s, prompt, key);
      var g :| ItemFor(env, s, prompt, key, s.cache[key], g);
      assert ItemFor(env, t, prompt, key, t.cache[key], g);
    }
    forall pid | pid in s.flights ensures FlightOk(env, t, prompt, s.flights[pid]) {
      assert FlightOk(env, s, prompt, s.flights[pid]);
      if s.flights[pid].Served? {
        var g :| ServedFor(s, prompt, s.flights[pid], g);
        assert ServedFor(t, prompt, s.flights[pid], g);
      }
    }
  }

  /** A hit is a permission the forge granted to these very four values. */
  lemma HitAgrees(env: Env, s: State, prompt: bool, q: Quad)
    requires KeysApart(env) && Agrees(env, s, prompt) && Possible(env, q)
    requires KeyOf(env, q) in s.cache && s.now <= s.cache[KeyOf(env, q)].until
    ensures FlightOk(env, s, prompt, Served(q, s.cache[KeyOf(env, q)].perm, s.now, true))
  {
    var key := KeyOf(env, q);
    assert ItemOk(env, s, prompt, key);
    var g :| ItemFor(env, s, prompt, key, s.cache[key], g);
    assert ServedFor(s, prompt, Served(q, s.cache[key].perm, s.now, true), g);
  }

  /** One flight moves, nothing is forgotten, and the cache stays sound. */
  lemma FlightMoves(env: Env, s: State, t: State, prompt: bool, pid: nat, f: Flight)
    requires Agrees(env, s, prompt) && s.grants <= t.grants && s.now <= t.now && t.flights == s.flights[pid := f] && FlightOk(env, t, prompt, f)
    requires forall key | key in t.cache :: (key in s.cache && t.cache[key] == s.cache[key]) || ItemOk(env, t, prompt, key)
    ensures Agrees(env, t, prompt)
  {
    Stays(env, s, t, prompt);
  }

  lemma GetAgrees(env: Env, s: State, prompt: bool, e: Event)
    requires KeysApart(env) && Agrees(env, s, prompt) && e.Get? && e.pid in s.flights && s.flights[e.pid].Looking?
    ensures Agrees(env, Next(env, s, e), prompt)
  {
    var t, q := Next(env, s, e), s.flights[e.pid].quad;
    assert FlightOk(env, s, prompt, s.flights[e.pid]);
    if t.flights[e.pid].Served? {
      HitAgrees(env, s, prompt, q);
      var g :| ServedFor(s, prompt, t.flights[e.pid], g);
      assert ServedFor(t, prompt, t.flights[e.pid], g);
    }
    FlightMoves(env, s, t, prompt, e.pid, t.flights[e.pid]);
  }

  lemma AskAgrees(env: Env, s: State, prompt: bool, e: Event)
    requires Agrees(env, s, prompt) && e.Ask? && e.pid in s.flights && s.flights[e.pid].Asking?
    ensures Agrees(env, Next(env, s, e), prompt)
  {
    var t := Next(env, s, e);
    assert FlightOk(env, s, prompt, s.flights[e.pid]);
    FlightMoves(env, s, t, prompt, e.pid, t.flights[e.pid]);
  }

  lemma SetAgrees(env: Env, s: State, prompt: bool, e: Event)
    requires Agrees(env, s, prompt) && e.Set? && e.pid in s.flights && s.flights[e.pid].Storing? && (prompt ==> !Late(s, e))
    ensures Agrees(env, Next(env, s, e), prompt)
  {
    var t, g := Next(env, s, e), s.flights[e.pid].grant;
    assert FlightOk(env, s, prompt, s.flights[e.pid]);
    assert ServedFor(t, prompt, t.flights[e.pid], g);
    if AuthCacheTtl(g.rawTtl) >= 0 && !e.fails {
      var key := KeyOf(env, g.quad);
      if prompt && g.rawTtl > 0 { EndsInTimeIff(g.rawTtl, s.now - g.at); }
      assert ItemFor(env, t, prompt, key, t.cache[key], g);
    }
    FlightMoves(env, s, t, prompt, e.pid, t.flights[e.pid]);
  }

  lemma ArriveAgrees(env: Env, s: State, prompt: bool, e: Event)
    requires Agrees(env, s, prompt) && e.Arrive? && e.pid !in s.flights
    ensures Agrees(env, Next(env, s, e), prompt)
  {
    LowerTwice(e.path);
    FlightMoves(env, s, Next(env, s, e), prompt, e.pid, Admitted(env, e.host, e.credentials, e.path));
  }

  lemma NextAgrees(env: Env, s: State, prompt: bool, e: Event)
    requires KeysApart(env) && Agrees(env, s, prompt) && (prompt ==> !Late(s, e))
    ensures Agrees(env, Next(env, s, e), prompt)
  {
    match e
    case Tick(_) => Stays(env, s, Next(env, s, e), prompt);
    case Evict(_) => Stays(env, s, Next(env, s, e), prompt);
    case Arrive(pid, _, _, _) => if pid !in s.flights { ArriveAgrees(env, s, prompt, e); }
    case Get(pid, _) => if pid in s.flights && s.flights[pid].Looking? { GetAgrees(env, s, prompt, e); }
    case Ask(pid, _) => if pid in s.flights && s.flights[pid].Asking? { AskAgrees(env, s, prompt, e); }
    case Set(pid, _) => if pid in s.flights && s.flights[pid].Storing? { SetAgrees(env, s, prompt, e); }
  }

  predicate NeverLate(env: Env, s: State, events: seq<Event>)
    decreases |events|
  {
    events == [] || (!Late(s, events[0]) && NeverLate(env, Next(env, s, events[0]), events[1..]))
  }

  lemma {:induction false} RunAgrees(env: Env, s: State, prompt: bool, events: seq<Event>)
    requires KeysApart(env) && Agrees(env, s, prompt) && (prompt ==> NeverLate(env, s, events))
    ensures Agrees(env, Run(env, s, events), prompt)
    decreases |events|
  {
    if events != [] {
      NextAgrees(env, s, prompt, events[0]);
      RunAgrees(env, Next(env, s, events[0]), prompt, events[1..]);
    }
  }

  /** With no nested sites, over every run: a served request got a permission the
      forge granted for the same host, repository, user and token; and if no
      write was late, a cached one was not served after the token expired. */
  lemma CacheAgreesWithForge(env: Env, events: seq<Event>, pid: nat) returns (g: Grant)
    requires Injective(env.hash) && NoNesting(env)
    requires var s := Run(env, INITIAL, events); pid in s.flights && s.flights[pid].Served?
    ensures var s := Run(env, INITIAL, events);
            && Possible(env, s.flights[pid].quad)
            && g in s.grants && g.quad == s.flights[pid].quad && g.perm == s.flights[pid].perm
            && (NeverLate(env, INITIAL, events) && s.flights[pid].fromCache && g.rawTtl > 0 ==> s.flights[pid].at <= g.at + g.rawTtl)
  {
    var prompt := NeverLate(env, INITIAL, events);
    KeysApartIff(env);
    RunAgrees(env, INITIAL, prompt, events);
    var s := Run(env, INITIAL, events);
    assert FlightOk(env, s, prompt, s.flights[pid]);
    g :| ServedFor(s, prompt, s.flights[pid], g);
  }

  // ------------------------------------------------------------ exactly when

  /** Served without a grant for its own four values. */
  predicate ServedUngranted(s: State, pid: nat) {
    pid in s.flights && s.flights[pid].Served? && forall g | g in s.grants :: g.quad != s.flights[pid].quad
  }

  lemma RunCons(env: Env, s: State, e: Event, rest: seq<Event>)
    ensures Run(env, s, [e] + rest) == Run(env, Next(env, s, e), rest)
  {
    assert ([e] + rest)[1..] == rest;
  }

  lemma Arrives(env: Env, s: State, pid: nat, q: Quad) returns (e: Event)
    requires Possible(env, q) && pid !in s.flights
    ensures Next(env, s, e) == s.(flights := s.flights[pid := Looking(q)])
  {
    CutAtFirst(q.username, ':', q.token);
    e := Arrive(pid, q.host, Some(q.username + [':'] + q.token), q.repo);
  }

  /** A first request gets its permission, which is cached. */
  lemma CachesFirst(env: Env, q: Quad, perm: Permission) returns (events: seq<Event>)
    requires Possible(env, q)
    ensures Run(env, INITIAL, events) ==
            State(0, map[KeyOf(env, q) := Item(perm, TTL_DEFAULT)], map[1 := Served(q, perm, 0, false)], {Grant(q, perm, 0, 0)})
  {
    var arrive := Arrives(env, INITIAL, 1, q);
    var s1 := Next(env, INITIAL, arrive);
    var s2 := Next(env, s1, Get(1, false));
    var s3 := Next(env, s2, Ask(1, Granted(perm, 0)));
    assert s2 == State(0, map[], map[1 := Asking(q)], {});
    assert s3 == State(0, map[], map[1 := Storing(Grant(q, perm, 0, 0))], {Grant(q, perm, 0, 0)});
    events := [arrive] + ([Get(1, false)] + ([Ask(1, Granted(perm, 0))] + ([Set(1, false)] + [])));
    RunCons(env, INITIAL, arrive, [Get(1, false)] + ([Ask(1, Granted(perm, 0))] + ([Set(1, false)] + [])));
    RunCons(env, s1, Get(1, false), [Ask(1, Granted(perm, 0))] + ([Set(1, false)] + []));
    RunCons(env, s2, Ask(1, Granted(perm, 0)), [Set(1, false)] + []);
    RunCons(env, s3, Set(1, false), []);
  }

  lemma {:induction false} RunAppend(env: Env, s: State, a: seq<Event>, b: seq<Event>)
    ensures Run(env, s, a + b) == Run(env, Run(env, s, a), b)
    decreases |a|
  {
    if a == [] {
      assert a + b == b;
    } else {
      assert (a + b)[0] == a[0] && (a + b)[1..] == a[1..] + b;
      RunAppend(env, Next(env, s, a[0]), a[1..], b);
    }
  }

  /** Two requests that share a key: once the first has its permission, the
      second is served it. */
  lemma ServesAnother(env: Env, q: Quad, p: Quad, perm: Permission) returns (events: seq<Event>)
    requires Possible(env, q) && Possible(env, p) && q != p && Joined(q) == Joined(p)
    ensures var s := Run(env, INITIAL, events);
            s.flights.Keys == {1, 2} && s.flights[2] == Served(p, perm, 0, true) && s.grants == {Grant(q, perm, 0, 0)}
  {
    var first := CachesFirst(env, q, perm);
    var s := Run(env, INITIAL, first);
    var arrive := Arrives(env, s, 2, p);
    RunCons(env, s, arrive, [Get(2, false)] + []);
    RunCons(env, Next(env, s, arrive), Get(2, false), []);
    events := first + ([arrive] + ([Get(2, false)] + []));
    RunAppend(env, INITIAL, first, [arrive] + ([Get(2, false)] + []));
  }

  /** Every served request of every run has a grant for its own four values
      exactly if no site nests in another. */
  lemma GrantsServeTheirOwnIff(env: Env)
    requires Injective(env.hash)
    ensures (forall events: seq<Event>, pid: nat :: !ServedUngranted(Run(env, INITIAL, events), pid)) <==> NoNesting(env)
  {
    if NoNesting(env) {
      forall events: seq<Event>, pid: nat ensures !ServedUngranted(Run(env, INITIAL, events), pid) {
        if ServedUngranted(Run(env, INITIAL, events), pid) {
          var g := CacheAgreesWithForge(env, events, pid);
        }
      }
    } else {
      var x, y :| IsSite(env, x) && IsSite(env, y) && Nests(x, y);
      var q := NestedSitesCollide(x, y, "", "t");
      var events := ServesAnother(env, Quad(y.host, y.repo, "", "t"), q, Lifecycle.Write);
      assert ServedUngranted(Run(env, INITIAL, events), 2);
    }
  }

  /** What a write stores would be served past the token's life exactly if it is
      late. */
  lemma LateIff(env: Env, s: State, e: Event)
    requires e.Set? && !e.fails && e.pid in s.flights && s.flights[e.pid].Storing?
    requires s.flights[e.pid].grant.rawTtl > 0 && AuthCacheTtl(s.flights[e.pid].grant.rawTtl) >= 0
    ensures var g := s.flights[e.pid].grant;
            Late(s, e) <==> exists t :: LivesAt(Next(env, s, e).cache[KeyOf(env, g.quad)], t) && t > g.at + g.rawTtl
  {
    var g := s.flights[e.pid].grant;
    EndsInTimeIff(g.rawTtl, s.now - g.at);
    var item := Next(env, s, e).cache[KeyOf(env, g.quad)];
    assert LivesAt(item, item.until);
  }
}
