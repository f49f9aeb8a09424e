/**
 Building the command routing table: every configured route is checked, and each of its bots takes each of its
 commands. What actors, bots and adapters exist is given by an environment.
 */
module CommandTable {
  import opened Wrappers

  datatype Matcher = Matcher(supported: bool, pattern: string)

  datatype Registration = Registration(name: string, requestType: string, matcher: Option<Matcher>)

  datatype RouteConfig = RouteConfig(actor: string, platforms: seq<string>, bots: seq<string>, commands: seq<string>,
                                     continues: bool)

  /**
   `contracts` are the commands that the enabled actors declare, `accepts` the request types they take, `botPlatform`
   the normalized platforms of the enabled bots; `fits` is an adapter's verdict on a catalog.
   */
  datatype Env = Env(contracts: map<string, seq<Registration>>, accepts: (string, string) -> bool,
                     botPlatform: map<string, string>, normalize: string -> string, adapters: set<string>,
                     compiles: string -> bool, fits: (BotKey, seq<string>) -> bool)

  datatype BotKey = BotKey(platform: string, bot: string)

  datatype RouteKey = RouteKey(at: BotKey, command: string)

  /** An active route; `continues` is its fallback when the command fails. */
  datatype Entry = Entry(key: RouteKey, actor: string, continues: bool, registration: Registration)

  datatype Pattern = Pattern(command: string, expression: string)

  datatype ActiveBot = ActiveBot(catalog: seq<string>, patterns: seq<Pattern>)

  datatype Table = Table(routes: map<RouteKey, Entry>, bots: map<BotKey, ActiveBot>)

  // ----- what is configured -----

  /** The first of an actor's commands with the name. */
  predicate FirstDeclared(commands: seq<Registration>, name: string, r: Registration) {
    exists j | 0 <= j < |commands| ::
      commands[j] == r && r.name == name && forall l | 0 <= l < j :: commands[l].name != name
  }

  function Declared(commands: seq<Registration>, name: string): (r: Option<Registration>)
    ensures r.Some? ==> r.value in commands && r.value.name == name
  {
    if commands == [] then None
    else if commands[0].name == name then Some(commands[0]) else Declared(commands[1..], name)
  }

  lemma {:induction false} DeclaredIsFirst(commands: seq<Registration>, name: string)
    ensures var r := Declared(commands, name);
            if r.Some? then FirstDeclared(commands, name, r.value) else forall c | c in commands :: c.name != name
  {
    if commands != [] && commands[0].name != name {
      var rest := commands[1..];
      DeclaredIsFirst(rest, name);
      if Declared(rest, name).Some? {
        var r := Declared(rest, name).value;
        var j :| 0 <= j < |rest| && rest[j] == r && forall l | 0 <= l < j :: rest[l].name != name;
        assert commands[j + 1] == r;
        assert forall l | 0 < l < j + 1 :: commands[l] == rest[l - 1];
      }
    }
  }

  /** The entry that a route of an available actor makes for one bot and one declared command. */
  function EntryOf(env: Env, r: RouteConfig, at: BotKey, command: string): Entry
    requires CommandFine(env, r, command)
  {
    Entry(RouteKey(at, command), r.actor, r.continues, Declared(env.contracts[r.actor], command).value)
  }

  predicate CommandFine(env: Env, r: RouteConfig, command: string) {
    && r.actor in env.contracts
    && Declared(env.contracts[r.actor], command).Some?
    && env.accepts(r.actor, Declared(env.contracts[r.actor], command).value.requestType)
  }

  predicate Distinct(s: seq<string>) {
    forall i, j | 0 <= i < j < |s| :: s[i] != s[j]
  }

  function Normalized(env: Env, platforms: seq<string>): (r: seq<string>)
    ensures |r| == |platforms| && forall i | 0 <= i < |r| :: r[i] == env.normalize(platforms[i])
  {
    seq(|platforms|, i requires 0 <= i < |platforms| => env.normalize(platforms[i]))
  }

  predicate PlatformsFine(env: Env, platforms: seq<string>) {
    Distinct(Normalized(env, platforms)) && forall p | p in Normalized(env, platforms) :: p in env.adapters
  }

  predicate CommandsFine(env: Env, r: RouteConfig) {
    Distinct(r.commands) && forall c | c in r.commands :: CommandFine(env, r, c)
  }

  predicate BotFine(env: Env, r: RouteConfig, bot: string) {
    bot in env.botPlatform && env.botPlatform[bot] in Normalized(env, r.platforms)
  }

  predicate Covered(env: Env, r: RouteConfig) {
    forall p {:trigger HasBot(env, r.bots, p)} | p in Normalized(env, r.platforms) :: HasBot(env, r.bots, p)
  }

  predicate HasBot(env: Env, bots: seq<string>, platform: string) {
    exists b | b in bots :: b in env.botPlatform && env.botPlatform[b] == platform
  }

  /** Everything that is checked about one route by itself. */
  predicate RouteFine(env: Env, r: RouteConfig) {
    && r.actor in env.contracts
    && PlatformsFine(env, r.platforms) && CommandsFine(env, r)
    && Distinct(r.bots) && (forall b | b in r.bots :: BotFine(env, r, b))
    && Covered(env, r)
  }

  /** What that means in terms of the configuration. */
  predicate Acceptable(env: Env, r: RouteConfig) {
    r.actor in env.contracts && PlatformsKnown(env, r.platforms) && CommandsUsable(env, r) && BotsSuit(env, r)
  }

  /** No two platforms are the same once normalized, and each has an adapter. */
  predicate PlatformsKnown(env: Env, platforms: seq<string>) {
    && (forall i, j | 0 <= i < j < |platforms| :: env.normalize(platforms[i]) != env.normalize(platforms[j]))
    && forall p | p in platforms :: env.normalize(p) in env.adapters
  }

  predicate CommandsUsable(env: Env, r: RouteConfig)
    requires r.actor in env.contracts
  {
    && (forall i, j | 0 <= i < j < |r.commands| :: r.commands[i] != r.commands[j])
    && forall c | c in r.commands :: Usable(env, r.actor, c)
  }

  /** No bot is listed twice, each is enabled and on one of the platforms, and each platform has one of them. */
  predicate BotsSuit(env: Env, r: RouteConfig) {
    && (forall i, j | 0 <= i < j < |r.bots| :: r.bots[i] != r.bots[j])
    && (forall b | b in r.bots :: b in env.botPlatform && exists p | p in r.platforms :: env.normalize(p) == env.botPlatform[b])
    && forall p | p in r.platforms ::
         exists b | b in r.bots :: b in env.botPlatform && env.botPlatform[b] == env.normalize(p)
  }

  /** The actor declares the command, and accepts the request type of its first declaration. */
  predicate Usable(env: Env, actor: string, command: string)
    requires actor in env.contracts
  {
    exists d | d in env.contracts[actor] ::
      FirstDeclared(env.contracts[actor], command, d) && env.accepts(actor, d.requestType)
  }

  lemma UsableIsFine(env: Env, r: RouteConfig, command: string)
    requires r.actor in env.contracts
    ensures CommandFine(env, r, command) <==> Usable(env, r.actor, command)
  {
    var commands := env.contracts[r.actor];
    DeclaredIsFirst(commands, command);
    if d :| d in commands && FirstDeclared(commands, command, d) && env.accepts(r.actor, d.requestType) {
      FirstIsOne(commands, command, d, Declared(commands, command).value);
    }
  }

  lemma FirstIsOne(commands: seq<Registration>, name: string, c: Registration, d: Registration)
    requires FirstDeclared(commands, name, c) && FirstDeclared(commands, name, d)
    ensures c == d
  {
    var i :| 0 <= i < |commands| && commands[i] == c && c.name == name && forall l | 0 <= l < i :: commands[l].name != name;
    var j :| 0 <= j < |commands| && commands[j] == d && d.name == name && forall l | 0 <= l < j :: commands[l].name != name;
    assert i == j;
  }

  lemma PlatformsMean(env: Env, platforms: seq<string>)
    ensures forall x :: x in Normalized(env, platforms) <==> exists p | p in platforms :: env.normalize(p) == x
  {
    var names := Normalized(env, platforms);
    forall x ensures x in names <==> exists p | p in platforms :: env.normalize(p) == x {
      if p :| p in platforms && env.normalize(p) == x {
        var i :| 0 <= i < |platforms| && platforms[i] == p;
        assert names[i] == x;
      }
      if x in names {
        var i :| 0 <= i < |names| && names[i] == x;
        assert platforms[i] in platforms;
      }
    }
  }

  lemma PlatformsFineMeans(env: Env, platforms: seq<string>)
    ensures PlatformsFine(env, platforms) <==> PlatformsKnown(env, platforms)
  {
    var names := Normalized(env, platforms);
    PlatformsMean(env, platforms);
    if PlatformsFine(env, platforms) {
      forall p | p in platforms ensures env.normalize(p) in env.adapters {
        assert env.normalize(p) in names;
      }
      forall i, j | 0 <= i < j < |platforms| ensures env.normalize(platforms[i]) != env.normalize(platforms[j]) {
        assert names[i] != names[j];
      }
    }
  }

  lemma CommandsFineMeans(env: Env, r: RouteConfig)
    requires r.actor in env.contracts
    ensures CommandsFine(env, r) <==> CommandsUsable(env, r)
  {
    forall c | c in r.commands ensures CommandFine(env, r, c) <==> Usable(env, r.actor, c) {
      UsableIsFine(env, r, c);
    }
  }

  lemma BotsFineMeans(env: Env, r: RouteConfig)
    ensures Distinct(r.bots) && (forall b | b in r.bots :: BotFine(env, r, b)) && Covered(env, r) <==> BotsSuit(env, r)
  {
    PlatformsMean(env, r.platforms);
    assert Covered(env, r) <==> forall p | p in r.platforms :: HasBot(env, r.bots, env.normalize(p)) by {
      if Covered(env, r) {
        forall p | p in r.platforms ensures HasBot(env, r.bots, env.normalize(p)) {
          assert env.normalize(p) in Normalized(env, r.platforms);
        }
      }
    }
    forall b | b in r.bots && b in env.botPlatform
      ensures BotFine(env, r, b) <==> exists p | p in r.platforms :: env.normalize(p) == env.botPlatform[b]
    {
    }
  }

  lemma FineIsAcceptable(env: Env, r: RouteConfig)
    ensures RouteFine(env, r) <==> Acceptable(env, r)
  {
    PlatformsFineMeans(env, r.platforms);
    BotsFineMeans(env, r);
    if r.actor in env.contracts {
      CommandsFineMeans(env, r);
    }
  }

  predicate MatcherFine(env: Env, e: Entry) {
    e.registration.matcher.Some? ==> e.registration.matcher.value.supported && env.compiles(e.registration.matcher.value.pattern)
  }

  /** Two entries that cannot both be active: the same key, or the same pattern of one bot. */
  predicate Clash(a: Entry, b: Entry) {
    || a.key == b.key
    || (a.key.at == b.key.at && a.registration.matcher.Some? && b.registration.matcher.Some?
        && a.registration.matcher.value.pattern == b.registration.matcher.value.pattern)
  }

  predicate EntriesFine(env: Env, entries: seq<Entry>) {
    && (forall i | 0 <= i < |entries| :: MatcherFine(env, entries[i]))
    && forall i, j | 0 <= i < j < |entries| :: !Clash(entries[i], entries[j])
  }

  // ----- what the table holds -----

  /** Routes are exactly the entries; every bot's catalog and patterns are exactly those of its entries. */
  ghost predicate Holds(t: Table, entries: seq<Entry>) {
    && (forall i | 0 <= i < |entries| :: entries[i].key in t.routes && t.routes[entries[i].key] == entries[i])
    && (forall k {:trigger Backed(t, entries, k)} | k in t.routes :: Backed(t, entries, k))
    && (forall b {:trigger BotHolds(b, t.bots[b], t.routes)} | b in t.bots :: BotHolds(b, t.bots[b], t.routes))
  }

  predicate Backed(t: Table, entries: seq<Entry>, k: RouteKey)
    requires k in t.routes
  {
    t.routes[k] in entries && t.routes[k].key == k && k.at in t.bots
  }

  ghost predicate BotHolds(at: BotKey, bot: ActiveBot, routes: map<RouteKey, Entry>) {
    && Distinct(bot.catalog)
    && (forall c :: c in bot.catalog <==> RouteKey(at, c) in routes)
    && (forall p :: p in bot.patterns <==> RouteKey(at, p.command) in routes && HasPattern(routes[RouteKey(at, p.command)], p.expression))
  }

  predicate HasPattern(e: Entry, expression: string) {
    e.registration.matcher.Some? && e.registration.matcher.value.pattern == expression
  }

  // ----- adding one entry -----

  datatype Added = Added(table: Table) | Conflict | Unsupported | SamePattern | Uncompilable

  /** The innermost part of the loops: one command of one bot. */
  method AddEntry(env: Env, t: Table, e: Entry, ghost entries: seq<Entry>) returns (r: Added)
    requires Holds(t, entries) && EntriesFine(env, entries) && e.key.at in t.bots
    ensures r.Added? <==> EntriesFine(env, entries + [e])
    ensures r.Added? ==> Holds(r.table, entries + [e]) && r.table.bots.Keys == t.bots.Keys
  {
    if e.key in t.routes {
      KeyClashes(env, t, e, entries);
      return Conflict;
    }
    var bot := t.bots[e.key.at];
    var patterns := bot.patterns;
    if e.registration.matcher.Some? {
      var m := e.registration.matcher.value;
      if !m.supported {
        assert !MatcherFine(env, (entries + [e])[|entries|]);
        return Unsupported;
      }
      var same := UsesPattern(bot.patterns, m.pattern);
      if same {
        PatternClashes(env, t, e, entries);
        return SamePattern;
      }
      if !env.compiles(m.pattern) {
        assert !MatcherFine(env, (entries + [e])[|entries|]);
        return Uncompilable;
      }
      patterns := patterns + [Pattern(e.key.command, m.pattern)];
    }
    EntryIsFine(env, t, e, entries);
    var bot' := ActiveBot(bot.catalog + [e.key.command], patterns);
    r := Added(Table(t.routes[e.key := e], t.bots[e.key.at := bot']));
    EntryIsHeld(t, e, entries, bot');
  }

  method UsesPattern(patterns: seq<Pattern>, expression: string) returns (used: bool)
    ensures used <==> exists p | p in patterns :: p.expression == expression
  {
    var i := 0;
    while i < |patterns|
      invariant i <= |patterns| && forall k | 0 <= k < i :: patterns[k].expression != expression
    {
      if patterns[i].expression == expression {
        return true;
      }
      i := i + 1;
    }
    used := false;
  }

  lemma KeyClashes(env: Env, t: Table, e: Entry, entries: seq<Entry>)
    requires Holds(t, entries) && e.key in t.routes
    ensures !EntriesFine(env, entries + [e])
  {
    assert Backed(t, entries, e.key);
    var i :| 0 <= i < |entries| && entries[i] == t.routes[e.key];
    assert Clash((entries + [e])[i], (entries + [e])[|entries|]);
  }

  lemma PatternClashes(env: Env, t: Table, e: Entry, entries: seq<Entry>)
    requires Holds(t, entries) && e.key.at in t.bots && e.registration.matcher.Some?
    requires exists p | p in t.bots[e.key.at].patterns :: p.expression == e.registration.matcher.value.pattern
    ensures !EntriesFine(env, entries + [e])
  {
    var p :| p in t.bots[e.key.at].patterns && p.expression == e.registration.matcher.value.pattern;
    assert BotHolds(e.key.at, t.bots[e.key.at], t.routes);
    var other := t.routes[RouteKey(e.key.at, p.command)];
    assert Backed(t, entries, RouteKey(e.key.at, p.command));
    var i :| 0 <= i < |entries| && entries[i] == other;
    assert Clash((entries + [e])[i], (entries + [e])[|entries|]);
  }

  lemma EntryIsFine(env: Env, t: Table, e: Entry, entries: seq<Entry>)
    requires Holds(t, entries) && EntriesFine(env, entries) && e.key.at in t.bots && e.key !in t.routes && MatcherFine(env, e)
    requires e.registration.matcher.Some? ==>
               forall p | p in t.bots[e.key.at].patterns :: p.expression != e.registration.matcher.value.pattern
    ensures EntriesFine(env, entries + [e])
  {
    var more := entries + [e];
    forall i | 0 <= i < |entries| ensures !Clash(entries[i], e) {
      var k := entries[i].key;
      assert k in t.routes && t.routes[k] == entries[i] && Backed(t, entries, k);
      if k.at == e.key.at && entries[i].registration.matcher.Some? {
        assert BotHolds(k.at, t.bots[k.at], t.routes);
        assert Pattern(k.command, entries[i].registration.matcher.value.pattern) in t.bots[k.at].patterns;
      }
    }
    forall i, j | 0 <= i < j < |more| ensures !Clash(more[i], more[j]) {
      if j < |entries| {
        assert !Clash(entries[i], entries[j]);
      }
    }
  }

  lemma EntryIsHeld(t: Table, e: Entry, entries: seq<Entry>, bot: ActiveBot)
    requires Holds(t, entries) && e.key.at in t.bots && e.key !in t.routes
    requires bot.catalog == t.bots[e.key.at].catalog + [e.key.command]
    requires bot.patterns == t.bots[e.key.at].patterns
                             + if e.registration.matcher.Some? then [Pattern(e.key.command, e.registration.matcher.value.pattern)] else []
    ensures Holds(Table(t.routes[e.key := e], t.bots[e.key.at := bot]), entries + [e])
  {
    var routes, bots := t.routes[e.key := e], t.bots[e.key.at := bot];
    assert BotHolds(e.key.at, t.bots[e.key.at], t.routes);
    assert e.key == RouteKey(e.key.at, e.key.command);
    assert BotHolds(e.key.at, bot, routes);
    forall b | b in bots ensures BotHolds(b, bots[b], routes) {
      if b != e.key.at {
        assert BotHolds(b, t.bots[b], t.routes);
      }
    }
    assert (entries + [e])[|entries|] == e;
    forall k | k in routes ensures Backed(Table(routes, bots), entries + [e], k) {
      if k != e.key {
        assert Backed(t, entries, k);
      }
    }
  }

  // ----- all entries -----

  /** The key of a route's bot number `m`. */
  function At(env: Env, r: RouteConfig, m: nat): BotKey
    requires RouteFine(env, r) && m < |r.bots|
  {
    assert r.bots[m] in r.bots;
    BotKey(env.botPlatform[r.bots[m]], r.bots[m])
  }

  /** The entries of one bot for the first `n` commands of a route. */
  function BotEntries(env: Env, r: RouteConfig, at: BotKey, n: nat): (entries: seq<Entry>)
    requires CommandsFine(env, r) && n <= |r.commands|
    ensures |entries| == n && forall i | 0 <= i < n :: entries[i] == EntryOf(env, r, at, r.commands[i])
  {
    if n == 0 then [] else BotEntries(env, r, at, n - 1) + [EntryOf(env, r, at, r.commands[n - 1])]
  }

  /** The entries of a route for its first `m` bots. */
  function RouteEntries(env: Env, r: RouteConfig, m: nat): seq<Entry>
    requires RouteFine(env, r) && m <= |r.bots|
  {
    if m == 0 then []
    else RouteEntries(env, r, m - 1) + BotEntries(env, r, At(env, r, m - 1), |r.commands|)
  }

  predicate RoutesFine(env: Env, rs: seq<RouteConfig>) {
    forall i | 0 <= i < |rs| :: RouteFine(env, rs[i])
  }

  function AllEntries(env: Env, rs: seq<RouteConfig>, n: nat): seq<Entry>
    requires n <= |rs| && RoutesFine(env, rs)
  {
    if n == 0 then [] else AllEntries(env, rs, n - 1) + RouteEntries(env, rs[n - 1], |rs[n - 1].bots|)
  }

  lemma {:induction false} RoutePrefix(env: Env, r: RouteConfig, m: nat, more: nat)
    requires RouteFine(env, r) && m <= more <= |r.bots|
    ensures RouteEntries(env, r, m) <= RouteEntries(env, r, more)
  {
    if m < more {
      RoutePrefix(env, r, m, more - 1);
    }
  }

  lemma {:induction false} AllPrefix(env: Env, rs: seq<RouteConfig>, n: nat, more: nat)
    requires RoutesFine(env, rs) && n <= more <= |rs|
    ensures AllEntries(env, rs, n) <= AllEntries(env, rs, more)
  {
    if n < more {
      AllPrefix(env, rs, n, more - 1);
    }
  }

  lemma PrefixFine(env: Env, entries: seq<Entry>, all: seq<Entry>)
    requires entries <= all && EntriesFine(env, all)
    ensures EntriesFine(env, entries)
  {
    assert forall i | 0 <= i < |entries| :: entries[i] == all[i];
  }

  /** A triple of platform, bot and command that the configuration names. */
  ghost predicate Configured(env: Env, rs: seq<RouteConfig>, k: RouteKey) {
    exists i, b, c | 0 <= i < |rs| && b in rs[i].bots && c in rs[i].commands ::
      b in env.botPlatform && k == RouteKey(BotKey(env.botPlatform[b], b), c)
  }

  /** A bot that some configured route names. */
  ghost predicate ConfiguredBot(env: Env, rs: seq<RouteConfig>, b: BotKey) {
    exists i | 0 <= i < |rs| :: SelectedBy(env, rs[i], b)
  }

  ghost predicate SelectedBy(env: Env, r: RouteConfig, b: BotKey) {
    b.bot in r.bots && b.bot in env.botPlatform && b.platform == env.botPlatform[b.bot]
  }

  /** When the routes of a table can be entered. */
  ghost predicate Buildable(env: Env, rs: seq<RouteConfig>) {
    RoutesFine(env, rs) && EntriesFine(env, AllEntries(env, rs, |rs|))
  }

  // ----- the checks of one route -----

  method HasDuplicate(s: seq<string>) returns (dup: bool)
    ensures dup <==> !Distinct(s)
  {
    var seen := {};
    var i := 0;
    while i < |s|
      invariant i <= |s| && Distinct(s[..i]) && forall x :: x in seen <==> x in s[..i]
    {
      assert s[..i + 1] == s[..i] + [s[i]];
      if s[i] in seen {
        return true;
      }
      seen := seen + {s[i]};
      i := i + 1;
    }
    assert s[..i] == s;
    dup := false;
  }

  method CheckPlatforms(env: Env, platforms: seq<string>) returns (ok: bool)
    ensures ok <==> PlatformsFine(env, platforms)
  {
    var names := Normalized(env, platforms);
    var dup := HasDuplicate(names);
    if dup {
      return false;
    }
    var i := 0;
    while i < |names|
      invariant i <= |names| && forall k | 0 <= k < i :: names[k] in env.adapters
    {
      if names[i] !in env.adapters {
        return false;
      }
      i := i + 1;
    }
    ok := true;
  }

  method CheckCommands(env: Env, r: RouteConfig) returns (ok: bool)
    ensures ok <==> CommandsFine(env, r)
  {
    var dup := HasDuplicate(r.commands);
    if dup {
      return false;
    }
    var i := 0;
    while i < |r.commands|
      invariant i <= |r.commands| && forall k | 0 <= k < i :: CommandFine(env, r, r.commands[k])
    {
      if !CommandFine(env, r, r.commands[i]) {
        return false;
      }
      i := i + 1;
    }
    ok := true;
  }

  method CheckBots(env: Env, r: RouteConfig) returns (ok: bool)
    ensures ok <==> Distinct(r.bots) && (forall b | b in r.bots :: BotFine(env, r, b)) && Covered(env, r)
  {
    var dup := HasDuplicate(r.bots);
    if dup {
      return false;
    }
    var covered := {};
    var i := 0;
    while i < |r.bots|
      invariant i <= |r.bots| && forall k | 0 <= k < i :: BotFine(env, r, r.bots[k])
      invariant forall p :: p in covered <==> exists k | 0 <= k < i :: env.botPlatform[r.bots[k]] == p
    {
      if !BotFine(env, r, r.bots[i]) {
        return false;
      }
      covered := covered + {env.botPlatform[r.bots[i]]};
      i := i + 1;
    }
    ok := forall p | p in Normalized(env, r.platforms) :: p in covered;
    assert Covered(env, r) <==> ok by {
      forall p | p in Normalized(env, r.platforms)
        ensures p in covered <==> HasBot(env, r.bots, p)
      {
        if b :| b in r.bots && b in env.botPlatform && env.botPlatform[b] == p {
          var k :| 0 <= k < |r.bots| && r.bots[k] == b;
        }
      }
    }
  }

  method CheckRoute(env: Env, r: RouteConfig) returns (ok: bool)
    ensures ok <==> RouteFine(env, r)
    ensures ok <==> Acceptable(env, r)
  {
    FineIsAcceptable(env, r);
    if r.actor !in env.contracts {
      return false;
    }
    ok := CheckPlatforms(env, r.platforms);
    if ok {
      ok := CheckCommands(env, r);
    }
    if ok {
      ok := CheckBots(env, r);
    }
  }

  // ----- building -----

  /** `try_emplace` of a bot. */
  method EnsureBot(t: Table, at: BotKey, ghost entries: seq<Entry>) returns (t': Table)
    requires Holds(t, entries)
    ensures Holds(t', entries) && t'.bots.Keys == t.bots.Keys + {at}
  {
    t' := t;
    if at !in t.bots {
      t' := t.(bots := t.bots[at := ActiveBot([], [])]);
      forall b | b in t'.bots ensures BotHolds(b, t'.bots[b], t'.routes) {
        if b in t.bots {
          assert BotHolds(b, t.bots[b], t.routes);
        } else {
          forall k | k in t.routes ensures k.at != at {
            assert Backed(t, entries, k);
          }
        }
      }
      forall k | k in t'.routes ensures Backed(t', entries, k) {
        assert Backed(t, entries, k);
      }
    }
  }

  method AddBot(env: Env, r: RouteConfig, m: nat, t: Table, ghost entries: seq<Entry>) returns (t': Option<Table>)
    requires RouteFine(env, r) && m < |r.bots| && Holds(t, entries) && EntriesFine(env, entries)
    ensures var more := entries + BotEntries(env, r, At(env, r, m), |r.commands|);
            && (t'.Some? <==> EntriesFine(env, more))
            && (t'.Some? ==> Holds(t'.value, more) && t'.value.bots.Keys == t.bots.Keys + {At(env, r, m)})
  {
    var at := At(env, r, m);
    var cur := EnsureBot(t, at, entries);
    var n := 0;
    assert entries + BotEntries(env, r, at, 0) == entries;
    while n < |r.commands|
      invariant n <= |r.commands| && cur.bots.Keys == t.bots.Keys + {at}
      invariant Holds(cur, entries + BotEntries(env, r, at, n)) && EntriesFine(env, entries + BotEntries(env, r, at, n))
    {
      ghost var so := entries + BotEntries(env, r, at, n);
      var e := EntryOf(env, r, at, r.commands[n]);
      assert so + [e] == entries + BotEntries(env, r, at, n + 1);
      var added := AddEntry(env, cur, e, so);
      if !added.Added? {
        BotLater(env, r, at, n + 1, entries);
        return None;
      }
      cur := added.table;
      n := n + 1;
    }
    t' := Some(cur);
  }

  lemma BotLater(env: Env, r: RouteConfig, at: BotKey, n: nat, entries: seq<Entry>)
    requires CommandsFine(env, r) && n <= |r.commands| && !EntriesFine(env, entries + BotEntries(env, r, at, n))
    ensures !EntriesFine(env, entries + BotEntries(env, r, at, |r.commands|))
  {
    if EntriesFine(env, entries + BotEntries(env, r, at, |r.commands|)) {
      PrefixFine(env, entries + BotEntries(env, r, at, n), entries + BotEntries(env, r, at, |r.commands|));
    }
  }

  method AddRoute(env: Env, r: RouteConfig, t: Table, ghost entries: seq<Entry>) returns (t': Option<Table>)
    requires RouteFine(env, r) && Holds(t, entries) && EntriesFine(env, entries)
    ensures t'.Some? <==> EntriesFine(env, entries + RouteEntries(env, r, |r.bots|))
    ensures t'.Some? ==> Holds(t'.value, entries + RouteEntries(env, r, |r.bots|))
    ensures t'.Some? ==> t'.value.bots.Keys == t.bots.Keys + BotsOf(env, r, |r.bots|)
  {
    t' := Some(t);
    var m := 0;
    assert entries + RouteEntries(env, r, 0) == entries;
    while m < |r.bots|
      invariant m <= |r.bots| && t'.Some? && WithinRoute(env, r, m, t, t'.value, entries)
    {
      t' := AddNextBot(env, r, m, t, t'.value, entries);
      m := m + 1;
      if t'.None? {
        RouteLater(env, r, m, entries);
        return;
      }
    }
  }

  /** The table `cur` has come from `t` by the first `m` bots of a route. */
  ghost predicate WithinRoute(env: Env, r: RouteConfig, m: nat, t: Table, cur: Table, entries: seq<Entry>)
    requires RouteFine(env, r) && m <= |r.bots|
  {
    && Holds(cur, entries + RouteEntries(env, r, m)) && EntriesFine(env, entries + RouteEntries(env, r, m))
    && cur.bots.Keys == t.bots.Keys + BotsOf(env, r, m)
  }

  method AddNextBot(env: Env, r: RouteConfig, m: nat, ghost t: Table, cur: Table, ghost entries: seq<Entry>)
    returns (t': Option<Table>)
    requires RouteFine(env, r) && m < |r.bots| && WithinRoute(env, r, m, t, cur, entries)
    ensures t'.Some? <==> EntriesFine(env, entries + RouteEntries(env, r, m + 1))
    ensures t'.Some? ==> WithinRoute(env, r, m + 1, t, t'.value, entries)
  {
    RouteStep(env, r, m, entries);
    t' := AddBot(env, r, m, cur, entries + RouteEntries(env, r, m));
  }

  /** The keys of a route's first `m` bots. */
  function BotsOf(env: Env, r: RouteConfig, m: nat): set<BotKey>
    requires RouteFine(env, r) && m <= |r.bots|
  {
    if m == 0 then {} else BotsOf(env, r, m - 1) + {At(env, r, m - 1)}
  }

  lemma {:induction false} BotsSelected(env: Env, r: RouteConfig, m: nat)
    requires RouteFine(env, r) && m <= |r.bots|
    ensures forall b :: b in BotsOf(env, r, m) <==> exists k | 0 <= k < m :: b == At(env, r, k)
  {
    if m > 0 {
      BotsSelected(env, r, m - 1);
    }
  }

  lemma RouteSelects(env: Env, r: RouteConfig)
    requires RouteFine(env, r)
    ensures forall b :: b in BotsOf(env, r, |r.bots|) <==> SelectedBy(env, r, b)
  {
    BotsSelected(env, r, |r.bots|);
    forall b ensures b in BotsOf(env, r, |r.bots|) <==> SelectedBy(env, r, b) {
      if SelectedBy(env, r, b) {
        var k :| 0 <= k < |r.bots| && r.bots[k] == b.bot;
        assert b == At(env, r, k);
      }
      if k :| 0 <= k < |r.bots| && b == At(env, r, k) {
        assert r.bots[k] in r.bots && BotFine(env, r, r.bots[k]);
      }
    }
  }

  lemma RouteStep(env: Env, r: RouteConfig, m: nat, entries: seq<Entry>)
    requires RouteFine(env, r) && m < |r.bots|
    ensures entries + RouteEntries(env, r, m) + BotEntries(env, r, At(env, r, m), |r.commands|)
            == entries + RouteEntries(env, r, m + 1)
  {
  }

  lemma RouteLater(env: Env, r: RouteConfig, m: nat, entries: seq<Entry>)
    requires RouteFine(env, r) && m <= |r.bots| && !EntriesFine(env, entries + RouteEntries(env, r, m))
    ensures !EntriesFine(env, entries + RouteEntries(env, r, |r.bots|))
  {
    RoutePrefix(env, r, m, |r.bots|);
    if EntriesFine(env, entries + RouteEntries(env, r, |r.bots|)) {
      PrefixFine(env, entries + RouteEntries(env, r, m), entries + RouteEntries(env, r, |r.bots|));
    }
  }

  // ----- sorting -----

  /** The order of strings. */
  predicate Before(a: string, b: string) {
    a == "" || (b != "" && (a[0] < b[0] || (a[0] == b[0] && Before(a[1..], b[1..]))))
  }

  /** It is lexicographic: a beginning comes first, and otherwise the first difference decides. */
  lemma {:induction false} BeforeIsLexicographic(a: string, b: string)
    ensures Before(a, b) <==> a <= b || exists k :: 0 <= k < |a| && k < |b| && a[..k] == b[..k] && a[k] < b[k]
  {
    if a != "" && b != "" && a[0] == b[0] {
      var c, d := a[1..], b[1..];
      BeforeIsLexicographic(c, d);
      assert a == [a[0]] + c && b == [b[0]] + d;
      if k :| 0 <= k < |c| && k < |d| && c[..k] == d[..k] && c[k] < d[k] {
        assert a[..k + 1] == [a[0]] + c[..k] && b[..k + 1] == [b[0]] + d[..k];
        assert a[k + 1] < b[k + 1];
      }
      if k :| 0 <= k < |a| && k < |b| && a[..k] == b[..k] && a[k] < b[k] {
        assert k > 0;
        assert c[..k - 1] == a[..k][1..] && d[..k - 1] == b[..k][1..];
        assert c[k - 1] < d[k - 1];
      }
    } else if a != "" && b != "" {
      forall k | 0 < k < |a| && k < |b| ensures a[..k] != b[..k] {
        assert a[..k][0] != b[..k][0];
      }
      if a[0] < b[0] {
        assert a[..0] == b[..0];
      }
    }
  }

  lemma {:induction false} BeforeTotal(a: string, b: string)
    ensures Before(a, b) || Before(b, a)
  {
    if a != "" && b != "" {
      BeforeTotal(a[1..], b[1..]);
    }
  }

  lemma {:induction false} BeforeTransitive(a: string, b: string, c: string)
    requires Before(a, b) && Before(b, c)
    ensures Before(a, c)
  {
    if a != "" && a[0] == b[0] == c[0] {
      BeforeTransitive(a[1..], b[1..], c[1..]);
    }
  }

  predicate Sorted(s: seq<string>) {
    forall i, j | 0 <= i < j < |s| :: Before(s[i], s[j])
  }

  method Insert(s: seq<string>, x: string) returns (r: seq<string>)
    requires Sorted(s)
    ensures Sorted(r) && multiset(r) == multiset(s) + multiset{x}
  {
    var k := 0;
    while k < |s| && Before(s[k], x)
      invariant k <= |s| && forall i | 0 <= i < k :: Before(s[i], x)
    {
      k := k + 1;
    }
    r := s[..k] + [x] + s[k..];
    assert s == s[..k] + s[k..];
    forall i | k <= i < |s| ensures Before(x, s[i]) {
      BeforeTotal(x, s[k]);
      if i > k {
        BeforeTransitive(x, s[k], s[i]);
      }
    }
  }

  method SortNames(names: seq<string>) returns (r: seq<string>)
    ensures Sorted(r) && multiset(r) == multiset(names)
  {
    r := [];
    var i := 0;
    while i < |names|
      invariant i <= |names| && Sorted(r) && multiset(r) == multiset(names[..i])
    {
      assert names[..i + 1] == names[..i] + [names[i]];
      r := Insert(r, names[i]);
      i := i + 1;
    }
    assert names[..i] == names;
  }

  lemma {:induction false} DistinctIsBag(s: seq<string>)
    ensures Distinct(s) <==> forall x :: multiset(s)[x] <= 1
  {
    if s != [] {
      var init, last := s[..|s| - 1], s[|s| - 1];
      DistinctIsBag(init);
      assert s == init + [last];
      if Distinct(s) {
        assert last !in init;
      } else if Distinct(init) {
        var i, j :| 0 <= i < j < |s| && s[i] == s[j];
        assert j == |init| && init[i] == last;
        assert multiset(s)[last] >= 2;
      } else {
        var x :| multiset(init)[x] > 1;
        assert multiset(s)[x] > 1;
      }
    }
  }

  /** Sorting a catalog keeps what the table holds. */
  lemma SortedHolds(t: Table, entries: seq<Entry>, at: BotKey, catalog: seq<string>)
    requires Holds(t, entries) && at in t.bots && multiset(catalog) == multiset(t.bots[at].catalog)
    ensures Holds(t.(bots := t.bots[at := t.bots[at].(catalog := catalog)]), entries)
  {
    var bots := t.bots[at := t.bots[at].(catalog := catalog)];
    assert BotHolds(at, t.bots[at], t.routes);
    DistinctIsBag(catalog);
    DistinctIsBag(t.bots[at].catalog);
    forall c ensures c in catalog <==> c in t.bots[at].catalog {
      assert c in multiset(catalog) <==> c in multiset(t.bots[at].catalog);
    }
    assert BotHolds(at, bots[at], t.routes);
    forall b | b in bots ensures BotHolds(b, bots[b], t.routes) {
      if b != at {
        assert BotHolds(b, t.bots[b], t.routes);
      }
    }
    forall k | k in t.routes ensures Backed(t.(bots := bots), entries, k) {
      assert Backed(t, entries, k);
    }
  }

  // ----- the table -----

  /** A table is right for a configuration. */
  ghost predicate IsTableOf(env: Env, rs: seq<RouteConfig>, t: Table) {
    && (forall k :: k in t.routes <==> Configured(env, rs, k))
    && (forall b :: b in t.bots <==> ConfiguredBot(env, rs, b))
    && (forall b | b in t.bots :: Sorted(t.bots[b].catalog) && Distinct(t.bots[b].catalog)
                                  && forall c :: c in t.bots[b].catalog <==> RouteKey(b, c) in t.routes)
    && (forall b, p {:trigger p in t.bots[b].patterns} | b in t.bots ::
          p in t.bots[b].patterns <==>
            RouteKey(b, p.command) in t.routes && HasPattern(t.routes[RouteKey(b, p.command)], p.expression))
    && (forall k | k in t.routes :: k.at in t.bots && t.routes[k].key == k && Owned(env, rs, t.routes[k]))
  }

  /** Some configured route names the entry's bot and command, and the entry is made of that route's parts. */
  ghost predicate Owned(env: Env, rs: seq<RouteConfig>, e: Entry) {
    exists i | 0 <= i < |rs| :: OwnedBy(env, rs[i], e)
  }

  ghost predicate OwnedBy(env: Env, r: RouteConfig, e: Entry) {
    && SelectedBy(env, r, e.key.at) && e.key.command in r.commands
    && e.actor == r.actor && e.continues == r.continues
    && r.actor in env.contracts && FirstDeclared(env.contracts[r.actor], e.key.command, e.registration)
  }

  lemma {:induction false} RouteOwns(env: Env, r: RouteConfig, m: nat)
    requires RouteFine(env, r) && m <= |r.bots|
    ensures forall e | e in RouteEntries(env, r, m) :: OwnedBy(env, r, e)
  {
    if m > 0 {
      RouteOwns(env, r, m - 1);
      BotOwns(env, r, m - 1);
    }
  }

  lemma BotOwns(env: Env, r: RouteConfig, m: nat)
    requires RouteFine(env, r) && m < |r.bots|
    ensures forall e | e in BotEntries(env, r, At(env, r, m), |r.commands|) :: OwnedBy(env, r, e)
  {
    var entries := BotEntries(env, r, At(env, r, m), |r.commands|);
    assert r.bots[m] in r.bots;
    forall e | e in entries ensures OwnedBy(env, r, e) {
      var i :| 0 <= i < |entries| && entries[i] == e;
      assert e == EntryOf(env, r, At(env, r, m), r.commands[i]);
      DeclaredIsFirst(env.contracts[r.actor], r.commands[i]);
    }
  }

  lemma {:induction false} AllOwned(env: Env, rs: seq<RouteConfig>, n: nat)
    requires RoutesFine(env, rs) && n <= |rs|
    ensures forall e | e in AllEntries(env, rs, n) :: Owned(env, rs, e)
  {
    if n > 0 {
      AllOwned(env, rs, n - 1);
      RouteOwns(env, rs[n - 1], |rs[n - 1].bots|);
      forall e | e in AllEntries(env, rs, n) ensures Owned(env, rs, e) {
        if e in RouteEntries(env, rs[n - 1], |rs[n - 1].bots|) {
          assert OwnedBy(env, rs[n - 1], e);
        }
      }
    }
  }

  /** The first half of `build_command_routing_table`: all routes, in order. */
  method AddRoutes(env: Env, rs: seq<RouteConfig>) returns (t: Option<Table>)
    ensures t.Some? <==> Buildable(env, rs)
    ensures t.Some? ==> Holds(t.value, AllEntries(env, rs, |rs|))
    ensures t.Some? ==> forall b :: b in t.value.bots <==> ConfiguredBot(env, rs, b)
  {
    var cur := Table(map[], map[]);
    var i := 0;
    assert AllEntries(env, rs[..0], 0) == [];
    while i < |rs|
      invariant i <= |rs| && RoutesFine(env, rs[..i])
      invariant EntriesFine(env, AllEntries(env, rs[..i], i)) && Holds(cur, AllEntries(env, rs[..i], i))
      invariant forall b :: b in cur.bots <==> ConfiguredBot(env, rs[..i], b)
    {
      var ok := CheckRoute(env, rs[i]);
      if !ok {
        return None;
      }
      ghost var so := AllEntries(env, rs[..i], i);
      SameEntries(env, rs[..i], rs[..i + 1], i);
      var added := AddRoute(env, rs[i], cur, so);
      if added.None? {
        PrefixNotBuildable(env, rs, i + 1);
        return None;
      }
      ConfiguredMore(env, rs, i, cur.bots.Keys, added.value.bots.Keys);
      cur := added.value;
      i := i + 1;
    }
    assert rs[..i] == rs;
    t := Some(cur);
  }

  lemma ConfiguredMore(env: Env, rs: seq<RouteConfig>, i: nat, bots: set<BotKey>, more: set<BotKey>)
    requires i < |rs| && RouteFine(env, rs[i]) && more == bots + BotsOf(env, rs[i], |rs[i].bots|)
    requires forall b :: b in bots <==> ConfiguredBot(env, rs[..i], b)
    ensures forall b :: b in more <==> ConfiguredBot(env, rs[..i + 1], b)
  {
    RouteSelects(env, rs[i]);
    forall b ensures ConfiguredBot(env, rs[..i + 1], b) <==> ConfiguredBot(env, rs[..i], b) || SelectedBy(env, rs[i], b) {
      if ConfiguredBot(env, rs[..i], b) {
        var k :| 0 <= k < |rs[..i]| && SelectedBy(env, rs[..i][k], b);
        assert rs[..i + 1][k] == rs[..i][k];
      }
      if SelectedBy(env, rs[i], b) {
        assert rs[..i + 1][i] == rs[i];
      }
      if ConfiguredBot(env, rs[..i + 1], b) {
        var k :| 0 <= k < |rs[..i + 1]| && SelectedBy(env, rs[..i + 1][k], b);
        assert k < i ==> rs[..i][k] == rs[..i + 1][k];
      }
    }
  }

  lemma {:induction false} SameEntries(env: Env, rs: seq<RouteConfig>, more: seq<RouteConfig>, n: nat)
    requires RoutesFine(env, rs) && RoutesFine(env, more) && n <= |rs| && rs <= more
    ensures AllEntries(env, rs, n) == AllEntries(env, more, n)
  {
    if n > 0 {
      SameEntries(env, rs, more, n - 1);
    }
  }

  lemma PrefixNotBuildable(env: Env, rs: seq<RouteConfig>, n: nat)
    requires n <= |rs| && RoutesFine(env, rs[..n]) && !EntriesFine(env, AllEntries(env, rs[..n], n))
    ensures !Buildable(env, rs)
  {
    if Buildable(env, rs) {
      SameEntries(env, rs[..n], rs, n);
      AllPrefix(env, rs, n, |rs|);
      PrefixFine(env, AllEntries(env, rs, n), AllEntries(env, rs, |rs|));
    }
  }

  predicate KeyIn(entries: seq<Entry>, k: RouteKey) {
    exists i | 0 <= i < |entries| :: entries[i].key == k
  }

  lemma KeyInSum(a: seq<Entry>, b: seq<Entry>, k: RouteKey)
    ensures KeyIn(a + b, k) <==> KeyIn(a, k) || KeyIn(b, k)
  {
    assert forall i | 0 <= i < |a| :: (a + b)[i] == a[i];
    assert forall i | 0 <= i < |b| :: (a + b)[|a| + i] == b[i];
  }

  /** A bot of a route with one of the route's commands. */
  predicate RouteNames(env: Env, r: RouteConfig, m: nat, k: RouteKey)
    requires RouteFine(env, r) && m < |r.bots|
  {
    k.at == At(env, r, m) && k.command in r.commands
  }

  lemma BotKeys(env: Env, r: RouteConfig, m: nat, k: RouteKey)
    requires RouteFine(env, r) && m < |r.bots|
    ensures KeyIn(BotEntries(env, r, At(env, r, m), |r.commands|), k) <==> RouteNames(env, r, m, k)
  {
    var entries := BotEntries(env, r, At(env, r, m), |r.commands|);
    if RouteNames(env, r, m, k) {
      var i :| 0 <= i < |r.commands| && r.commands[i] == k.command;
      assert entries[i].key == k;
    }
  }

  lemma {:induction false} RouteKeys(env: Env, r: RouteConfig, m: nat, k: RouteKey)
    requires RouteFine(env, r) && m <= |r.bots|
    ensures KeyIn(RouteEntries(env, r, m), k) <==> exists j | 0 <= j < m :: RouteNames(env, r, j, k)
  {
    if m > 0 {
      RouteKeys(env, r, m - 1, k);
      BotKeys(env, r, m - 1, k);
      KeyInSum(RouteEntries(env, r, m - 1), BotEntries(env, r, At(env, r, m - 1), |r.commands|), k);
    }
  }

  ghost predicate NamedBy(env: Env, r: RouteConfig, k: RouteKey) {
    exists b, c | b in r.bots && c in r.commands :: b in env.botPlatform && k == RouteKey(BotKey(env.botPlatform[b], b), c)
  }

  lemma RouteNamed(env: Env, r: RouteConfig, k: RouteKey)
    requires RouteFine(env, r)
    ensures KeyIn(RouteEntries(env, r, |r.bots|), k) <==> NamedBy(env, r, k)
  {
    RouteKeys(env, r, |r.bots|, k);
    if NamedBy(env, r, k) {
      var b, c :| b in r.bots && c in r.commands && b in env.botPlatform && k == RouteKey(BotKey(env.botPlatform[b], b), c);
      var j :| 0 <= j < |r.bots| && r.bots[j] == b;
      assert RouteNames(env, r, j, k);
    }
    if j :| 0 <= j < |r.bots| && RouteNames(env, r, j, k) {
      assert r.bots[j] in r.bots && BotFine(env, r, r.bots[j]);
      assert k == RouteKey(BotKey(env.botPlatform[r.bots[j]], r.bots[j]), k.command);
    }
  }

  lemma {:induction false} AllKeys(env: Env, rs: seq<RouteConfig>, n: nat, k: RouteKey)
    requires RoutesFine(env, rs) && n <= |rs|
    ensures KeyIn(AllEntries(env, rs, n), k) <==> exists i | 0 <= i < n :: NamedBy(env, rs[i], k)
  {
    if n > 0 {
      AllKeys(env, rs, n - 1, k);
      RouteNamed(env, rs[n - 1], k);
      KeyInSum(AllEntries(env, rs, n - 1), RouteEntries(env, rs[n - 1], |rs[n - 1].bots|), k);
    }
  }

  /** The keys of a table that holds all entries are exactly the configured triples. */
  lemma KeysAreConfigured(env: Env, rs: seq<RouteConfig>, t: Table)
    requires RoutesFine(env, rs) && Holds(t, AllEntries(env, rs, |rs|))
    ensures forall k :: k in t.routes <==> Configured(env, rs, k)
  {
    var entries := AllEntries(env, rs, |rs|);
    forall k ensures k in t.routes <==> Configured(env, rs, k) {
      AllKeys(env, rs, |rs|, k);
      if k in t.routes {
        assert Backed(t, entries, k);
        var i :| 0 <= i < |entries| && entries[i] == t.routes[k];
      }
      if Configured(env, rs, k) {
        var i, b, c :| 0 <= i < |rs| && b in rs[i].bots && c in rs[i].commands
                       && b in env.botPlatform && k == RouteKey(BotKey(env.botPlatform[b], b), c);
        assert NamedBy(env, rs[i], k);
      }
    }
  }

  /** A configured bot's sorted catalog of configured commands, which its adapter rejects. */
  ghost predicate Misfit(env: Env, rs: seq<RouteConfig>, b: BotKey, catalog: seq<string>) {
    ConfiguredBot(env, rs, b) && IsCatalogOf(env, rs, b, catalog) && !env.fits(b, catalog)
  }

  ghost predicate IsCatalogOf(env: Env, rs: seq<RouteConfig>, b: BotKey, catalog: seq<string>) {
    Sorted(catalog) && Distinct(catalog) && forall c :: c in catalog <==> Configured(env, rs, RouteKey(b, c))
  }

  /** `build_command_routing_table`: it fails exactly on faulty routes, clashing entries or a rejected catalog. */
  method BuildTable(env: Env, rs: seq<RouteConfig>) returns (t: Option<Table>)
    ensures t.Some? <==> Buildable(env, rs) && !exists b, catalog :: Misfit(env, rs, b, catalog)
    ensures t.Some? ==> IsTableOf(env, rs, t.value)
  {
    t := AddRoutes(env, rs);
    if t.None? {
      return;
    }
    KeysAreConfigured(env, rs, t.value);
    AllOwned(env, rs, |rs|);
    t := SortCatalogs(env, rs, t.value, AllEntries(env, rs, |rs|));
  }

  /** The second half: every bot's catalog is sorted and shown to its adapter. */
  method SortCatalogs(env: Env, rs: seq<RouteConfig>, start: Table, ghost entries: seq<Entry>) returns (t: Option<Table>)
    requires Holds(start, entries)
    requires forall k :: k in start.routes <==> Configured(env, rs, k)
    requires forall b :: b in start.bots <==> ConfiguredBot(env, rs, b)
    requires forall e | e in entries :: Owned(env, rs, e)
    ensures t.None? <==> exists b, catalog :: Misfit(env, rs, b, catalog)
    ensures t.Some? ==> IsTableOf(env, rs, t.value)
  {
    var cur := start;
    var todo := cur.bots.Keys;
    while todo != {}
      invariant todo <= cur.bots.Keys && cur.routes == start.routes && cur.bots.Keys == start.bots.Keys
      invariant Holds(cur, entries)
      invariant forall b | b in cur.bots && b !in todo :: Sorted(cur.bots[b].catalog) && env.fits(b, cur.bots[b].catalog)
      decreases todo
    {
      var b :| b in todo;
      todo := todo - {b};
      var catalog := SortNames(cur.bots[b].catalog);
      SortedHolds(cur, entries, b, catalog);
      cur := cur.(bots := cur.bots[b := cur.bots[b].(catalog := catalog)]);
      assert BotHolds(b, cur.bots[b], cur.routes);
      if !env.fits(b, catalog) {
        assert Misfit(env, rs, b, catalog);
        return None;
      }
    }
    HeldIsRight(env, rs, cur, entries);
    NoMisfit(env, rs, cur);
    t := Some(cur);
  }

  /** A sorted list of distinct names is determined by its names. */
  lemma {:induction false} SortedUnique(s: seq<string>, t: seq<string>)
    requires Sorted(s) && Sorted(t) && Distinct(s) && Distinct(t) && forall x :: x in s <==> x in t
    ensures s == t
  {
    HeadIsIn(s);
    HeadIsIn(t);
    if s != [] {
      assert s[0] in t && t[0] in s;
      if s[0] != t[0] {
        var i :| 0 <= i < |t| && t[i] == s[0];
        var j :| 0 <= j < |s| && s[j] == t[0];
        BeforeAntisymmetric(s[0], t[0]);
      }
      TailNames(s);
      TailNames(t);
      SortedUnique(s[1..], t[1..]);
      assert s == [s[0]] + s[1..] && t == [t[0]] + t[1..];
    }
  }

  lemma HeadIsIn(s: seq<string>)
    ensures s == [] || s[0] in s
  {
  }

  lemma TailNames(s: seq<string>)
    requires s != [] && Distinct(s)
    ensures forall x :: x in s[1..] <==> x in s && x != s[0]
  {
    assert s == [s[0]] + s[1..];
  }

  lemma {:induction false} BeforeAntisymmetric(a: string, b: string)
    requires Before(a, b) && Before(b, a)
    ensures a == b
  {
    if a != "" {
      BeforeAntisymmetric(a[1..], b[1..]);
      assert a == [a[0]] + a[1..] && b == [b[0]] + b[1..];
    }
  }

  lemma NoMisfit(env: Env, rs: seq<RouteConfig>, t: Table)
    requires IsTableOf(env, rs, t) && forall b | b in t.bots :: env.fits(b, t.bots[b].catalog)
    ensures !exists b, catalog :: Misfit(env, rs, b, catalog)
  {
    forall b, catalog | ConfiguredBot(env, rs, b) && IsCatalogOf(env, rs, b, catalog) ensures env.fits(b, catalog) {
      SortedUnique(catalog, t.bots[b].catalog);
    }
  }

  lemma HeldIsRight(env: Env, rs: seq<RouteConfig>, t: Table, entries: seq<Entry>)
    requires Holds(t, entries) && forall b | b in t.bots :: Sorted(t.bots[b].catalog)
    requires forall k :: k in t.routes <==> Configured(env, rs, k)
    requires forall b :: b in t.bots <==> ConfiguredBot(env, rs, b)
    requires forall e | e in entries :: Owned(env, rs, e)
    ensures IsTableOf(env, rs, t)
  {
    forall b, p {:trigger p in t.bots[b].patterns} | b in t.bots
      ensures p in t.bots[b].patterns <==>
                RouteKey(b, p.command) in t.routes && HasPattern(t.routes[RouteKey(b, p.command)], p.expression)
    {
      assert BotHolds(b, t.bots[b], t.routes);
    }
    forall b | b in t.bots
      ensures Distinct(t.bots[b].catalog) && forall c :: c in t.bots[b].catalog <==> RouteKey(b, c) in t.routes
    {
      assert BotHolds(b, t.bots[b], t.routes);
    }
    forall k | k in t.routes ensures k.at in t.bots && t.routes[k].key == k && Owned(env, rs, t.routes[k]) {
      assert Backed(t, entries, k);
    }
  }
}
