/** Whole runs of the broker: what holds of every token it ever minted, and what it refuses to start on. */
module BrokerRuns {
  import opened Wrappers
  import opened Broker

  // ---------------------------------------------------------------------------------------------
  // Starting: the profiles file
  // ---------------------------------------------------------------------------------------------

  datatype ProfileRow = ProfileRow(name: string, ceiling: set<string>)

  datatype ConfigError =
    | BadName(name: string)
    | UnknownScopes(name: string, scopes: set<string>)
    | ForbiddenScopes(name: string, scopes: set<string>)
    | NoCredential(name: string)
    | EmptyCredential(name: string)
    | NoProfile

  predicate NameChar(c: char) {
    'a' <= c <= 'z' || '0' <= c <= '9' || c == '-'
  }

  predicate NameExactly(s: string) {
    1 <= |s| <= 63 && 'a' <= s[0] <= 'z' && forall i :: 0 <= i < |s| ==> NameChar(s[i])
  }

  /** The compiled pattern: a `$` also matches before one final newline. */
  predicate NameMatches(s: string) {
    NameExactly(s) || (|s| > 0 && s[|s| - 1] == '\n' && NameExactly(s[..|s| - 1]))
  }

  /** The first thing wrong with a row, given the names read before it. */
  function RowError(row: ProfileRow, taken: set<string>, table: ScopeTable, credentials: map<string, string>): Option<ConfigError> {
    if !NameMatches(row.name) || row.name in taken then Some(BadName(row.name))
    else if !(row.ceiling <= table.Known()) then Some(UnknownScopes(row.name, row.ceiling - table.Known()))
    else if row.ceiling * table.never != {} then Some(ForbiddenScopes(row.name, row.ceiling * table.never))
    else if row.name !in credentials then Some(NoCredential(row.name))
    else if credentials[row.name] == "" then Some(EmptyCredential(row.name))
    else None
  }

  // --- what a name may be ---

  predicate InNames(c: char) {
    c in SMALL_LETTERS || c in DIGITS || c == '-'
  }

  lemma NameCharExactly(c: char)
    ensures NameChar(c) <==> InNames(c)
    ensures 'a' <= c <= 'z' <==> c in SMALL_LETTERS
  {
  }

  /** From one to sixty-three letters, digits and hyphens, a letter first, and perhaps a newline that nobody sees. */
  lemma NameMatchesExactly(s: string)
    ensures NameMatches(s) <==>
      exists name, rest :: NameSplit(s, name, rest)
  {
    if NameExactly(s) {
      forall i | 0 <= i < |s| { NameCharExactly(s[i]); }
      assert s == s + "";
      assert NameSplit(s, s, "");
    } else if NameMatches(s) {
      var name := s[..|s| - 1];
      forall i | 0 <= i < |name| { NameCharExactly(name[i]); }
      assert s == name + "\n";
      assert NameSplit(s, name, "\n");
    }
    if name, rest :| NameSplit(s, name, rest) {
      forall i | 0 <= i < |name| { NameCharExactly(name[i]); }
      if rest == "" {
        assert s == name;
      } else {
        assert s[..|s| - 1] == name;
      }
    }
  }

  predicate NameSplit(s: string, name: string, rest: string) {
    && s == name + rest && rest in {"", "\n"}
    && 0 < |name| < 64 && name[0] in SMALL_LETTERS && forall i :: 0 <= i < |name| ==> InNames(name[i])
  }

  /** What is wrong with a row, from the row alone: its name, its ceiling, its credential, in this order. */
  lemma RowErrorExactly(row: ProfileRow, taken: set<string>, table: ScopeTable, credentials: map<string, string>)
    ensures var error := RowError(row, taken, table, credentials);
      var named := NameMatches(row.name) && row.name !in taken;
      var known := forall s :: s in row.ceiling ==> s in table.actions.Values;
      var allowed := forall s :: s in row.ceiling ==> s !in table.never;
      var mounted := row.name in credentials;
      && (error.None? <==> named && known && allowed && mounted && credentials[row.name] != "")
      && (error.Some? && error.value.BadName? <==> !named)
      && (error.Some? && error.value.UnknownScopes? <==> named && !known)
      && (error.Some? && error.value.ForbiddenScopes? <==> named && known && !allowed)
      && (error.Some? && error.value.NoCredential? <==> named && known && allowed && !mounted)
      && (error.Some? && !error.value.NoProfile? ==> error.value.name == row.name)
      && (error.Some? && error.value.UnknownScopes? ==>
            forall s :: s in error.value.scopes <==> s in row.ceiling && s !in table.actions.Values)
      && (error.Some? && error.value.ForbiddenScopes? ==>
            forall s :: s in error.value.scopes <==> s in row.ceiling && s in table.never)
  {
    ForbiddenExactly(row.ceiling, table.never);
  }

  lemma ForbiddenExactly(ceiling: set<string>, never: set<string>)
    ensures ceiling * never == {} <==> forall s :: s in ceiling ==> s !in never
  {
    if ceiling * never != {} {
      var s :| s in ceiling * never;
    } else {
      forall s | s in ceiling ensures s !in never {
        assert s !in ceiling * never;
      }
    }
  }

  function NamesBefore(rows: seq<ProfileRow>, i: nat): set<string>
    requires i <= |rows|
  {
    set j | 0 <= j < i :: rows[j].name
  }

  predicate RowsFine(rows: seq<ProfileRow>, upTo: nat, table: ScopeTable, credentials: map<string, string>)
    requires upTo <= |rows|
  {
    forall i :: 0 <= i < upTo ==> RowError(rows[i], NamesBefore(rows, i), table, credentials).None?
  }

  /** A ceiling the broker may start with. */
  predicate Sound(profile: Profile, table: ScopeTable) {
    profile.ceiling <= table.Delegable() && profile.secret != ""
  }

  /** The profiles of the first `i` rows, each under its own name with its own ceiling and its own credential. */
  ghost predicate Loaded(profiles: map<string, Profile>, rows: seq<ProfileRow>, i: nat, table: ScopeTable,
                         credentials: map<string, string>)
    requires i <= |rows|
  {
    && profiles.Keys == NamesBefore(rows, i)
    && (forall j :: 0 <= j < i ==> rows[j].name in profiles && profiles[rows[j].name].ceiling == rows[j].ceiling)
    && (forall n :: n in profiles ==>
          profiles[n].name == n && Sound(profiles[n], table) && n in credentials && profiles[n].secret == credentials[n])
    && (forall j, k :: 0 <= j < k < i ==> rows[j].name != rows[k].name)
  }

  lemma NamesOneMore(rows: seq<ProfileRow>, i: nat)
    requires i < |rows|
    ensures NamesBefore(rows, i + 1) == NamesBefore(rows, i) + {rows[i].name}
  {
  }

  lemma LoadedOneMore(profiles: map<string, Profile>, rows: seq<ProfileRow>, i: nat, table: ScopeTable, credentials: map<string, string>)
    requires i < |rows| && Loaded(profiles, rows, i, table, credentials)
    requires RowError(rows[i], NamesBefore(rows, i), table, credentials).None?
    ensures rows[i].name in credentials
    ensures Loaded(profiles[rows[i].name := Profile(rows[i].name, rows[i].ceiling, credentials[rows[i].name])], rows, i + 1, table,
                   credentials)
  {
    CeilingAllowed(rows[i].ceiling, table);
    NamesOneMore(rows, i);
    forall j | 0 <= j < i ensures rows[j].name != rows[i].name {
      assert rows[j].name in NamesBefore(rows, i);
    }
  }

  /** Starts on every row or on none: the first bad row refuses the whole file. */
  method LoadProfiles(rows: seq<ProfileRow>, table: ScopeTable, credentials: map<string, string>)
    returns (r: Result<map<string, Profile>, ConfigError>)
    ensures r.Ok? <==> |rows| > 0 && RowsFine(rows, |rows|, table, credentials)
    ensures r.Ok? ==> Loaded(r.value, rows, |rows|, table, credentials)
    ensures r.Err? && |rows| == 0 ==> r.error == NoProfile
    ensures r.Err? && |rows| > 0 ==>
              exists i | 0 <= i < |rows| ::
                && RowsFine(rows, i, table, credentials)
                && RowError(rows[i], NamesBefore(rows, i), table, credentials) == Some(r.error)
  {
    var profiles: map<string, Profile> := map[];
    var i := 0;
    while i < |rows|
      invariant i <= |rows|
      invariant RowsFine(rows, i, table, credentials)
      invariant Loaded(profiles, rows, i, table, credentials)
    {
      var row := rows[i];
      var problem := RowError(row, profiles.Keys, table, credentials);
      if problem.Some? {
        return Err(problem.value);
      }
      LoadedOneMore(profiles, rows, i, table, credentials);
      profiles := profiles[row.name := Profile(row.name, row.ceiling, credentials[row.name])];
      i := i + 1;
    }
    r := if |rows| == 0 then Err(NoProfile) else Ok(profiles);
  }

  lemma CeilingAllowed(ceiling: set<string>, table: ScopeTable)
    requires ceiling <= table.Known() && ceiling * table.never == {}
    ensures ceiling <= table.Delegable()
  {
    forall s | s in ceiling ensures s !in table.never {
      assert s !in ceiling * table.never;
    }
  }

  // ---------------------------------------------------------------------------------------------
  // Runs
  // ---------------------------------------------------------------------------------------------

  datatype Event = Exchanged(request: Request) | Called(call: Call)

  /** The broker as `build` starts it: each profile under its own name, its ceiling delegable. */
  ghost predicate Configured(w: World) {
    forall n :: n in w.profiles ==> w.profiles[n].name == n && Sound(w.profiles[n], w.table)
  }

  ghost predicate WordScopes(w: World) {
    forall s :: s in w.table.Delegable() ==> IsWord(s)
  }

  /** A client is a registered profile: `_authenticate_client` returns nothing else. */
  predicate Registered(w: World, e: Event) {
    e.Exchanged? && e.request.client.Some? ==>
      e.request.client.value.name in w.profiles && e.request.client.value == w.profiles[e.request.client.value.name]
  }

  predicate Secure(e: Event) {
    e.Exchanged? ==> !e.request.settings.userOnly && !e.request.settings.widen
  }

  function MintOf(w: World, minted: set<Claims>, e: Event): Option<Claims> {
    match e
    case Exchanged(r) =>
      var o := Exchange(r, w.table, w.audience, minted);
      if o.Granted? then Some(o.claims) else None
    case Called(call) => MintedBy(Gateway(call, w.profiles, w.table))
  }

  function Next(w: World, minted: set<Claims>, e: Event): set<Claims> {
    match MintOf(w, minted, e)
    case Some(c) => minted + {c}
    case None => minted
  }

  function Run(w: World, events: seq<Event>): set<Claims> {
    if |events| == 0 then {} else Next(w, Run(w, events[..|events| - 1]), events[|events| - 1])
  }

  /** Whatever the switches were when it was minted. */
  ghost predicate Lawful(w: World, c: Claims) {
    && Scopes(c) != {}
    && Scopes(c) <= w.table.Delegable()
    && 0 < c.expires - c.issued <= 300
    && |Actors(c.act)| <= 4
  }

  function FirstClient(c: Claims): string {
    Actors(c.act)[|Actors(c.act)| - 1]
  }

  /** Every token stays within the ceiling of the profile the user's token was first exchanged by. */
  ghost predicate WithinFirstCeiling(w: World, c: Claims) {
    FirstClient(c) in w.profiles && Scopes(c) <= w.profiles[FirstClient(c)].ceiling
  }

  /** The event is answered with the token, or the token was made for a call whose body was then too long. */
  predicate Gives(w: World, minted: set<Claims>, e: Event, c: Claims) {
    match e
    case Exchanged(r) => Exchange(r, w.table, w.audience, minted) == Granted(c)
    case Called(call) =>
      Gateway(call, w.profiles, w.table) == Forwarded(c) || Gateway(call, w.profiles, w.table) == TooLong(Some(c))
  }

  lemma MintsWhatItGives(w: World, minted: set<Claims>, e: Event, c: Claims)
    ensures MintOf(w, minted, e) == Some(c) <==> Gives(w, minted, e, c)
  {
  }

  /** Some event of the run gave the token, by what had been minted until then. */
  predicate EverGiven(w: World, events: seq<Event>, c: Claims) {
    |events| > 0
    && var first := events[..|events| - 1];
       (EverGiven(w, first, c) || Gives(w, Run(w, first), events[|events| - 1], c))
  }

  lemma RunOneMore(w: World, minted: set<Claims>, e: Event, c: Claims)
    ensures c in Next(w, minted, e) <==> c in minted || MintOf(w, minted, e) == Some(c)
  {
  }

  /** The broker counts as its own exactly the tokens it gave out or made for a call. */
  lemma {:induction false} MintedExactly(w: World, events: seq<Event>, c: Claims)
    ensures c in Run(w, events) <==> EverGiven(w, events, c)
  {
    if |events| > 0 {
      var first, last := events[..|events| - 1], events[|events| - 1];
      MintedExactly(w, first, c);
      RunOneMore(w, Run(w, first), last, c);
      MintsWhatItGives(w, Run(w, first), last, c);
    }
  }

  lemma MintIsLawful(w: World, minted: set<Claims>, e: Event)
    requires WordScopes(w) && MintOf(w, minted, e).Some?
    ensures Lawful(w, MintOf(w, minted, e).value)
  {
    match e
    case Exchanged(r) =>
      match r.token {
        case FromKeycloak(_, _) => UserGrant(r, w.table, w.audience, minted);
        case FromBroker(_) => DelegatedGrant(r, w.table, w.audience, minted);
        case Unreadable =>
      }
    case Called(call) => GatewayGrant(call, w.profiles, w.table);
  }

  /** In every run, with any switch settings, every token is lawful. */
  lemma {:induction false} EveryTokenIsLawful(w: World, events: seq<Event>)
    requires WordScopes(w)
    ensures forall c :: c in Run(w, events) ==> Lawful(w, c)
  {
    if |events| > 0 {
      var before := events[..|events| - 1];
      EveryTokenIsLawful(w, before);
      if MintOf(w, Run(w, before), events[|events| - 1]).Some? {
        MintIsLawful(w, Run(w, before), events[|events| - 1]);
      }
    }
  }

  lemma SecureExchangeStaysWithin(w: World, minted: set<Claims>, r: Request)
    requires Registered(w, Exchanged(r)) && Secure(Exchanged(r))
    requires forall c :: c in minted ==> WithinFirstCeiling(w, c)
    requires Exchange(r, w.table, w.audience, minted).Granted?
    ensures WithinFirstCeiling(w, Exchange(r, w.table, w.audience, minted).claims)
  {
    match r.token {
      case FromKeycloak(_, _) => UserGrant(r, w.table, w.audience, minted);
      case FromBroker(own) =>
        DelegatedGrant(r, w.table, w.audience, minted);
        assert FirstClient(Exchange(r, w.table, w.audience, minted).claims) == FirstClient(own);
      case Unreadable =>
    }
  }

  lemma SecureMintStaysWithin(w: World, minted: set<Claims>, e: Event)
    requires Configured(w) && WordScopes(w) && Registered(w, e) && Secure(e)
    requires forall c :: c in minted ==> WithinFirstCeiling(w, c)
    requires MintOf(w, minted, e).Some?
    ensures WithinFirstCeiling(w, MintOf(w, minted, e).value)
  {
    match e
    case Exchanged(r) => SecureExchangeStaysWithin(w, minted, r);
    case Called(call) => GatewayGrant(call, w.profiles, w.table);
  }

  /** In every run with the two exchange switches secure, no token leaves the ceiling it started under. */
  lemma {:induction false} SecureRunsStayWithin(w: World, events: seq<Event>)
    requires Configured(w) && WordScopes(w)
    requires forall i :: 0 <= i < |events| ==> Registered(w, events[i]) && Secure(events[i])
    ensures forall c :: c in Run(w, events) ==> WithinFirstCeiling(w, c)
  {
    if |events| > 0 {
      var before := events[..|events| - 1];
      SecureRunsStayWithin(w, before);
      if MintOf(w, Run(w, before), events[|events| - 1]).Some? {
        SecureMintStaysWithin(w, Run(w, before), events[|events| - 1]);
      }
    }
  }

  /** A gateway token is understood as the scope it was minted for exactly when that scope is one word. */
  lemma GatewayClaimIsExact(w: World, call: Call)
    requires MintedBy(Gateway(call, w.profiles, w.table)).Some?
    ensures Covered(call, w.profiles, w.table)
    ensures var needed := w.table.actions[ResolveCall(call.verb, call.path).value.action];
      Scopes(MintedBy(Gateway(call, w.profiles, w.table)).value) == {needed} <==> IsWord(needed)
  {
    ScopeClaimRoundTrip({w.table.actions[ResolveCall(call.verb, call.path).value.action]});
  }
}
