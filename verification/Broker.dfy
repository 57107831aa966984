/**
 The delegation broker: token exchange (RFC 8693, sections 2.1 and 4.1) and the gateway.

 A signature is ideal: `minted` is the set of claims this broker has signed, and nothing else
 verifies as its own. A user's token is genuine or not, and nothing of it is forged in part.
 Verification and minting read the clock separately, as the code does, so each call has two times.
 */
module Broker {
  import opened Wrappers
  import opened Strings

  const MAX_LIFETIME: int := 300
  const GATEWAY_LIFETIME: int := 60
  const MAX_DEPTH: nat := 4
  const MAX_SCOPES: nat := 16
  const USER_LEEWAY: int := 30

  const GRANT_TYPE := "urn:ietf:params:oauth:grant-type:token-exchange"
  const ACCESS_TOKEN := "urn:ietf:params:oauth:token-type:access_token"
  const JWT_TOKEN := "urn:ietf:params:oauth:token-type:jwt"

  // ---------------------------------------------------------------------------------------------
  // Scope claims: joined when minted, split when verified
  // ---------------------------------------------------------------------------------------------

  /** `str.isspace` on one character. */
  predicate IsSpace(c: char) {
    var n := c as int;
    9 <= n <= 13 || 28 <= n <= 32 || n == 0x85 || n == 0xA0 || n == 0x1680 || 0x2000 <= n <= 0x200A
    || n == 0x2028 || n == 0x2029 || n == 0x202F || n == 0x205F || n == 0x3000
  }

  const SPACES: set<int> := {9, 10, 11, 12, 13, 28, 29, 30, 31, 32, 133, 160, 5760, 8192, 8193, 8194, 8195, 8196, 8197, 8198,
                             8199, 8200, 8201, 8202, 8232, 8233, 8239, 8287, 12288}

  /** The twenty-nine characters Python takes for white space. */
  lemma SpacesExactly(c: char)
    ensures IsSpace(c) <==> c as int in SPACES
  {
  }

  predicate IsWord(s: string) {
    |s| > 0 && forall i :: 0 <= i < |s| ==> !IsSpace(s[i])
  }

  function WordEnd(s: string): (n: nat)
    ensures n <= |s|
    ensures forall i :: 0 <= i < n ==> !IsSpace(s[i])
    ensures n < |s| ==> IsSpace(s[n])
  {
    if |s| == 0 || IsSpace(s[0]) then 0 else 1 + WordEnd(s[1..])
  }

  /** `str.split()` */
  function Split(s: string): (words: seq<string>)
    ensures forall i :: 0 <= i < |words| ==> IsWord(words[i])
    decreases |s|
  {
    if |s| == 0 then []
    else if IsSpace(s[0]) then Split(s[1..])
    else [s[..WordEnd(s)]] + Split(s[WordEnd(s)..])
  }

  /** `" ".join(words)` */
  function Join(words: seq<string>): string {
    if |words| == 0 then ""
    else if |words| == 1 then words[0]
    else words[0] + " " + Join(words[1..])
  }

  lemma WordEndOf(word: string, rest: string)
    requires IsWord(word) && (|rest| == 0 || IsSpace(rest[0]))
    ensures WordEnd(word + rest) == |word|
  {
    assert forall i :: 0 <= i < |word| ==> (word + rest)[i] == word[i];
    assert |rest| > 0 ==> (word + rest)[|word|] == rest[0];
  }

  lemma {:induction false} SplitJoin(words: seq<string>)
    requires forall i :: 0 <= i < |words| ==> IsWord(words[i])
    ensures Split(Join(words)) == words
  {
    if |words| == 1 {
      WordEndOf(words[0], "");
      assert words[0] + "" == words[0];
      assert words[0][..|words[0]|] == words[0];
    } else if |words| > 1 {
      var rest := " " + Join(words[1..]);
      var s := words[0] + rest;
      assert Join(words) == s;
      WordEndOf(words[0], rest);
      assert !IsSpace(s[0]) by { assert s[0] == words[0][0]; }
      assert s[..|words[0]|] == words[0] && s[|words[0]|..] == rest;
      assert rest[1..] == Join(words[1..]);
      SplitJoin(words[1..]);
    }
  }

  /**
   A set of scopes survives the claim it is written into exactly when each of its names is one word.
   */
  lemma ScopeClaimRoundTrip(scopes: set<string>)
    ensures Elements(Split(Join(Sorted(scopes)))) == scopes <==> forall s :: s in scopes ==> IsWord(s)
  {
    var words := Sorted(scopes);
    if forall s :: s in scopes ==> IsWord(s) {
      forall i | 0 <= i < |words| ensures IsWord(words[i]) {
        assert words[i] in Elements(words);
      }
      SplitJoin(words);
    } else {
      var odd :| odd in scopes && !IsWord(odd);
      assert odd !in Elements(Split(Join(words)));
    }
  }

  // ---------------------------------------------------------------------------------------------
  // Trusted configuration
  // ---------------------------------------------------------------------------------------------

  datatype ScopeTable = ScopeTable(actions: map<string, string>, never: set<string>) {
    function Known(): set<string> { actions.Values }
    function Delegable(): set<string> { Known() - never }
  }

  datatype Profile = Profile(name: string, ceiling: set<string>, secret: string)

  datatype Settings = Settings(passthrough: bool, userOnly: bool, widen: bool)

  // ---------------------------------------------------------------------------------------------
  // Tokens
  // ---------------------------------------------------------------------------------------------

  /** The `act` claim: who acts now, and on whose behalf before that. */
  datatype Act = Act(actor: string, behind: Option<Act>)

  function Actors(act: Act): (r: seq<string>)
    ensures |r| > 0
  {
    [act.actor] + match act.behind case None => [] case Some(b) => Actors(b)
  }

  /** Both depth counters of the broker walk the nest with one loop. */
  method Depth(act: Act) returns (depth: nat)
    ensures depth == |Actors(act)|
  {
    depth := 1;
    var current := act;
    while current.behind.Some?
      invariant depth + |Actors(current)| == |Actors(act)| + 1
      decreases current
    {
      depth := depth + 1;
      current := current.behind.value;
    }
  }

  datatype Claims = Claims(subject: string, act: Act, scope: string, issued: int, expires: int, acr: Option<string>)

  function Scopes(claims: Claims): set<string> {
    Elements(Split(claims.scope))
  }

  datatype User = User(subject: string, expires: int, acr: Option<string>)

  /** What a presented string turns out to be, told apart by the issuer it names. */
  datatype Token = FromKeycloak(genuine: bool, user: User) | FromBroker(claims: Claims) | Unreadable

  /** Keycloak's tokens are accepted up to thirty seconds after they expire. */
  function VerifyUser(token: Token, clock: int): Result<User, string> {
    if token.FromKeycloak? && token.genuine && token.user.expires >= clock - USER_LEEWAY then Ok(token.user)
    else Err("user_token_invalid")
  }

  function VerifyOwn(token: Token, minted: set<Claims>, clock: int): Result<Claims, string> {
    if token.FromBroker? && token.claims in minted && token.claims.expires >= clock then Ok(token.claims)
    else Err("subject_token_invalid")
  }

  function Min(a: int, b: int): int { if a <= b then a else b }

  function Mint(subject: string, act: Act, scopes: set<string>, lifetime: int, notAfter: int, acr: Option<string>, now: int)
    : Result<Claims, string>
  {
    var expires := Min(now + Min(lifetime, MAX_LIFETIME), notAfter);
    if expires <= now then Err("subject_token_expired")
    else Ok(Claims(subject, act, Join(Sorted(scopes)), now, expires, acr))
  }

  // ---------------------------------------------------------------------------------------------
  // The exchange
  // ---------------------------------------------------------------------------------------------

  type Form = map<string, string>

  function Field(form: Form, name: string, default: string): string {
    if name in form then form[name] else default
  }

  datatype Outcome =
    | Refused(status: nat, code: string, reason: string)
    | Granted(claims: Claims)

  function Requested(form: Form): set<string> {
    Elements(Split(Field(form, "scope", "")))
  }

  function ScopeRefusal(requested: set<string>, table: ScopeTable): Option<Outcome> {
    if requested == {} || |requested| > MAX_SCOPES then Some(Refused(400, "invalid_scope", "scope_missing"))
    else if !(requested <= table.Known()) then Some(Refused(400, "invalid_scope", "scope_unknown"))
    else if requested * table.never != {} then Some(Refused(400, "invalid_scope", "scope_never_delegable"))
    else None
  }

  /** Every check before the subject token is looked at, in the code's order. */
  function Precheck(form: Form, client: Option<Profile>, table: ScopeTable, audience: string): Option<Outcome> {
    if Field(form, "grant_type", "") != GRANT_TYPE then
      Some(Refused(400, "unsupported_grant_type", "grant_type_not_token_exchange"))
    else if client.None? then
      Some(Refused(401, "invalid_client", "client_authentication_failed"))
    else if Field(form, "subject_token", "") == "" || Field(form, "subject_token_type", "") !in {ACCESS_TOKEN, JWT_TOKEN} then
      Some(Refused(400, "invalid_request", "subject_token_missing_or_untyped"))
    else if Field(form, "requested_token_type", ACCESS_TOKEN) != ACCESS_TOKEN then
      Some(Refused(400, "invalid_request", "requested_token_type_unsupported"))
    else if Field(form, "audience", audience) != audience then
      Some(Refused(400, "invalid_target", "audience_not_served"))
    else ScopeRefusal(Requested(form), table)
  }

  function Granting(minted: Result<Claims, string>): Outcome {
    match minted
    case Ok(claims) => Granted(claims)
    case Err(reason) => Refused(400, "invalid_request", reason)
  }

  function ExchangeUser(requested: set<string>, client: Profile, table: ScopeTable, settings: Settings, token: Token,
                        clock: int, now: int): Outcome
  {
    match VerifyUser(token, clock)
    case Err(reason) => Refused(400, "invalid_request", reason)
    case Ok(user) =>
      if !(requested <= if settings.userOnly then table.Delegable() else client.ceiling) then
        Refused(400, "invalid_scope", "scope_exceeds_profile")
      else
        Granting(Mint(user.subject, Act(client.name, None), requested, MAX_LIFETIME, user.expires, user.acr, now))
  }

  function ExchangeDelegated(requested: set<string>, client: Profile, settings: Settings, token: Token,
                             minted: set<Claims>, clock: int, now: int): Outcome
  {
    match VerifyOwn(token, minted, clock)
    case Err(reason) => Refused(400, "invalid_request", reason)
    case Ok(own) =>
      if |Actors(own.act)| >= MAX_DEPTH then
        Refused(400, "invalid_request", "delegation_chain_too_long")
      else if !(requested <= if settings.widen then client.ceiling else Scopes(own)) then
        Refused(400, "invalid_scope", "scope_exceeds_subject_token")
      else
        Granting(Mint(own.subject, Act(client.name, Some(own.act)), requested, MAX_LIFETIME, own.expires, own.acr, now))
  }

  datatype Request = Request(form: Form, client: Option<Profile>, token: Token, settings: Settings, clock: int, now: int)

  function Exchange(r: Request, table: ScopeTable, audience: string, minted: set<Claims>): Outcome {
    match Precheck(r.form, r.client, table, audience)
    case Some(refusal) => refusal
    case None =>
      match r.token
      case FromKeycloak(_, _) =>
        ExchangeUser(Requested(r.form), r.client.value, table, r.settings, r.token, r.clock, r.now)
      case FromBroker(_) =>
        ExchangeDelegated(Requested(r.form), r.client.value, r.settings, r.token, minted, r.clock, r.now)
      case Unreadable => Refused(400, "invalid_request", "subject_token_issuer_unknown")
  }

  /** What every token of a granted exchange says, whatever the switches. */
  ghost predicate WellGranted(c: Claims, requested: set<string>, table: ScopeTable, notAfter: int, now: int) {
    && c.issued == now
    && c.expires == Min(now + 300, notAfter)
    && 0 < c.expires - c.issued <= 300
    && Scopes(c) == requested != {}
    && |Scopes(c)| <= MAX_SCOPES
    && Scopes(c) <= table.Delegable()
  }

  /** A token made from a user's token. */
  ghost predicate FirstLink(c: Claims, user: User, client: string) {
    && c.subject == user.subject
    && c.acr == user.acr
    && c.expires <= user.expires
    && Actors(c.act) == [client]
  }

  /** A token made from a delegated token. */
  ghost predicate NextLink(c: Claims, own: Claims, client: string) {
    && c.subject == own.subject
    && c.acr == own.acr
    && c.expires <= own.expires
    && Actors(c.act) == [client] + Actors(own.act)
    && |Actors(c.act)| <= 4
  }

  lemma RequestedSurvives(form: Form)
    ensures Elements(Split(Join(Sorted(Requested(form))))) == Requested(form)
  {
    forall s | s in Requested(form) ensures IsWord(s) {
    }
    ScopeClaimRoundTrip(Requested(form));
  }

  lemma PrecheckRefuses(form: Form, client: Option<Profile>, table: ScopeTable, audience: string)
    ensures Precheck(form, client, table, audience).Some? ==> Precheck(form, client, table, audience).value.Refused?
    ensures Precheck(form, client, table, audience).None? ==> client.Some? && ScopeRefusal(Requested(form), table).None?
  {
  }

  lemma ScopesAllowed(requested: set<string>, table: ScopeTable)
    ensures ScopeRefusal(requested, table).None?
            <==> requested != {} && |requested| <= MAX_SCOPES && requested <= table.Delegable()
  {
    assert requested <= table.Delegable() <==> requested <= table.Known() && requested * table.never == {} by {
      if requested * table.never == {} {
        forall s | s in requested ensures s !in table.never {
          assert s !in requested * table.never;
        }
      } else {
        var s :| s in requested * table.never;
        assert s !in table.Delegable();
      }
    }
  }

  lemma PrecheckPassed(r: Request, table: ScopeTable, audience: string, minted: set<Claims>)
    ensures Exchange(r, table, audience, minted).Granted? ==>
              && r.client.Some? && !r.token.Unreadable?
              && Requested(r.form) != {} && |Requested(r.form)| <= MAX_SCOPES && Requested(r.form) <= table.Delegable()
  {
    PrecheckRefuses(r.form, r.client, table, audience);
    ScopesAllowed(Requested(r.form), table);
  }

  /** The exchange of a user's token grants inside the ceiling, or inside everything delegable if the switch is armed. */
  lemma UserGrant(r: Request, table: ScopeTable, audience: string, minted: set<Claims>)
    ensures Exchange(r, table, audience, minted).Granted? && r.token.FromKeycloak? ==>
              && r.client.Some?
              && r.token.genuine
              && var c := Exchange(r, table, audience, minted).claims;
              && WellGranted(c, Requested(r.form), table, r.token.user.expires, r.now)
              && FirstLink(c, r.token.user, r.client.value.name)
              && Scopes(c) <= if r.settings.userOnly then table.Delegable() else r.client.value.ceiling
  {
    PrecheckPassed(r, table, audience, minted);
    RequestedSurvives(r.form);
  }

  /** The exchange of a delegated token narrows it, or widens it to the new client's ceiling if the switch is armed. */
  lemma DelegatedGrant(r: Request, table: ScopeTable, audience: string, minted: set<Claims>)
    ensures Exchange(r, table, audience, minted).Granted? && r.token.FromBroker? ==>
              && r.client.Some?
              && r.token.claims in minted
              && var c := Exchange(r, table, audience, minted).claims;
              && WellGranted(c, Requested(r.form), table, r.token.claims.expires, r.now)
              && NextLink(c, r.token.claims, r.client.value.name)
              && Scopes(c) <= if r.settings.widen then r.client.value.ceiling else Scopes(r.token.claims)
  {
    PrecheckPassed(r, table, audience, minted);
    RequestedSurvives(r.form);
  }

  /** The request itself, before its token is looked at, is one the broker serves. */
  predicate WellAsked(r: Request, table: ScopeTable, audience: string) {
    && "grant_type" in r.form && r.form["grant_type"] == "urn:ietf:params:oauth:grant-type:token-exchange"
    && r.client.Some?
    && "subject_token" in r.form && r.form["subject_token"] != ""
    && "subject_token_type" in r.form
    && r.form["subject_token_type"] in {"urn:ietf:params:oauth:token-type:access_token", "urn:ietf:params:oauth:token-type:jwt"}
    && ("requested_token_type" in r.form ==> r.form["requested_token_type"] == "urn:ietf:params:oauth:token-type:access_token")
    && ("audience" in r.form ==> r.form["audience"] == audience)
    && "scope" in r.form
    && var scopes := Elements(Split(r.form["scope"]));
       0 < |scopes| <= 16 && forall s :: s in scopes ==> s in table.actions.Values && s !in table.never
  }

  lemma PrecheckExactly(r: Request, table: ScopeTable, audience: string)
    ensures Precheck(r.form, r.client, table, audience).None? <==> WellAsked(r, table, audience)
    ensures Precheck(r.form, r.client, table, audience).Some? ==> Precheck(r.form, r.client, table, audience).value.Refused?
  {
    ScopesAllowed(Requested(r.form), table);
  }

  /** A user's token is exchanged exactly when it is genuine, not expired, and the scopes fit the rule in force. */
  lemma UserExchangeExactly(r: Request, table: ScopeTable, audience: string, minted: set<Claims>)
    requires r.token.FromKeycloak?
    ensures Exchange(r, table, audience, minted).Granted?
            <==> && WellAsked(r, table, audience)
                 && r.token.genuine
                 && r.token.user.expires >= r.clock - 30
                 && r.token.user.expires > r.now
                 && (r.settings.userOnly || Requested(r.form) <= r.client.value.ceiling)
  {
    PrecheckExactly(r, table, audience);
  }

  /**
   A delegated token is exchanged exactly when this broker minted it, it has not expired, its chain is
   not full, and the scopes fit the rule in force.
   */
  lemma DelegatedExchangeExactly(r: Request, table: ScopeTable, audience: string, minted: set<Claims>)
    requires r.token.FromBroker?
    ensures Exchange(r, table, audience, minted).Granted?
            <==> && WellAsked(r, table, audience)
                 && r.token.claims in minted
                 && r.token.claims.expires >= r.clock
                 && r.token.claims.expires > r.now
                 && |Actors(r.token.claims.act)| < 4
                 && Requested(r.form) <= if r.settings.widen then r.client.value.ceiling else Scopes(r.token.claims)
  {
    PrecheckExactly(r, table, audience);
  }

  // ---------------------------------------------------------------------------------------------
  // The gateway
  // ---------------------------------------------------------------------------------------------

  /** A row of the broker's operation table: one path segment at most is a parameter. */
  datatype Operation = Operation(verb: string, template: string, prefix: string, suffix: Option<string>, id: string, action: string)

  const OPERATIONS: seq<Operation> := [
    Operation("GET", "/v1/orders/{order_number}", "/v1/orders/", Some(""), "get_order", "order.read"),
    Operation("GET", "/v1/customers", "/v1/customers", None, "search_customers", "customer.search"),
    Operation("GET", "/v1/customers/{customer_ref}", "/v1/customers/", Some(""), "get_customer", "customer.read"),
    Operation("GET", "/v1/tickets/{ticket_number}", "/v1/tickets/", Some(""), "get_ticket", "ticket.read"),
    Operation("POST", "/v1/tickets/{ticket_number}/notes", "/v1/tickets/", Some("/notes"), "add_internal_note", "note.create"),
    Operation("POST", "/v1/actions/refunds", "/v1/actions/refunds", None, "propose_refund", "refund.propose"),
    Operation("GET", "/v1/actions/{action_id}", "/v1/actions/", Some(""), "get_action_status", "action.read")
  ]

  predicate SegmentChar(c: char) {
    'A' <= c <= 'Z' || 'a' <= c <= 'z' || '0' <= c <= '9' || c == '-'
  }

  predicate IsSegment(s: string) {
    1 <= |s| <= 64 && forall i :: 0 <= i < |s| ==> SegmentChar(s[i])
  }

  predicate MatchesExactly(o: Operation, path: string) {
    match o.suffix
    case None => path == o.prefix
    case Some(suffix) =>
      && |o.prefix| + |suffix| <= |path|
      && path[..|o.prefix|] == o.prefix
      && path[|path| - |suffix|..] == suffix
      && IsSegment(path[|o.prefix|..|path| - |suffix|])
  }

  /** The compiled pattern: a `$` also matches before one final newline. */
  predicate Matches(o: Operation, path: string) {
    MatchesExactly(o, path) || (|path| > 0 && path[|path| - 1] == '\n' && MatchesExactly(o, path[..|path| - 1]))
  }

  function Upper(verb: string): string {
    if |verb| == 0 then ""
    else [if 'a' <= verb[0] <= 'z' then (verb[0] as int - 32) as char else verb[0]] + Upper(verb[1..])
  }

  predicate Row(i: nat, verb: string, path: string) {
    i < |OPERATIONS| && OPERATIONS[i].verb == Upper(verb) && Matches(OPERATIONS[i], path)
  }

  function ResolveFrom(i: nat, verb: string, path: string): (r: Option<Operation>)
    ensures r.Some? ==> exists k :: i <= k && Row(k, verb, path) && r.value == OPERATIONS[k]
    ensures r.None? ==> forall k :: i <= k ==> !Row(k, verb, path)
    decreases |OPERATIONS| - i
  {
    if i >= |OPERATIONS| then None
    else if Row(i, verb, path) then Some(OPERATIONS[i])
    else ResolveFrom(i + 1, verb, path)
  }

  function ResolveCall(verb: string, path: string): Option<Operation> {
    ResolveFrom(0, verb, path)
  }

  const CAPITALS: set<char> := {
    'A', 'B', 'C', 'D', 'E', 'F', 'G', 'H', 'I', 'J', 'K', 'L', 'M', 'N', 'O', 'P', 'Q', 'R', 'S', 'T', 'U', 'V', 'W', 'X', 'Y', 'Z'}
  const SMALL_LETTERS: set<char> := {
    'a', 'b', 'c', 'd', 'e', 'f', 'g', 'h', 'i', 'j', 'k', 'l', 'm', 'n', 'o', 'p', 'q', 'r', 's', 't', 'u', 'v', 'w', 'x', 'y', 'z'}
  const DIGITS: set<char> := {'0', '1', '2', '3', '4', '5', '6', '7', '8', '9'}

  /** What a path parameter is written in. */
  predicate Segmental(c: char) {
    c in CAPITALS || c in SMALL_LETTERS || c in DIGITS || c == '-'
  }

  lemma SegmentCharExactly(c: char)
    ensures SegmentChar(c) <==> Segmental(c)
  {
  }

  /** A path of the row: its template, with one to sixty-four letters, digits or hyphens for the parameter, if it has one. */
  predicate Fills(o: Operation, segment: string, path: string) {
    match o.suffix
    case None => path == o.prefix
    case Some(suffix) =>
      path == o.prefix + segment + suffix && 0 < |segment| < 65 && forall i :: 0 <= i < |segment| ==> Segmental(segment[i])
  }

  lemma MatchesExactlyFilled(o: Operation, path: string)
    ensures MatchesExactly(o, path) <==> exists segment :: Fills(o, segment, path)
  {
    match o.suffix {
      case None =>
        if path == o.prefix {
          assert Fills(o, "", path);
        }
      case Some(suffix) =>
        if MatchesExactly(o, path) {
          var segment := path[|o.prefix|..|path| - |suffix|];
          forall i | 0 <= i < |segment| { SegmentCharExactly(segment[i]); }
          assert path == o.prefix + segment + suffix;
          assert Fills(o, segment, path);
        }
        if segment :| Fills(o, segment, path) {
          forall i | 0 <= i < |segment| { SegmentCharExactly(segment[i]); }
          assert path[|o.prefix|..|path| - |suffix|] == segment;
        }
    }
  }

  /** A path of the row, or one with a newline at its end that the pattern does not see. */
  predicate Addresses(o: Operation, segment: string, path: string) {
    Fills(o, segment, path) || (|path| > 0 && path[|path| - 1] == '\n' && Fills(o, segment, path[..|path| - 1]))
  }

  /** A call is an operation of the table exactly when it has its method, in any case, and a path of its row. */
  lemma ResolvesExactly(verb: string, path: string, k: nat)
    requires k < |OPERATIONS|
    ensures ResolveCall(verb, path) == Some(OPERATIONS[k])
            <==> OPERATIONS[k].verb == Upper(verb) && exists segment :: Addresses(OPERATIONS[k], segment, path)
  {
    MatchesExactlyFilled(OPERATIONS[k], path);
    if |path| > 0 {
      MatchesExactlyFilled(OPERATIONS[k], path[..|path| - 1]);
    }
    assert Matches(OPERATIONS[k], path) <==> exists segment :: Addresses(OPERATIONS[k], segment, path) by {
      if segment :| Fills(OPERATIONS[k], segment, path) {
        assert Addresses(OPERATIONS[k], segment, path);
      }
      if |path| > 0 && path[|path| - 1] == '\n' {
        var seen := path[..|path| - 1];
        if segment :| Fills(OPERATIONS[k], segment, seen) {
          assert Addresses(OPERATIONS[k], segment, path);
        }
      }
    }
    if Row(k, verb, path) {
      ResolveUnambiguous(k, k, verb, path);
    }
    if ResolveCall(verb, path) == Some(OPERATIONS[k]) {
      var j: nat :| Row(j, verb, path) && OPERATIONS[k] == OPERATIONS[j];
    }
  }

  /** A method's small letters are compared as capitals, and nothing else about it is changed. */
  lemma {:induction false} UpperExactly(verb: string)
    ensures |Upper(verb)| == |verb|
    ensures forall i :: 0 <= i < |verb| ==>
              Upper(verb)[i] == if verb[i] in SMALL_LETTERS then (verb[i] as int - 'a' as int + 'A' as int) as char else verb[i]
  {
    if |verb| > 0 {
      UpperExactly(verb[1..]);
    }
  }

  /** The first letter after "/v1/" tells rows of one method apart; a bare collection has no segment. */
  lemma FifthLetter(o: Operation, path: string)
    requires o in OPERATIONS && Matches(o, path)
    ensures |path| > 4 && path[4] == o.prefix[4]
  {
    var exact := if MatchesExactly(o, path) then path else path[..|path| - 1];
    assert MatchesExactly(o, exact);
    assert |o.prefix| > 4;
    if o.suffix.Some? {
      assert exact[4] == exact[..|o.prefix|][4];
    }
    assert path[4] == exact[4];
  }

  /** No call fits two rows, so the first match is the only one. */
  lemma ResolveUnambiguous(i: nat, j: nat, verb: string, path: string)
    requires Row(i, verb, path) && Row(j, verb, path)
    ensures i == j
    ensures ResolveCall(verb, path) == Some(OPERATIONS[i])
  {
    RowsDiffer(i, j, verb, path);
    var k: nat :| Row(k, verb, path) && ResolveCall(verb, path).value == OPERATIONS[k];
    RowsDiffer(i, k, verb, path);
  }

  lemma TableRows(i: nat, j: nat)
    requires i < j < |OPERATIONS|
    requires OPERATIONS[i].verb == OPERATIONS[j].verb && OPERATIONS[i].prefix[4] == OPERATIONS[j].prefix[4]
    ensures i == 1 && j == 2
  {
    assert OPERATIONS[0].prefix[4] == 'o' && OPERATIONS[1].prefix[4] == 'c' && OPERATIONS[2].prefix[4] == 'c';
    assert OPERATIONS[3].prefix[4] == 't' && OPERATIONS[4].prefix[4] == 't';
    assert OPERATIONS[5].prefix[4] == 'a' && OPERATIONS[6].prefix[4] == 'a';
  }

  lemma RowsDiffer(i: nat, j: nat, verb: string, path: string)
    requires Row(i, verb, path) && Row(j, verb, path)
    ensures i == j
  {
    FifthLetter(OPERATIONS[i], path);
    FifthLetter(OPERATIONS[j], path);
    CustomersDiffer(path);
    if i < j { TableRows(i, j); }
    if j < i { TableRows(j, i); }
  }

  lemma CustomersDiffer(path: string)
    ensures !(Matches(OPERATIONS[1], path) && Matches(OPERATIONS[2], path))
  {
    assert Matches(OPERATIONS[1], path) ==> |path| <= |OPERATIONS[1].prefix| + 1;
    assert Matches(OPERATIONS[2], path) ==> |path| >= |OPERATIONS[2].prefix| + 1;
  }

  datatype Call = Call(profile: string, verb: string, path: string, bearer: Option<Token>, settings: Settings, tooLong: bool,
                       clock: int, now: int)

  /** `Crashed` is an exception nobody catches; the claims are the token minted before the body was measured. */
  datatype Reply =
    | Rejected(status: nat, code: string)
    | Passed
    | Crashed
    | Forwarded(claims: Claims)
    | TooLong(unused: Option<Claims>)

  function Gateway(call: Call, profiles: map<string, Profile>, table: ScopeTable): Reply {
    if call.profile !in profiles then Rejected(404, "unknown_profile")
    else
      var profile := profiles[call.profile];
      match ResolveCall(call.verb, call.path)
      case None => Rejected(404, "unknown_operation")
      case Some(operation) =>
        if call.bearer.None? then Rejected(401, "unauthenticated")
        else
          match VerifyUser(call.bearer.value, call.clock)
          case Err(_) => Rejected(401, "unauthenticated")
          case Ok(user) =>
            if call.settings.passthrough then (if call.tooLong then TooLong(None) else Passed)
            else if operation.action !in table.actions
                    || table.actions[operation.action] in table.never
                    || table.actions[operation.action] !in profile.ceiling then
              Rejected(403, "scope_exceeds_profile")
            else
              match Mint(user.subject, Act(profile.name, None), {table.actions[operation.action]}, GATEWAY_LIFETIME,
                         user.expires, user.acr, call.now)
              case Err(_) => Crashed
              case Ok(claims) => if call.tooLong then TooLong(Some(claims)) else Forwarded(claims)
  }

  function MintedBy(reply: Reply): Option<Claims> {
    match reply
    case Forwarded(claims) => Some(claims)
    case TooLong(unused) => unused
    case _ => None
  }

  /** The scope a call needs is one the profile may ask for. */
  predicate Covered(call: Call, profiles: map<string, Profile>, table: ScopeTable) {
    && call.profile in profiles
    && var o := ResolveCall(call.verb, call.path);
    && o.Some?
    && o.value.action in table.actions
    && table.actions[o.value.action] in profiles[call.profile].ceiling - table.never
  }

  predicate HasUser(call: Call) {
    call.bearer.Some? && VerifyUser(call.bearer.value, call.clock).Ok?
  }

  /**
   The gateway mints for exactly the covered calls of a user whose token has not expired. In the
   thirty seconds of leeway the token still verifies and the mint raises outside the `try`.
   */
  lemma GatewayMintsExactly(call: Call, profiles: map<string, Profile>, table: ScopeTable)
    ensures MintedBy(Gateway(call, profiles, table)).Some?
            <==> Covered(call, profiles, table) && HasUser(call) && !call.settings.passthrough
                 && call.bearer.value.user.expires > call.now
    ensures Gateway(call, profiles, table).Crashed?
            <==> Covered(call, profiles, table) && HasUser(call) && !call.settings.passthrough
                 && call.bearer.value.user.expires <= call.now
  {
  }

  /** The call names a profile of the broker and an operation of its table. */
  predicate Resolved(call: Call, profiles: map<string, Profile>) {
    call.profile in profiles && ResolveCall(call.verb, call.path).Some?
  }

  /** A bearer token Keycloak signed, no more than thirty seconds past its expiry. */
  predicate Signed(call: Call) {
    && call.bearer.Some? && call.bearer.value.FromKeycloak? && call.bearer.value.genuine
    && call.clock <= call.bearer.value.user.expires + 30
  }

  predicate Unexpired(call: Call) {
    call.bearer.Some? && call.bearer.value.FromKeycloak? && call.now < call.bearer.value.user.expires
  }

  /** Every answer of the gateway, from conditions on the call alone. */
  lemma GatewayRepliesExactly(call: Call, profiles: map<string, Profile>, table: ScopeTable)
    ensures var reply := Gateway(call, profiles, table);
      && (reply == Rejected(404, "unknown_profile") <==> call.profile !in profiles)
      && (reply == Rejected(404, "unknown_operation") <==> call.profile in profiles && !Resolved(call, profiles))
      && (reply == Rejected(401, "unauthenticated") <==> Resolved(call, profiles) && !Signed(call))
      && (reply == Rejected(403, "scope_exceeds_profile")
          <==> Resolved(call, profiles) && Signed(call) && !call.settings.passthrough && !Covered(call, profiles, table))
      && (reply.Crashed?
          <==> Covered(call, profiles, table) && Signed(call) && !call.settings.passthrough && !Unexpired(call))
      && (reply.Forwarded?
          <==> && Covered(call, profiles, table) && Signed(call) && Unexpired(call)
               && !call.settings.passthrough && !call.tooLong)
      && (reply.Passed? <==> Resolved(call, profiles) && Signed(call) && call.settings.passthrough && !call.tooLong)
      && (reply.TooLong?
          <==> && Resolved(call, profiles) && Signed(call) && call.tooLong
               && (call.settings.passthrough || (Covered(call, profiles, table) && Unexpired(call))))
  {
    assert |"unknown_profile"| == 15 && |"unknown_operation"| == 17;
  }

  /**
   One user token, shown at the same moment at both sites with a call and a request that are otherwise
   in order: the gateway crashes exactly when the exchange answers 400, inside the leeway.
   */
  lemma LeewayCrashIsA400(call: Call, profiles: map<string, Profile>, r: Request, table: ScopeTable, audience: string,
                          minted: set<Claims>)
    requires Covered(call, profiles, table) && !call.settings.passthrough
    requires WellAsked(r, table, audience) && (r.settings.userOnly || Requested(r.form) <= r.client.value.ceiling)
    requires r.token.FromKeycloak? && call.bearer == Some(r.token) && call.clock == r.clock && call.now == r.now
    ensures Gateway(call, profiles, table).Crashed?
            <==> Exchange(r, table, audience, minted) == Refused(400, "invalid_request", "subject_token_expired")
    ensures Gateway(call, profiles, table).Crashed?
            <==> r.token.genuine && r.clock - 30 <= r.token.user.expires <= r.now
  {
    GatewayMintsExactly(call, profiles, table);
    PrecheckExactly(r, table, audience);
    assert "user_token_invalid"[0] != "subject_token_expired"[0];
  }

  /** What a token minted at the gateway says. */
  ghost predicate GatewayToken(c: Claims, user: User, profile: Profile, table: ScopeTable, now: int) {
    && c.issued == now
    && c.expires == Min(now + 60, user.expires)
    && 0 < c.expires - c.issued <= 60
    && FirstLink(c, user, profile.name)
    && Scopes(c) != {}
    && Scopes(c) <= profile.ceiling * table.Delegable()
  }

  lemma GatewayGrant(call: Call, profiles: map<string, Profile>, table: ScopeTable)
    requires MintedBy(Gateway(call, profiles, table)).Some?
    requires forall s :: s in table.Delegable() ==> IsWord(s)
    ensures call.profile in profiles && HasUser(call) && call.bearer.value.genuine
    ensures GatewayToken(MintedBy(Gateway(call, profiles, table)).value, call.bearer.value.user, profiles[call.profile], table, call.now)
  {
    var o := ResolveCall(call.verb, call.path).value;
    var needed := table.actions[o.action];
    assert needed in table.Delegable();
    ScopeClaimRoundTrip({needed});
  }

  // ---------------------------------------------------------------------------------------------
  // Chains
  // ---------------------------------------------------------------------------------------------

  /** The first token of a chain comes from a user's token, at either site. */
  datatype Origin = AtExchange(request: Request) | AtGateway(call: Call)

  datatype World = World(table: ScopeTable, profiles: map<string, Profile>, audience: string)

  ghost predicate Starts(w: World, o: Origin, user: User, first: Claims) {
    match o
    case AtExchange(r) =>
      && r.token == FromKeycloak(true, user)
      && Exchange(r, w.table, w.audience, {}) == Granted(first)
      && !r.settings.userOnly
    case AtGateway(call) =>
      && call.bearer == Some(FromKeycloak(true, user))
      && MintedBy(Gateway(call, w.profiles, w.table)) == Some(first)
  }

  function CeilingOf(w: World, o: Origin): set<string> {
    match o
    case AtExchange(r) => if r.client.Some? then r.client.value.ceiling else {}
    case AtGateway(call) => if call.profile in w.profiles then w.profiles[call.profile].ceiling else {}
  }

  function FirstActor(w: World, o: Origin): string {
    match o
    case AtExchange(r) => if r.client.Some? then r.client.value.name else ""
    case AtGateway(call) => if call.profile in w.profiles then w.profiles[call.profile].name else ""
  }

  /** `tokens[i + 1]` was granted for `tokens[i]` by `hops[i]`, with the chain switch at its secure value. */
  ghost predicate Chain(w: World, minted: set<Claims>, tokens: seq<Claims>, hops: seq<Request>) {
    && |tokens| == |hops| + 1
    && forall i :: 0 <= i < |hops| ==> Hop(w, minted, hops[i], tokens[i], tokens[i + 1])
  }

  ghost predicate Hop(w: World, minted: set<Claims>, r: Request, own: Claims, c: Claims) {
    && r.token == FromBroker(own)
    && !r.settings.widen
    && Exchange(r, w.table, w.audience, minted) == Granted(c)
  }

  function ActorOf(r: Request): string {
    if r.client.Some? then r.client.value.name else ""
  }

  /** The clients of a chain, newest first. */
  function Clients(first: string, hops: seq<Request>): seq<string> {
    if |hops| == 0 then [first] else [ActorOf(hops[|hops| - 1])] + Clients(first, hops[..|hops| - 1])
  }

  /** What the first profile and the user allow of any token in the chain. */
  ghost predicate Inside(w: World, o: Origin, user: User, c: Claims) {
    && c.subject == user.subject
    && 0 < c.expires - c.issued <= 300
    && c.expires <= user.expires
    && Scopes(c) != {}
    && Scopes(c) <= CeilingOf(w, o)
  }

  ghost predicate Narrower(later: Claims, earlier: Claims) {
    Scopes(later) <= Scopes(earlier) && later.expires <= earlier.expires
  }

  lemma StartsAtGateway(w: World, call: Call, user: User, first: Claims)
    requires Starts(w, AtGateway(call), user, first)
    requires forall s :: s in w.table.Delegable() ==> IsWord(s)
    ensures Inside(w, AtGateway(call), user, first) && Actors(first.act) == [FirstActor(w, AtGateway(call))]
  {
    GatewayGrant(call, w.profiles, w.table);
  }

  lemma StartsAtExchange(w: World, r: Request, user: User, first: Claims)
    requires Starts(w, AtExchange(r), user, first)
    ensures Inside(w, AtExchange(r), user, first) && Actors(first.act) == [FirstActor(w, AtExchange(r))]
  {
    UserGrant(r, w.table, w.audience, {});
  }

  lemma HopNarrows(w: World, minted: set<Claims>, r: Request, own: Claims, c: Claims)
    requires Hop(w, minted, r, own, c)
    ensures Narrower(c, own) && c.subject == own.subject && 0 < c.expires - c.issued <= 300 && Scopes(c) != {}
    ensures Actors(c.act) == [ActorOf(r)] + Actors(own.act) && |Actors(c.act)| <= 4
  {
    DelegatedGrant(r, w.table, w.audience, minted);
  }

  lemma {:induction false} NarrowerThroughout(tokens: seq<Claims>, i: nat, j: nat)
    requires forall k :: 0 <= k < |tokens| - 1 ==> Narrower(tokens[k + 1], tokens[k])
    requires i <= j < |tokens|
    ensures Narrower(tokens[j], tokens[i])
    decreases j
  {
    if i < j {
      NarrowerThroughout(tokens, i, j - 1);
      assert Narrower(tokens[j - 1 + 1], tokens[j - 1]);
    }
  }

  /** The last token of a chain, by induction over its hops. */
  lemma {:induction false} LastOfChain(w: World, minted: set<Claims>, o: Origin, user: User, tokens: seq<Claims>, hops: seq<Request>)
    requires Chain(w, minted, tokens, hops) && Starts(w, o, user, tokens[0])
    requires forall s :: s in w.table.Delegable() ==> IsWord(s)
    ensures var last := tokens[|hops|];
      && Inside(w, o, user, last)
      && Actors(last.act) == Clients(FirstActor(w, o), hops)
      && |Actors(last.act)| == |tokens| <= 4
    decreases |hops|
  {
    if |hops| == 0 {
      match o
      case AtExchange(r) => StartsAtExchange(w, r, user, tokens[0]);
      case AtGateway(call) => StartsAtGateway(w, call, user, tokens[0]);
    } else {
      var n := |hops| - 1;
      ChainPrefix(w, minted, tokens, hops, n);
      LastOfChain(w, minted, o, user, tokens[..n + 1], hops[..n]);
      HopNarrows(w, minted, hops[n], tokens[n], tokens[n + 1]);
    }
  }

  lemma ChainPrefix(w: World, minted: set<Claims>, tokens: seq<Claims>, hops: seq<Request>, n: nat)
    requires Chain(w, minted, tokens, hops) && n <= |hops|
    ensures Chain(w, minted, tokens[..n + 1], hops[..n])
  {
    forall i | 0 <= i < n ensures Hop(w, minted, hops[..n][i], tokens[..n + 1][i], tokens[..n + 1][i + 1]) {
      assert Hop(w, minted, hops[i], tokens[i], tokens[i + 1]);
    }
  }

  /**
   With the switches secure, a chain only narrows: each token's scopes lie in every earlier token's
   and in the first profile's ceiling, the user stays, the expiry never passes an earlier one's or
   the user token's, `act` lists the clients newest first, and there are at most four tokens.
   */
  lemma ChainOnlyNarrows(w: World, minted: set<Claims>, o: Origin, user: User, tokens: seq<Claims>, hops: seq<Request>)
    requires Chain(w, minted, tokens, hops) && Starts(w, o, user, tokens[0])
    requires forall s :: s in w.table.Delegable() ==> IsWord(s)
    ensures |tokens| <= 4
    ensures forall i :: 0 <= i < |tokens| ==> Inside(w, o, user, tokens[i])
    ensures forall i :: 0 <= i < |tokens| ==> Actors(tokens[i].act) == Clients(FirstActor(w, o), hops[..i])
    ensures forall i, j :: 0 <= i <= j < |tokens| ==> Narrower(tokens[j], tokens[i])
  {
    LastOfChain(w, minted, o, user, tokens, hops);
    forall i | 0 <= i < |tokens|
      ensures Inside(w, o, user, tokens[i]) && Actors(tokens[i].act) == Clients(FirstActor(w, o), hops[..i])
    {
      ChainPrefix(w, minted, tokens, hops, i);
      LastOfChain(w, minted, o, user, tokens[..i + 1], hops[..i]);
    }
    forall k | 0 <= k < |tokens| - 1 ensures Narrower(tokens[k + 1], tokens[k]) {
      HopNarrows(w, minted, hops[k], tokens[k], tokens[k + 1]);
    }
    forall i, j | 0 <= i <= j < |tokens| ensures Narrower(tokens[j], tokens[i]) {
      NarrowerThroughout(tokens, i, j);
    }
  }
}
