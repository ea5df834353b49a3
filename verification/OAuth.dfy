/** The authorization-code and refresh grants (`src/oauth/mod.rs`) over their two tables. Each handler is one
    step; expiry is judged by the clock reading of the call. */
module OAuth {
  import opened Results
  import opened Lineages
  import opened Rbac
  import Names

  const CODE_TTL := 600
  const ACCESS_TTL := 3600
  const REFRESH_TTL := 60 * 60 * 24 * 30

  // ----- Tables -----

  /** A code challenge as a client sent it: the S256 image of some verifier, or any other text. */
  datatype Challenge = S256(verifier: string) | Raw(text: string)

  datatype User = User(role: string)

  datatype CodeRow = CodeRow(client: string, redirect: string, challenge: Challenge, scopes: seq<string>,
                             user: nat, tenant: nat, consumed: bool, expiresAt: int)

  datatype TokenRow = TokenRow(access: Digest, refresh: Digest, client: string, user: nat, tenant: nat,
                               scopes: seq<string>, accessExpiresAt: int, refreshExpiresAt: int, revoked: bool)

  /** Where a token row came from: the code its chain started from and the row it replaced. */
  datatype Source = Source(code: Digest, replaced: Option<nat>)

  /** What was asked for at consent, and the role the session carried then. */
  datatype ConsentRecord = ConsentRecord(requested: seq<string>, role: string)

  /** `sources` and `consents` are history; the database does not hold them. */
  datatype Tables = Tables(clients: map<string, seq<string>>, tenants: set<nat>, users: map<nat, User>,
                           codes: map<Digest, CodeRow>, tokens: seq<TokenRow>, sources: seq<Source>,
                           consents: map<Digest, ConsentRecord>)

  // ----- Requests and answers -----

  datatype SessionClaims = SessionClaims(user: nat, tenant: nat, role: string)

  datatype ConsentForm = ConsentForm(client: string, redirect: string, challenge: Challenge, scopes: seq<string>)

  datatype TokenForm = TokenForm(code: string, redirect: string, verifier: string, client: string, refreshToken: string)

  /** A freshly drawn token pair. */
  datatype Pair = Pair(access: string, refresh: string)

  datatype Refusal =
    | LoginRequired | UnknownClient | UnregisteredRedirect | MissingChallenge
    | UnknownCode | SpentCode | RedirectMismatch | PkceFailed | UnknownRefresh | ServerError

  datatype Answer =
    | Redirected(code: string)
    | Issued(pair: Pair, scopes: seq<string>)
    | Refused(why: Refusal)
    | Done

  datatype Outcome = Outcome(tables: Tables, answer: Answer)

  datatype AccessClaims = AccessClaims(user: nat, tenant: nat, role: string, scopes: seq<string>)

  // ----- Steps -----

  function PkceVerify(verifier: string, challenge: Challenge): bool {
    verifier != "" && S256(verifier) == challenge
  }

  function ConsentStep(s: Tables, claims: Option<SessionClaims>, f: ConsentForm, code: string, now: int): Outcome {
    if claims.None? then Outcome(s, Refused(LoginRequired))
    else if f.client !in s.clients then Outcome(s, Refused(UnknownClient))
    else if f.redirect !in s.clients[f.client] then Outcome(s, Refused(UnregisteredRedirect))
    else if f.challenge == Raw("") then Outcome(s, Refused(MissingChallenge))
    else
      var c := claims.value;
      var hash := Sha256(code);
      if hash in s.codes || c.user !in s.users || c.tenant !in s.tenants then Outcome(s, Refused(ServerError))
      else
        var row := CodeRow(f.client, f.redirect, f.challenge, CapScopes(f.scopes, c.role), c.user, c.tenant, false,
                           now + CODE_TTL);
        Outcome(s.(codes := s.codes[hash := row], consents := s.consents[hash := ConsentRecord(f.scopes, c.role)]),
                Redirected(code))
  }

  predicate Taken(tokens: seq<TokenRow>, pair: Pair) {
    exists i :: 0 <= i < |tokens|
                && (tokens[i].access == Sha256(pair.access) || tokens[i].refresh == Sha256(pair.refresh))
  }

  /** The client, the user and the tenant must exist and both hashes must be new, or the insert fails. */
  predicate Insertable(s: Tables, client: string, user: nat, tenant: nat, pair: Pair) {
    client in s.clients && user in s.users && tenant in s.tenants && !Taken(s.tokens, pair)
  }

  function NewRow(client: string, user: nat, tenant: nat, scopes: seq<string>, pair: Pair, now: int): TokenRow {
    TokenRow(Sha256(pair.access), Sha256(pair.refresh), client, user, tenant, scopes, now + ACCESS_TTL,
             now + REFRESH_TTL, false)
  }

  function Issue(s: Tables, client: string, user: nat, tenant: nat, scopes: seq<string>, pair: Pair, now: int,
                 source: Source): (r: Outcome)
    requires |s.sources| == |s.tokens|
    ensures |r.tables.sources| == |r.tables.tokens|
  {
    if !Insertable(s, client, user, tenant, pair) then Outcome(s, Refused(ServerError))
    else
      Outcome(s.(tokens := s.tokens + [NewRow(client, user, tenant, scopes, pair, now)],
                 sources := s.sources + [source]),
              Issued(pair, scopes))
  }

  function Consume(s: Tables, hash: Digest): Tables
    requires hash in s.codes
  {
    s.(codes := s.codes[hash := s.codes[hash].(consumed := true)])
  }

  /** The checks of the code grant, in the order they are made. */
  function CodeRefusal(s: Tables, f: TokenForm, now: int): Option<Refusal> {
    var hash := Sha256(f.code);
    if hash !in s.codes then Some(UnknownCode)
    else
      var row := s.codes[hash];
      if row.consumed || row.expiresAt < now then Some(SpentCode)
      else if row.redirect != f.redirect then Some(RedirectMismatch)
      else if !PkceVerify(f.verifier, row.challenge) then Some(PkceFailed)
      else None
  }

  function CodeStep(s: Tables, f: TokenForm, pair: Pair, now: int): (r: Outcome)
    requires |s.sources| == |s.tokens|
    ensures |r.tables.sources| == |r.tables.tokens|
  {
    var refusal := CodeRefusal(s, f, now);
    if refusal.Some? then Outcome(s, Refused(refusal.value))
    else
      var row := s.codes[Sha256(f.code)];
      Issue(Consume(s, Sha256(f.code)), f.client, row.user, row.tenant, row.scopes, pair, now,
            Source(Sha256(f.code), None))
  }

  predicate Refreshes(row: TokenRow, hash: Digest, now: int) {
    row.refresh == hash && !row.revoked && row.refreshExpiresAt > now
  }

  function FindRefresh(tokens: seq<TokenRow>, hash: Digest, now: int): (r: Option<nat>)
    ensures r.Some? ==> r.value < |tokens| && Refreshes(tokens[r.value], hash, now)
    ensures r.None? ==> forall i :: 0 <= i < |tokens| ==> !Refreshes(tokens[i], hash, now)
  {
    if tokens == [] then None
    else
      var k := |tokens| - 1;
      var r := FindRefresh(tokens[..k], hash, now);
      if r.Some? then r else if Refreshes(tokens[k], hash, now) then Some(k) else None
  }

  function RevokeAt(tokens: seq<TokenRow>, i: nat): seq<TokenRow>
    requires i < |tokens|
  {
    tokens[i := tokens[i].(revoked := true)]
  }

  function RefreshStep(s: Tables, f: TokenForm, pair: Pair, now: int): (r: Outcome)
    requires |s.sources| == |s.tokens|
    ensures |r.tables.sources| == |r.tables.tokens|
  {
    var found := FindRefresh(s.tokens, Sha256(f.refreshToken), now);
    if found.None? then Outcome(s, Refused(UnknownRefresh))
    else
      var old' := s.tokens[found.value];
      Issue(s.(tokens := RevokeAt(s.tokens, found.value)), old'.client, old'.user, old'.tenant, old'.scopes, pair, now,
            Source(s.sources[found.value].code, found))
  }

  /** Tenants, users, their roles and clients are changed by handlers outside the model. */
  datatype Event =
    | AuthorizeConsent(claims: Option<SessionClaims>, consent: ConsentForm, code: string, now: int)
    | TokenFromCode(form: TokenForm, pair: Pair, now: int)
    | TokenFromRefresh(form: TokenForm, pair: Pair, now: int)
    | AddTenant(tenant: nat)
    | SetRole(user: nat, role: string)
    | RegisterClient(client: string, redirects: seq<string>)

  function Step(s: Tables, e: Event): (r: Outcome)
    requires |s.sources| == |s.tokens|
    ensures |r.tables.sources| == |r.tables.tokens|
  {
    match e
    case AuthorizeConsent(claims, consent, code, now) => ConsentStep(s, claims, consent, code, now)
    case TokenFromCode(form, pair, now) => CodeStep(s, form, pair, now)
    case TokenFromRefresh(form, pair, now) => RefreshStep(s, form, pair, now)
    case AddTenant(tenant) => Outcome(s.(tenants := s.tenants + {tenant}), Done)
    case SetRole(user, role) => Outcome(s.(users := s.users[user := User(role)]), Done)
    case RegisterClient(client, redirects) => Outcome(s.(clients := s.clients[client := redirects]), Done)
  }

  function Run(s: Tables, es: seq<Event>): (r: Tables)
    requires |s.sources| == |s.tokens|
    ensures |r.sources| == |r.tokens|
  {
    if es == [] then s else Step(Run(s, es[..|es| - 1]), es[|es| - 1]).tables
  }

  // ----- Access tokens -----

  predicate Accesses(row: TokenRow, hash: Digest, now: int) {
    row.access == hash && !row.revoked && row.accessExpiresAt > now
  }

  function FindAccess(tokens: seq<TokenRow>, hash: Digest, now: int): (r: Option<nat>)
    ensures r.Some? ==> r.value < |tokens| && Accesses(tokens[r.value], hash, now)
    ensures r.None? ==> forall i :: 0 <= i < |tokens| ==> !Accesses(tokens[i], hash, now)
  {
    if tokens == [] then None
    else
      var k := |tokens| - 1;
      var r := FindAccess(tokens[..k], hash, now);
      if r.Some? then r else if Accesses(tokens[k], hash, now) then Some(k) else None
  }

  /** Who a bearer of the token is: the row's scopes under the user's role of the moment. */
  function ClaimsForAccessToken(s: Tables, token: string, now: int): Option<AccessClaims> {
    var found := FindAccess(s.tokens, Sha256(token), now);
    if found.None? || s.tokens[found.value].user !in s.users then None
    else
      var row := s.tokens[found.value];
      Some(AccessClaims(row.user, row.tenant, s.users[row.user].role, row.scopes))
  }

  /** What those claims allow. */
  function Allowed(c: AccessClaims): set<string> {
    EffectiveScopes(c.role, Some(c.scopes))
  }

  // ----- The handlers -----

  class TokenServer {
    var clients: map<string, seq<string>>
    var tenants: set<nat>
    var users: map<nat, User>
    var codes: map<Digest, CodeRow>
    var tokens: seq<TokenRow>
    ghost var sources: seq<Source>
    ghost var consents: map<Digest, ConsentRecord>

    constructor (clients: map<string, seq<string>>, tenants: set<nat>, users: map<nat, User>)
      ensures Contents() == Fresh(clients, tenants, users)
    {
      this.clients, this.tenants, this.users := clients, tenants, users;
      codes, tokens, sources, consents := map[], [], [], map[];
    }

    ghost function Contents(): Tables
      reads this
    {
      Tables(clients, tenants, users, codes, tokens, sources, consents)
    }

    method GiveConsent(claims: Option<SessionClaims>, f: ConsentForm, code: string, now: int) returns (answer: Answer)
      requires |sources| == |tokens|
      modifies this`codes, this`consents
      ensures Outcome(Contents(), answer) == Step(old(Contents()), AuthorizeConsent(claims, f, code, now))
    {
      if claims.None? { return Refused(LoginRequired); }
      if f.client !in clients { return Refused(UnknownClient); }
      if f.redirect !in clients[f.client] { return Refused(UnregisteredRedirect); }
      if f.challenge == Raw("") { return Refused(MissingChallenge); }
      var c := claims.value;
      var granted := CapScopes(f.scopes, c.role);
      var hash := Sha256(code);
      if hash in codes || c.user !in users || c.tenant !in tenants { return Refused(ServerError); }
      var row := CodeRow(f.client, f.redirect, f.challenge, granted, c.user, c.tenant, false, now + CODE_TTL);
      codes := codes[hash := row];
      consents := consents[hash := ConsentRecord(f.scopes, c.role)];
      return Redirected(code);
    }

    method IssueTokens(client: string, user: nat, tenant: nat, scopes: seq<string>, pair: Pair, now: int,
                       ghost source: Source) returns (answer: Answer)
      requires |sources| == |tokens|
      modifies this`tokens, this`sources
      ensures Outcome(Contents(), answer) == Issue(old(Contents()), client, user, tenant, scopes, pair, now, source)
    {
      if client !in clients || user !in users || tenant !in tenants || Taken(tokens, pair) {
        return Refused(ServerError);
      }
      tokens := tokens + [NewRow(client, user, tenant, scopes, pair, now)];
      sources := sources + [source];
      return Issued(pair, scopes);
    }

    method ByCode(f: TokenForm, pair: Pair, now: int) returns (answer: Answer)
      requires |sources| == |tokens|
      modifies this`codes, this`tokens, this`sources
      ensures Outcome(Contents(), answer) == Step(old(Contents()), TokenFromCode(f, pair, now))
    {
      var hash := Sha256(f.code);
      if hash !in codes { return Refused(UnknownCode); }
      var row := codes[hash];
      if row.consumed || row.expiresAt < now { return Refused(SpentCode); }
      if row.redirect != f.redirect { return Refused(RedirectMismatch); }
      if !PkceVerify(f.verifier, row.challenge) { return Refused(PkceFailed); }
      codes := codes[hash := row.(consumed := true)];
      answer := IssueTokens(f.client, row.user, row.tenant, row.scopes, pair, now, Source(hash, None));
    }

    method ByRefresh(f: TokenForm, pair: Pair, now: int) returns (answer: Answer)
      requires |sources| == |tokens|
      modifies this`tokens, this`sources
      ensures Outcome(Contents(), answer) == Step(old(Contents()), TokenFromRefresh(f, pair, now))
    {
      var found := FindRefresh(tokens, Sha256(f.refreshToken), now);
      if found.None? { return Refused(UnknownRefresh); }
      var row := tokens[found.value];
      tokens := RevokeAt(tokens, found.value);
      answer := IssueTokens(row.client, row.user, row.tenant, row.scopes, pair, now,
                            Source(sources[found.value].code, found));
    }
  }

  function Fresh(clients: map<string, seq<string>>, tenants: set<nat>, users: map<nat, User>): Tables {
    Tables(clients, tenants, users, map[], [], [], map[])
  }

  // ----- What every step keeps -----

  /** A replaced row is revoked and stands in the same chain; no row is replaced twice, and no code starts
      two chains. */
  ghost predicate Chained(tokens: seq<TokenRow>, sources: seq<Source>) {
    && |sources| == |tokens|
    && (forall i :: 0 <= i < |sources| && sources[i].replaced.Some? ==>
          && sources[i].replaced.value < i
          && tokens[sources[i].replaced.value].revoked
          && sources[sources[i].replaced.value].code == sources[i].code)
    && (forall i, j :: 0 <= i < j < |sources| && sources[i].replaced == sources[j].replaced ==>
          sources[i].replaced.None? && sources[i].code != sources[j].code)
  }

  ghost predicate RefreshDiffer(tokens: seq<TokenRow>) {
    forall i, j :: 0 <= i < j < |tokens| ==> tokens[i].refresh != tokens[j].refresh
  }

  ghost predicate AccessDiffer(tokens: seq<TokenRow>) {
    forall i, j :: 0 <= i < j < |tokens| ==> tokens[i].access != tokens[j].access
  }

  /** A token row carries what its code was granted, and that code is spent. */
  predicate Carries(codes: map<Digest, CodeRow>, row: TokenRow, source: Source) {
    && source.code in codes
    && var c := codes[source.code];
       c.consumed && row.scopes == c.scopes && row.user == c.user && row.tenant == c.tenant
  }

  ghost predicate AllCarry(s: Tables) {
    && |s.sources| == |s.tokens|
    && (forall i :: 0 <= i < |s.tokens| ==> Carries(s.codes, s.tokens[i], s.sources[i]))
  }

  /** A code grants what capping the consent gives. */
  ghost predicate CodesCapped(s: Tables) {
    && s.codes.Keys == s.consents.Keys
    && (forall h :: h in s.codes ==> s.codes[h].scopes == CapScopes(s.consents[h].requested, s.consents[h].role))
  }

  ghost predicate Inv(s: Tables) {
    && Chained(s.tokens, s.sources) && RefreshDiffer(s.tokens) && AccessDiffer(s.tokens)
    && AllCarry(s) && CodesCapped(s)
  }

  /** Codes and rows stay, and are only ever spent; users stay too. */
  ghost predicate OnlySpends(before: Tables, after: Tables) {
    && before.users.Keys <= after.users.Keys
    && (forall h :: h in before.codes ==>
          && h in after.codes
          && (after.codes[h] == before.codes[h] || after.codes[h] == before.codes[h].(consumed := true)))
    && |before.tokens| <= |after.tokens|
    && (forall i :: 0 <= i < |before.tokens| ==>
          after.tokens[i] == before.tokens[i] || after.tokens[i] == before.tokens[i].(revoked := true))
  }

  /** Rows keep carrying what their codes grant when codes are only added or spent. */
  lemma CarryOn(s: Tables, codes: map<Digest, CodeRow>)
    requires AllCarry(s) && OnlySpends(s, s.(codes := codes))
    ensures AllCarry(s.(codes := codes))
  {
    forall i | 0 <= i < |s.tokens| ensures Carries(codes, s.tokens[i], s.sources[i]) {
      assert Carries(s.codes, s.tokens[i], s.sources[i]);
    }
  }

  lemma AddCodeKeeps(s: Tables, hash: Digest, row: CodeRow, consent: ConsentRecord)
    requires Inv(s) && hash !in s.codes && row.scopes == CapScopes(consent.requested, consent.role)
    ensures var after := s.(codes := s.codes[hash := row], consents := s.consents[hash := consent]);
            Inv(after) && OnlySpends(s, after)
  {
    CarryOn(s, s.codes[hash := row]);
  }

  lemma ConsentKeeps(s: Tables, claims: Option<SessionClaims>, f: ConsentForm, code: string, now: int)
    requires Inv(s)
    ensures var after := ConsentStep(s, claims, f, code, now).tables; Inv(after) && OnlySpends(s, after)
  {
    if ConsentStep(s, claims, f, code, now).answer.Redirected? {
      var c := claims.value;
      AddCodeKeeps(s, Sha256(code),
                   CodeRow(f.client, f.redirect, f.challenge, CapScopes(f.scopes, c.role), c.user, c.tenant, false,
                           now + CODE_TTL),
                   ConsentRecord(f.scopes, c.role));
    }
  }

  lemma ConsumeKeeps(s: Tables, hash: Digest)
    requires Inv(s) && hash in s.codes
    ensures Inv(Consume(s, hash)) && OnlySpends(s, Consume(s, hash))
  {
  }

  lemma RevokeKeeps(s: Tables, i: nat)
    requires Inv(s) && i < |s.tokens|
    ensures var after := s.(tokens := RevokeAt(s.tokens, i)); Inv(after) && OnlySpends(s, after)
  {
  }

  /** A row may be added when it starts the first chain of its code or replaces a revoked row not replaced
      before. */
  ghost predicate MayJoin(tokens: seq<TokenRow>, sources: seq<Source>, source: Source)
    requires |sources| == |tokens|
  {
    if source.replaced.None? then forall i :: 0 <= i < |sources| ==> sources[i].code != source.code
    else
      && source.replaced.value < |tokens| && tokens[source.replaced.value].revoked
      && sources[source.replaced.value].code == source.code
      && (forall i :: 0 <= i < |sources| ==> sources[i].replaced != source.replaced)
  }

  lemma JoinKeepsChained(tokens: seq<TokenRow>, sources: seq<Source>, row: TokenRow, source: Source)
    requires Chained(tokens, sources) && MayJoin(tokens, sources, source)
    ensures Chained(tokens + [row], sources + [source])
  {
  }

  lemma JoinKeepsDiffer(tokens: seq<TokenRow>, row: TokenRow)
    requires RefreshDiffer(tokens) && AccessDiffer(tokens)
    requires forall i :: 0 <= i < |tokens| ==> tokens[i].refresh != row.refresh && tokens[i].access != row.access
    ensures RefreshDiffer(tokens + [row]) && AccessDiffer(tokens + [row])
  {
  }

  lemma IssueKeeps(s: Tables, client: string, user: nat, tenant: nat, scopes: seq<string>, pair: Pair, now: int,
                   source: Source)
    requires Inv(s) && Carries(s.codes, NewRow(client, user, tenant, scopes, pair, now), source)
    requires MayJoin(s.tokens, s.sources, source)
    ensures var after := Issue(s, client, user, tenant, scopes, pair, now, source).tables;
            Inv(after) && OnlySpends(s, after)
  {
    if Insertable(s, client, user, tenant, pair) {
      var row := NewRow(client, user, tenant, scopes, pair, now);
      JoinKeepsChained(s.tokens, s.sources, row, source);
      JoinKeepsDiffer(s.tokens, row);
    }
  }

  /** The chains of an unspent code have not begun. */
  lemma UnspentStartsNone(s: Tables, hash: Digest)
    requires AllCarry(s) && hash in s.codes && !s.codes[hash].consumed
    ensures MayJoin(s.tokens, s.sources, Source(hash, None))
  {
    forall i | 0 <= i < |s.sources| ensures s.sources[i].code != hash {
      assert Carries(s.codes, s.tokens[i], s.sources[i]);
    }
  }

  lemma CodeKeeps(s: Tables, f: TokenForm, pair: Pair, now: int)
    requires Inv(s)
    ensures var after := CodeStep(s, f, pair, now).tables; Inv(after) && OnlySpends(s, after)
  {
    if CodeRefusal(s, f, now).None? {
      var hash := Sha256(f.code);
      var row := s.codes[hash];
      UnspentStartsNone(s, hash);
      ConsumeKeeps(s, hash);
      IssueKeeps(Consume(s, hash), f.client, row.user, row.tenant, row.scopes, pair, now, Source(hash, None));
    }
  }

  lemma RefreshKeeps(s: Tables, f: TokenForm, pair: Pair, now: int)
    requires Inv(s)
    ensures var after := RefreshStep(s, f, pair, now).tables; Inv(after) && OnlySpends(s, after)
  {
    var found := FindRefresh(s.tokens, Sha256(f.refreshToken), now);
    if found.Some? {
      var row := s.tokens[found.value];
      RevokeKeeps(s, found.value);
      IssueKeeps(s.(tokens := RevokeAt(s.tokens, found.value)), row.client, row.user, row.tenant, row.scopes, pair, now,
                 Source(s.sources[found.value].code, found));
    }
  }

  lemma StepKeeps(s: Tables, e: Event)
    requires Inv(s)
    ensures Inv(Step(s, e).tables) && OnlySpends(s, Step(s, e).tables)
  {
    match e
    case AuthorizeConsent(claims, consent, code, now) => ConsentKeeps(s, claims, consent, code, now);
    case TokenFromCode(form, pair, now) => CodeKeeps(s, form, pair, now);
    case TokenFromRefresh(form, pair, now) => RefreshKeeps(s, form, pair, now);
    case AddTenant(tenant) =>
    case SetRole(user, role) =>
    case RegisterClient(client, redirects) =>
  }

  lemma SpendsFurther(a: Tables, b: Tables, c: Tables)
    requires OnlySpends(a, b) && OnlySpends(b, c)
    ensures OnlySpends(a, c)
  {
  }

  lemma {:induction false} RunKeeps(s: Tables, es: seq<Event>)
    requires Inv(s)
    ensures Inv(Run(s, es)) && OnlySpends(s, Run(s, es))
  {
    if es != [] {
      var middle := Run(s, es[..|es| - 1]);
      RunKeeps(s, es[..|es| - 1]);
      StepKeeps(middle, es[|es| - 1]);
      SpendsFurther(s, middle, Run(s, es));
    }
  }

  /** Nothing is issued before the first event. */
  predicate Empty(s: Tables) {
    s.codes == map[] && s.tokens == [] && s.sources == [] && s.consents == map[]
  }

  // ----- Chains -----

  function Replaced(sources: seq<Source>): seq<Option<nat>> {
    seq(|sources|, i requires 0 <= i < |sources| => sources[i].replaced)
  }

  lemma ChainsGrow(s: Tables)
    requires Inv(s)
    ensures Grown(Replaced(s.sources)) && ReplacedOnce(Replaced(s.sources))
  {
  }

  lemma {:induction false} RootOfCode(s: Tables, i: nat)
    requires Inv(s) && i < |s.sources| && Grown(Replaced(s.sources))
    ensures s.sources[Root(Replaced(s.sources), i)].code == s.sources[i].code
    decreases i
  {
    if s.sources[i].replaced.Some? {
      RootOfCode(s, s.sources[i].replaced.value);
    }
  }

  /** In every run, all rows descending from one code form a single path, at most one of them unrevoked. */
  lemma OneChainPerCode(start: Tables, es: seq<Event>, i: nat, j: nat)
    requires Empty(start)
    requires var s := Run(start, es); i < |s.tokens| && j < |s.tokens| && s.sources[i].code == s.sources[j].code
    ensures var s := Run(start, es);
            && Grown(Replaced(s.sources))
            && (LeadsTo(Replaced(s.sources), i, j) || LeadsTo(Replaced(s.sources), j, i))
            && (!s.tokens[i].revoked && !s.tokens[j].revoked ==> i == j)
  {
    RunKeeps(start, es);
    ChainOfCode(Run(start, es), i, j);
  }

  lemma ChainOfCode(s: Tables, i: nat, j: nat)
    requires Inv(s) && i < |s.tokens| && j < |s.tokens| && s.sources[i].code == s.sources[j].code
    ensures Grown(Replaced(s.sources))
    ensures LeadsTo(Replaced(s.sources), i, j) || LeadsTo(Replaced(s.sources), j, i)
    ensures !s.tokens[i].revoked && !s.tokens[j].revoked ==> i == j
  {
    var parents := Replaced(s.sources);
    ChainsGrow(s);
    RootOfCode(s, i);
    RootOfCode(s, j);
    assert Root(parents, i) == Root(parents, j);
    if Age(parents, i) <= Age(parents, j) {
      LineageIsPath(parents, i, j);
    } else {
      LineageIsPath(parents, j, i);
    }
    var retired := seq(|s.tokens|, k requires 0 <= k < |s.tokens| => s.tokens[k].revoked);
    if !retired[i] && !retired[j] {
      OneUnretired(parents, retired, i, j);
    }
  }

  // ----- Grants -----

  /** A code is issued exactly for a logged-in user, a known client, one of its redirects and a non-empty
      challenge, when the row can be inserted; it starts unspent and grants nothing its role lacks. */
  lemma ConsentIff(s: Tables, claims: Option<SessionClaims>, f: ConsentForm, code: string, now: int)
    requires Inv(s)
    ensures var h := Sha256(code);
            var r := Step(s, AuthorizeConsent(claims, f, code, now));
            && (r.answer == Redirected(code) <==>
                  claims.Some? && f.client in s.clients && f.redirect in s.clients[f.client] && f.challenge != Raw("")
                  && h !in s.codes && claims.value.user in s.users && claims.value.tenant in s.tenants)
            && (!r.answer.Redirected? ==> r.tables == s)
            && (r.answer.Redirected? ==>
                  && r.tables.codes.Keys == s.codes.Keys + {h} && r.tables.tokens == s.tokens
                  && var row := r.tables.codes[h];
                     && !row.consumed && row.expiresAt == now + 600 && row.challenge == f.challenge
                     && row.redirect == f.redirect && row.user == claims.value.user
                     && Names.Elems(row.scopes) == GrantedSet(f.scopes, claims.value.role)
                     && Names.Elems(row.scopes) <= ScopesForRole(claims.value.role)
                     && row.client == f.client && row.tenant == claims.value.tenant
                     && r.tables.codes == s.codes[h := row])
  {
    if claims.Some? {
      CapScopesIs(f.scopes, claims.value.role);
    }
  }

  /** The refresh grant succeeds exactly for an unrevoked, unexpired row when a new one can be inserted, and
      hands on that row's scopes. The row found is revoked even when the insert fails. */
  lemma RefreshGrantIff(s: Tables, f: TokenForm, pair: Pair, now: int)
    requires Inv(s)
    ensures var h := Sha256(f.refreshToken);
            var r := Step(s, TokenFromRefresh(f, pair, now));
            && (r.answer.Issued? <==> exists i: nat :: i < |s.tokens| && Refreshes(s.tokens[i], h, now)
                                                        && Insertable(s, s.tokens[i].client, s.tokens[i].user,
                                                                      s.tokens[i].tenant, pair))
            && (forall i: nat :: i < |s.tokens| && Refreshes(s.tokens[i], h, now) ==>
                  && i < |r.tables.tokens| && r.tables.tokens[i].revoked
                  && (r.answer.Issued? ==> r.answer == Issued(pair, s.tokens[i].scopes)))
            && ((forall i: nat :: i < |s.tokens| ==> !Refreshes(s.tokens[i], h, now)) ==> r.tables == s)
  {
    var found := FindRefresh(s.tokens, Sha256(f.refreshToken), now);
    if found.Some? {
      SamePairTaken(s.tokens, found.value, pair);
      forall i: nat | i < |s.tokens| && Refreshes(s.tokens[i], Sha256(f.refreshToken), now) ensures i == found.value {
      }
    }
  }

  lemma SamePairTaken(tokens: seq<TokenRow>, i: nat, pair: Pair)
    requires i < |tokens|
    ensures Taken(RevokeAt(tokens, i), pair) <==> Taken(tokens, pair)
  {
    forall j | 0 <= j < |tokens| ensures RevokeAt(tokens, i)[j].access == tokens[j].access
                                      && RevokeAt(tokens, i)[j].refresh == tokens[j].refresh {
    }
  }

  /** The code grant succeeds exactly when the code exists, is unspent and unexpired, came with this
      redirect, and its challenge is the image of the non-empty verifier, and the row can be inserted. A
      refused check leaves everything as it was; passing them all spends the code even if the insert fails. */
  lemma CodeGrantIff(s: Tables, f: TokenForm, pair: Pair, now: int)
    requires Inv(s)
    ensures var h := Sha256(f.code);
            var passes := h in s.codes && !s.codes[h].consumed && now <= s.codes[h].expiresAt
                          && s.codes[h].redirect == f.redirect
                          && f.verifier != "" && s.codes[h].challenge == S256(f.verifier);
            var r := Step(s, TokenFromCode(f, pair, now));
            && (r.answer.Issued? <==> passes && Insertable(s, f.client, s.codes[h].user, s.codes[h].tenant, pair))
            && (r.answer.Issued? ==> r.answer == Issued(pair, s.codes[h].scopes))
            && (passes ==> r.tables.codes == s.codes[h := s.codes[h].(consumed := true)])
            && (!passes ==> r.tables == s)
  {
  }

  // ----- What is issued -----

  /** The row of a fresh pair: both hashes, an hour of access and thirty days of refresh. */
  predicate FreshRow(row: TokenRow, pair: Pair, client: string, user: nat, tenant: nat, scopes: seq<string>, now: int) {
    row == TokenRow(Sha256(pair.access), Sha256(pair.refresh), client, user, tenant, scopes,
                    now + 3600, now + 2592000, false)
  }

  /** An exchanged code adds exactly one row, for its own user, tenant and scopes. */
  lemma CodeGrantStores(s: Tables, f: TokenForm, pair: Pair, now: int)
    requires Inv(s) && Step(s, TokenFromCode(f, pair, now)).answer.Issued?
    ensures var tokens, code := Step(s, TokenFromCode(f, pair, now)).tables.tokens, s.codes[Sha256(f.code)];
            && Sha256(f.code) in s.codes
            && |tokens| == |s.tokens| + 1 && tokens[..|s.tokens|] == s.tokens
            && FreshRow(tokens[|s.tokens|], pair, f.client, code.user, code.tenant, code.scopes, now)
  {
  }

  lemma OnlyRefresh(s: Tables, hash: Digest, now: int, i: nat)
    requires RefreshDiffer(s.tokens) && i < |s.tokens| && Refreshes(s.tokens[i], hash, now)
    ensures FindRefresh(s.tokens, hash, now) == Some(i)
  {
  }

  /** A refresh revokes exactly the presented row and, when it issues, adds exactly one with that row's client,
      user, tenant and scopes. */
  lemma RefreshGrantStores(s: Tables, f: TokenForm, pair: Pair, now: int, i: nat)
    requires Inv(s) && i < |s.tokens| && Refreshes(s.tokens[i], Sha256(f.refreshToken), now)
    ensures var r, row := Step(s, TokenFromRefresh(f, pair, now)), s.tokens[i];
            var rotated := s.tokens[i := row.(revoked := true)];
            && r.tables.codes == s.codes
            && (if r.answer.Issued? then
                  && |r.tables.tokens| == |rotated| + 1 && r.tables.tokens[..|rotated|] == rotated
                  && FreshRow(r.tables.tokens[|rotated|], pair, row.client, row.user, row.tenant, row.scopes, now)
                else r.tables.tokens == rotated)
  {
    OnlyRefresh(s, Sha256(f.refreshToken), now, i);
  }

  /** An unrevoked row refreshes until it expires, as long as the insert goes through. */
  lemma RowRefreshesIff(s: Tables, i: nat, f: TokenForm, pair: Pair, now: int)
    requires Inv(s) && i < |s.tokens| && s.tokens[i].refresh == Sha256(f.refreshToken)
    ensures var row := s.tokens[i];
            Step(s, TokenFromRefresh(f, pair, now)).answer.Issued? <==>
              !row.revoked && now < row.refreshExpiresAt && Insertable(s, row.client, row.user, row.tenant, pair)
  {
    RefreshGrantIff(s, f, pair, now);
    forall j: nat | j < |s.tokens| && Refreshes(s.tokens[j], Sha256(f.refreshToken), now) ensures j == i {
    }
  }

  // ----- Access tokens are honoured -----

  /** A token is honoured exactly when an unrevoked row has its hash, the hour is not over and its user exists. */
  lemma ClaimsIff(s: Tables, token: string, now: int)
    requires Inv(s)
    ensures ClaimsForAccessToken(s, token, now).Some? <==>
              exists i: nat :: i < |s.tokens| && s.tokens[i].access == Sha256(token) && !s.tokens[i].revoked
                               && now < s.tokens[i].accessExpiresAt && s.tokens[i].user in s.users
    ensures forall i: nat :: i < |s.tokens| && s.tokens[i].access == Sha256(token)
                             && ClaimsForAccessToken(s, token, now).Some? ==>
              var row := s.tokens[i];
              ClaimsForAccessToken(s, token, now).value ==
              AccessClaims(row.user, row.tenant, if row.user in s.users then s.users[row.user].role else "", row.scopes)
  {
    var found := FindAccess(s.tokens, Sha256(token), now);
    forall i, j | 0 <= i < |s.tokens| && 0 <= j < |s.tokens| && s.tokens[i].access == s.tokens[j].access
      ensures i == j
    {
    }
  }

  /** Of the row with its hash: while it is unrevoked and its hour is not over. */
  lemma RowHonouredIff(s: Tables, i: nat, token: string, now: int)
    requires Inv(s) && i < |s.tokens| && s.tokens[i].access == Sha256(token) && s.tokens[i].user in s.users
    ensures ClaimsForAccessToken(s, token, now).Some? <==> !s.tokens[i].revoked && now < s.tokens[i].accessExpiresAt
  {
    ClaimsIff(s, token, now);
    forall j: nat | j < |s.tokens| && s.tokens[j].access == Sha256(token) ensures j == i {
    }
  }

  /** What a row keeps in every continuation. */
  lemma RowKept(s: Tables, es: seq<Event>, i: nat)
    requires Inv(s) && i < |s.tokens|
    ensures var after := Run(s, es);
            && Inv(after) && i < |after.tokens| && s.users.Keys <= after.users.Keys
            && after.tokens[i].access == s.tokens[i].access && after.tokens[i].user == s.tokens[i].user
            && after.tokens[i].accessExpiresAt == s.tokens[i].accessExpiresAt
            && (s.tokens[i].revoked ==> after.tokens[i].revoked)
  {
    RunKeeps(s, es);
  }

  /** A pair issued at `now`, in either way, is honoured in every continuation for an hour, unless its row was
      rotated, and never after. */
  lemma IssuedIsHonoured(s: Tables, e: Event, es: seq<Event>, later: int)
    requires Inv(s) && (e.TokenFromCode? || e.TokenFromRefresh?) && Step(s, e).answer.Issued?
    ensures var middle, i := Run(Step(s, e).tables, es), |s.tokens|;
            && i < |middle.tokens|
            && (ClaimsForAccessToken(middle, e.pair.access, later).Some? <==>
                  !middle.tokens[i].revoked && later < e.now + 3600)
  {
    var first := Step(s, e).tables;
    StepKeeps(s, e);
    IssuedRow(s, e);
    RowKept(first, es, |s.tokens|);
    RowHonouredIff(Run(first, es), |s.tokens|, e.pair.access, later);
  }

  lemma IssuedRow(s: Tables, e: Event)
    requires Inv(s) && (e.TokenFromCode? || e.TokenFromRefresh?) && Step(s, e).answer.Issued?
    ensures var after := Step(s, e).tables;
            && |after.tokens| == |s.tokens| + 1
            && after.tokens[|s.tokens|].access == Sha256(e.pair.access)
            && after.tokens[|s.tokens|].accessExpiresAt == e.now + 3600 && after.tokens[|s.tokens|].user in after.users
  {
  }

  /** Once a row is rotated, its access token is refused in every continuation. */
  lemma RotatedAccessRefused(s: Tables, f: TokenForm, pair: Pair, now: int, i: nat, es: seq<Event>,
                             token: string, later: int)
    requires Inv(s) && i < |s.tokens| && Refreshes(s.tokens[i], Sha256(f.refreshToken), now)
    requires s.tokens[i].access == Sha256(token)
    ensures ClaimsForAccessToken(Run(Step(s, TokenFromRefresh(f, pair, now)).tables, es), token, later).None?
  {
    var first := Step(s, TokenFromRefresh(f, pair, now)).tables;
    OnlyRefresh(s, Sha256(f.refreshToken), now, i);
    RotatedRow(s, f, pair, now, i);
    RefreshKeeps(s, f, pair, now);
    RowKept(first, es, i);
    RevokedNotHonoured(Run(first, es), i, token, later);
  }

  lemma RevokedNotHonoured(s: Tables, i: nat, token: string, now: int)
    requires AccessDiffer(s.tokens) && i < |s.tokens| && s.tokens[i].revoked && s.tokens[i].access == Sha256(token)
    ensures ClaimsForAccessToken(s, token, now).None?
  {
  }

  /** The tables had the code been issued to this client. */
  function IssuedTo(s: Tables, code: string, client: string): Tables
    requires Sha256(code) in s.codes
  {
    s.(codes := s.codes[Sha256(code) := s.codes[Sha256(code)].(client := client)])
  }

  /** Neither the checks nor the insert look at the client the code was issued to: whichever it was, the
      answer and the token rows are the same, and a row added is recorded for the client the request names. */
  lemma ClientOfRequest(s: Tables, f: TokenForm, pair: Pair, now: int, client: string)
    requires Inv(s) && Sha256(f.code) in s.codes
    ensures var r := Step(s, TokenFromCode(f, pair, now));
            var other := Step(IssuedTo(s, f.code, client), TokenFromCode(f, pair, now));
            && other.answer == r.answer && other.tables.tokens == r.tables.tokens
            && (r.answer.Issued? ==> r.tables.tokens[..|s.tokens|] == s.tokens && |r.tables.tokens| == |s.tokens| + 1
                                     && r.tables.tokens[|s.tokens|].client == f.client)
  {
    var h, other := Sha256(f.code), IssuedTo(s, f.code, client);
    assert CodeRefusal(other, f, now) == CodeRefusal(s, f, now);
    if CodeRefusal(s, f, now).None? {
      var row := s.codes[h];
      SameIssue(Consume(s, h), Consume(other, h), f.client, row.user, row.tenant, row.scopes, pair, now,
                Source(h, None));
    }
  }

  /** Issuing reads no code. */
  lemma SameIssue(s: Tables, other: Tables, client: string, user: nat, tenant: nat, scopes: seq<string>, pair: Pair,
                  now: int, source: Source)
    requires |s.sources| == |s.tokens| && other == s.(codes := other.codes)
    ensures var r, o := Issue(s, client, user, tenant, scopes, pair, now, source),
                        Issue(other, client, user, tenant, scopes, pair, now, source);
            && o.answer == r.answer && o.tables.tokens == r.tables.tokens
            && (r.answer.Issued? ==> r.tables.tokens == s.tokens + [NewRow(client, user, tenant, scopes, pair, now)])
  {
  }

  /** A code that passed the checks once is refused ever after. */
  lemma CodeIsSingleUse(s: Tables, f: TokenForm, pair: Pair, now: int, es: seq<Event>,
                        f': TokenForm, pair': Pair, later: int)
    requires Inv(s) && CodeRefusal(s, f, now).None? && f'.code == f.code
    ensures var middle := Run(Step(s, TokenFromCode(f, pair, now)).tables, es);
            Step(middle, TokenFromCode(f', pair', later)).answer == Refused(SpentCode)
  {
    var first := Step(s, TokenFromCode(f, pair, now)).tables;
    StepKeeps(s, TokenFromCode(f, pair, now));
    assert Sha256(f.code) in first.codes && first.codes[Sha256(f.code)].consumed by { CodeGrantIff(s, f, pair, now); }
    RunKeeps(first, es);
    SpentIsRefused(Run(first, es), f', pair', later);
  }

  lemma SpentIsRefused(s: Tables, f: TokenForm, pair: Pair, now: int)
    requires |s.sources| == |s.tokens| && Sha256(f.code) in s.codes && s.codes[Sha256(f.code)].consumed
    ensures Step(s, TokenFromCode(f, pair, now)).answer == Refused(SpentCode)
  {
  }

  /** A refresh token that was rotated is refused ever after. */
  lemma RefreshIsSingleUse(s: Tables, f: TokenForm, pair: Pair, now: int, es: seq<Event>,
                           f': TokenForm, pair': Pair, later: int)
    requires Inv(s) && FindRefresh(s.tokens, Sha256(f.refreshToken), now).Some? && f'.refreshToken == f.refreshToken
    ensures var middle := Run(Step(s, TokenFromRefresh(f, pair, now)).tables, es);
            Step(middle, TokenFromRefresh(f', pair', later)).answer == Refused(UnknownRefresh)
  {
    var first := Step(s, TokenFromRefresh(f, pair, now)).tables;
    var i := RotationRevokes(s, f, pair, now);
    RunKeeps(first, es);
    RevokedIsRefused(Run(first, es), i, Sha256(f.refreshToken), later);
  }

  /** Whatever issuing comes to, the rows that were there stay. */
  lemma IssueAppends(s: Tables, client: string, user: nat, tenant: nat, scopes: seq<string>, pair: Pair, now: int,
                     source: Source)
    requires |s.sources| == |s.tokens|
    ensures s.tokens <= Issue(s, client, user, tenant, scopes, pair, now, source).tables.tokens
  {
  }

  lemma RotatedRow(s: Tables, f: TokenForm, pair: Pair, now: int, i: nat)
    requires |s.sources| == |s.tokens| && FindRefresh(s.tokens, Sha256(f.refreshToken), now) == Some(i)
    ensures var after := RefreshStep(s, f, pair, now).tables;
            i < |after.tokens| && after.tokens[i] == s.tokens[i].(revoked := true)
  {
    var row := s.tokens[i];
    IssueAppends(s.(tokens := RevokeAt(s.tokens, i)), row.client, row.user, row.tenant, row.scopes, pair, now,
                 Source(s.sources[i].code, Some(i)));
  }

  lemma RotationRevokes(s: Tables, f: TokenForm, pair: Pair, now: int) returns (i: nat)
    requires Inv(s) && FindRefresh(s.tokens, Sha256(f.refreshToken), now).Some?
    ensures var after := Step(s, TokenFromRefresh(f, pair, now)).tables;
            && Inv(after) && i < |after.tokens|
            && after.tokens[i].revoked && after.tokens[i].refresh == Sha256(f.refreshToken)
  {
    i := FindRefresh(s.tokens, Sha256(f.refreshToken), now).value;
    RotatedRow(s, f, pair, now, i);
    RefreshKeeps(s, f, pair, now);
  }

  lemma RevokedIsRefused(s: Tables, i: nat, hash: Digest, now: int)
    requires RefreshDiffer(s.tokens) && i < |s.tokens| && s.tokens[i].revoked && s.tokens[i].refresh == hash
    ensures FindRefresh(s.tokens, hash, now) == None
  {
  }

  // ----- Scopes -----

  /** In every run, however long the chain and whatever roles were set since, an access token allows what its
      user consented to, as far as their role of the moment holds it, and nothing more: for every known role
      at consent. Under an unknown one the grant is empty and the token allows the whole present role. */
  lemma AccessWithinConsent(start: Tables, es: seq<Event>, token: string, now: int) returns (code: Digest)
    requires Empty(start) && ClaimsForAccessToken(Run(start, es), token, now).Some?
    ensures var s := Run(start, es);
            var c := ClaimsForAccessToken(s, token, now).value;
            && code in s.codes && code in s.consents && c.user == s.codes[code].user && c.user in s.users
            && c.tenant == s.codes[code].tenant && c.role == s.users[c.user].role
            && var granted := GrantedSet(s.consents[code].requested, s.consents[code].role);
               && (KnownRole(s.consents[code].role) ==> Allowed(c) == granted * ScopesForRole(s.users[c.user].role))
               && (!KnownRole(s.consents[code].role) ==> Allowed(c) == ScopesForRole(s.users[c.user].role))
  {
    var s := Run(start, es);
    RunKeeps(start, es);
    var i := FindAccess(s.tokens, Sha256(token), now).value;
    code := s.sources[i].code;
    assert Carries(s.codes, s.tokens[i], s.sources[i]);
    CapScopesIs(s.consents[code].requested, s.consents[code].role);
    CapEmptyIff(s.consents[code].requested, s.consents[code].role);
  }
}
