/** Login sessions (`src/routes/auth.rs`): refresh tokens rotated on use, with reuse detection, over the
    `refresh_tokens` table. Each handler is one step; expiry is judged by the clock reading of the call. */
module Sessions {
  import opened Results
  import opened Lineages

  // ----- Tables -----

  /** A stored password hash, possibly unreadable by the verifier. */
  datatype PasswordHash = Argon2(password: string) | Unreadable

  datatype Account = Account(email: string, password: PasswordHash, active: bool)

  datatype TokenRow = TokenRow(user: nat, hash: Digest, expiresAt: int, revoked: bool)

  /** A user's id is its position among the accounts. `parents` says which row a refresh replaced; the
      database does not hold it. */
  datatype Store = Store(ttl: int, accounts: seq<Account>, rows: seq<TokenRow>, parents: seq<Option<nat>>)

  datatype Refusal = InvalidCredentials | AccountDisabled | InternalError | InvalidRefreshToken | TokenRevoked

  datatype Answer = Issued(user: nat, token: string) | Refused(why: Refusal) | Done

  // ----- Statements -----

  function FindByEmail(accounts: seq<Account>, email: string): (r: Option<nat>)
    ensures r.Some? ==> r.value < |accounts| && accounts[r.value].email == email
    ensures r.None? ==> forall i :: 0 <= i < |accounts| ==> accounts[i].email != email
  {
    if accounts == [] then None
    else
      var k := |accounts| - 1;
      var r := FindByEmail(accounts[..k], email);
      if r.Some? then r else if accounts[k].email == email then Some(k) else None
  }

  predicate Holds(row: TokenRow, hash: Digest, now: int) {
    row.hash == hash && row.expiresAt > now
  }

  function FindToken(rows: seq<TokenRow>, hash: Digest, now: int): (r: Option<nat>)
    ensures r.Some? ==> r.value < |rows| && Holds(rows[r.value], hash, now)
    ensures r.None? ==> forall i :: 0 <= i < |rows| ==> !Holds(rows[i], hash, now)
  {
    if rows == [] then None
    else
      var k := |rows| - 1;
      var r := FindToken(rows[..k], hash, now);
      if r.Some? then r else if Holds(rows[k], hash, now) then Some(k) else None
  }

  predicate Taken(rows: seq<TokenRow>, hash: Digest) {
    exists i :: 0 <= i < |rows| && rows[i].hash == hash
  }

  /** Token hashes are unique; the handlers ignore an insert that fails. */
  function InsertRow(s: Store, user: nat, token: string, now: int, parent: Option<nat>): Store {
    if Taken(s.rows, Sha256(token)) then s
    else s.(rows := s.rows + [TokenRow(user, Sha256(token), now + s.ttl, false)], parents := s.parents + [parent])
  }

  function RevokeAt(rows: seq<TokenRow>, i: nat): seq<TokenRow>
    requires i < |rows|
  {
    rows[i := rows[i].(revoked := true)]
  }

  function RevokeUser(rows: seq<TokenRow>, user: nat): seq<TokenRow> {
    seq(|rows|, i requires 0 <= i < |rows| => if rows[i].user == user then rows[i].(revoked := true) else rows[i])
  }

  function RevokeHash(rows: seq<TokenRow>, hash: Digest): seq<TokenRow> {
    seq(|rows|, i requires 0 <= i < |rows| => if rows[i].hash == hash then rows[i].(revoked := true) else rows[i])
  }

  // ----- Steps -----

  /** `drawn` is the new token, `signs` whether an access token could be made. Accounts are also added
      with their first token, and switched on and off, by handlers outside the model. */
  datatype Event =
    | SignUp(account: Account, drawn: string, now: int)
    | Login(email: string, password: string, drawn: string, signs: bool, now: int)
    | Refresh(token: string, drawn: string, signs: bool, now: int)
    | Logout(token: string)
    | SetActive(user: nat, active: bool)

  datatype Outcome = Outcome(store: Store, answer: Answer)

  function LoginStep(s: Store, email: string, password: string, drawn: string, signs: bool, now: int): Outcome {
    var found := FindByEmail(s.accounts, email);
    if found.None? then Outcome(s, Refused(InvalidCredentials))
    else
      var a := s.accounts[found.value];
      if !a.active then Outcome(s, Refused(AccountDisabled))
      else if a.password.Unreadable? then Outcome(s, Refused(InternalError))
      else if a.password.password != password then Outcome(s, Refused(InvalidCredentials))
      else if !signs then Outcome(s, Refused(InternalError))
      else Outcome(InsertRow(s, found.value, drawn, now, None), Issued(found.value, drawn))
  }

  predicate IsActive(s: Store, user: nat) {
    user < |s.accounts| && s.accounts[user].active
  }

  function RefreshStep(s: Store, token: string, drawn: string, signs: bool, now: int): Outcome {
    var found := FindToken(s.rows, Sha256(token), now);
    if found.None? then Outcome(s, Refused(InvalidRefreshToken))
    else
      var i := found.value;
      var row := s.rows[i];
      if row.revoked then Outcome(s.(rows := RevokeUser(s.rows, row.user)), Refused(TokenRevoked))
      else
        var rotated := s.(rows := RevokeAt(s.rows, i));
        if !IsActive(s, row.user) then Outcome(rotated, Refused(AccountDisabled))
        else if !signs then Outcome(rotated, Refused(InternalError))
        else Outcome(InsertRow(rotated, row.user, drawn, now, Some(i)), Issued(row.user, drawn))
  }

  function Step(s: Store, e: Event): Outcome {
    match e
    case SignUp(account, drawn, now) =>
      var user := |s.accounts|;
      Outcome(InsertRow(s.(accounts := s.accounts + [account]), user, drawn, now, None), Issued(user, drawn))
    case Login(email, password, drawn, signs, now) => LoginStep(s, email, password, drawn, signs, now)
    case Refresh(token, drawn, signs, now) => RefreshStep(s, token, drawn, signs, now)
    case Logout(token) => Outcome(s.(rows := RevokeHash(s.rows, Sha256(token))), Done)
    case SetActive(user, active) =>
      if user < |s.accounts| then
        Outcome(s.(accounts := s.accounts[user := s.accounts[user].(active := active)]), Done)
      else Outcome(s, Done)
  }

  function Run(s: Store, es: seq<Event>): Store {
    if es == [] then s else Step(Run(s, es[..|es| - 1]), es[|es| - 1]).store
  }

  /** What the k-th event of a run answers. */
  function AnswerAt(s: Store, es: seq<Event>, k: nat): Answer
    requires k < |es|
  {
    Step(Run(s, es[..k]), es[k]).answer
  }

  // ----- The handlers -----

  class SessionStore {
    const ttl: int
    var accounts: seq<Account>
    var rows: seq<TokenRow>
    ghost var parents: seq<Option<nat>>

    constructor (ttl: int)
      ensures Tables() == Store(ttl, [], [], [])
    {
      this.ttl, accounts, rows, parents := ttl, [], [], [];
    }

    ghost function Tables(): Store
      reads this
    {
      Store(ttl, accounts, rows, parents)
    }

    method StoreToken(user: nat, token: string, now: int, ghost parent: Option<nat>)
      modifies this`rows, this`parents
      ensures Tables() == InsertRow(old(Tables()), user, token, now, parent)
    {
      if !Taken(rows, Sha256(token)) {
        rows := rows + [TokenRow(user, Sha256(token), now + ttl, false)];
        parents := parents + [parent];
      }
    }

    method LogIn(email: string, password: string, drawn: string, signs: bool, now: int) returns (answer: Answer)
      modifies this`rows, this`parents
      ensures Outcome(Tables(), answer) == Step(old(Tables()), Login(email, password, drawn, signs, now))
    {
      var found := FindByEmail(accounts, email);
      if found.None? { return Refused(InvalidCredentials); }
      var account := accounts[found.value];
      if !account.active { return Refused(AccountDisabled); }
      if account.password.Unreadable? { return Refused(InternalError); }
      if account.password.password != password { return Refused(InvalidCredentials); }
      if !signs { return Refused(InternalError); }
      StoreToken(found.value, drawn, now, None);
      return Issued(found.value, drawn);
    }

    method RefreshTokens(token: string, drawn: string, signs: bool, now: int) returns (answer: Answer)
      modifies this`rows, this`parents
      ensures Outcome(Tables(), answer) == Step(old(Tables()), Refresh(token, drawn, signs, now))
    {
      var found := FindToken(rows, Sha256(token), now);
      if found.None? { return Refused(InvalidRefreshToken); }
      var row := rows[found.value];
      if row.revoked {
        rows := RevokeUser(rows, row.user);
        return Refused(TokenRevoked);
      }
      rows := RevokeAt(rows, found.value);
      if row.user >= |accounts| || !accounts[row.user].active { return Refused(AccountDisabled); }
      if !signs { return Refused(InternalError); }
      StoreToken(row.user, drawn, now, Some(found.value));
      return Issued(row.user, drawn);
    }

    method LogOut(token: string) returns (answer: Answer)
      modifies this`rows
      ensures Outcome(Tables(), answer) == Step(old(Tables()), Logout(token))
    {
      rows := RevokeHash(rows, Sha256(token));
      return Done;
    }
  }

  // ----- What every step keeps -----

  ghost predicate HashesDiffer(rows: seq<TokenRow>) {
    forall i, j :: 0 <= i < j < |rows| ==> rows[i].hash != rows[j].hash
  }

  /** A replaced row is revoked and belongs to the same user. */
  ghost predicate ParentsRevoked(s: Store) {
    && |s.parents| == |s.rows|
    && (forall i :: 0 <= i < |s.rows| && s.parents[i].Some? ==>
          && s.parents[i].value < i && s.rows[s.parents[i].value].revoked
          && s.rows[s.parents[i].value].user == s.rows[i].user)
  }

  ghost predicate UsersExist(s: Store) {
    forall i :: 0 <= i < |s.rows| ==> s.rows[i].user < |s.accounts|
  }

  ghost predicate Inv(s: Store) {
    HashesDiffer(s.rows) && ParentsRevoked(s) && ReplacedOnce(s.parents) && UsersExist(s)
  }

  /** Rows stay where they are; only their revocation changes, and only one way. */
  ghost predicate OnlyRevokes(before: seq<TokenRow>, after: seq<TokenRow>) {
    && |before| <= |after|
    && (forall i :: 0 <= i < |before| ==>
          after[i] == before[i] || after[i] == before[i].(revoked := true))
  }

  lemma InsertKeeps(s: Store, user: nat, token: string, now: int, parent: Option<nat>)
    requires Inv(s) && user < |s.accounts|
    requires parent.Some? ==> parent.value < |s.rows| && s.rows[parent.value].revoked
    requires parent.Some? ==> s.rows[parent.value].user == user
    requires parent.Some? ==> parent !in s.parents
    ensures Inv(InsertRow(s, user, token, now, parent))
    ensures OnlyRevokes(s.rows, InsertRow(s, user, token, now, parent).rows)
  {
  }

  lemma RevokingKeeps(s: Store, rows: seq<TokenRow>)
    requires Inv(s) && OnlyRevokes(s.rows, rows) && |rows| == |s.rows|
    ensures Inv(s.(rows := rows))
  {
    forall i, j | 0 <= i < j < |rows| ensures rows[i].hash != rows[j].hash {
      assert s.rows[i].hash != s.rows[j].hash;
    }
  }

  lemma RefreshKeeps(s: Store, token: string, drawn: string, signs: bool, now: int)
    requires Inv(s)
    ensures var after := RefreshStep(s, token, drawn, signs, now).store; Inv(after) && OnlyRevokes(s.rows, after.rows)
  {
    var found := FindToken(s.rows, Sha256(token), now);
    if found.Some? {
      var row := s.rows[found.value];
      if row.revoked {
        RevokingKeeps(s, RevokeUser(s.rows, row.user));
      } else {
        var rotated := s.(rows := RevokeAt(s.rows, found.value));
        RevokingKeeps(s, rotated.rows);
        InsertKeeps(rotated, row.user, drawn, now, found);
      }
    }
  }

  lemma StepKeeps(s: Store, e: Event)
    requires Inv(s)
    ensures Inv(Step(s, e).store) && OnlyRevokes(s.rows, Step(s, e).store.rows)
  {
    match e
    case SignUp(account, drawn, now) =>
      InsertKeeps(s.(accounts := s.accounts + [account]), |s.accounts|, drawn, now, None);
    case Login(email, password, drawn, signs, now) =>
      var found := FindByEmail(s.accounts, email);
      if found.Some? {
        InsertKeeps(s, found.value, drawn, now, None);
      }
    case Refresh(token, drawn, signs, now) =>
      RefreshKeeps(s, token, drawn, signs, now);
    case Logout(token) =>
      RevokingKeeps(s, RevokeHash(s.rows, Sha256(token)));
    case SetActive(user, active) =>
  }

  lemma {:induction false} RunKeeps(s: Store, es: seq<Event>)
    requires Inv(s)
    ensures Inv(Run(s, es)) && OnlyRevokes(s.rows, Run(s, es).rows)
  {
    if es != [] {
      RunKeeps(s, es[..|es| - 1]);
      StepKeeps(Run(s, es[..|es| - 1]), es[|es| - 1]);
    }
  }

  // ----- Lineages -----

  /** In every run each login starts a lineage that is a path of tokens of one user, at most one of them
      unrevoked. */
  lemma SessionLineages(ttl: int, es: seq<Event>, i: nat, j: nat)
    requires var s := Run(Store(ttl, [], [], []), es); i < |s.rows| && j < |s.rows|
    ensures var s := Run(Store(ttl, [], [], []), es);
            && |s.parents| == |s.rows| && Grown(s.parents)
            && (Root(s.parents, i) == Root(s.parents, j) ==>
                  && (LeadsTo(s.parents, i, j) || LeadsTo(s.parents, j, i))
                  && s.rows[i].user == s.rows[j].user
                  && (!s.rows[i].revoked && !s.rows[j].revoked ==> i == j))
  {
    var s := Run(Store(ttl, [], [], []), es);
    RunKeeps(Store(ttl, [], [], []), es);
    if Root(s.parents, i) == Root(s.parents, j) {
      if Age(s.parents, i) <= Age(s.parents, j) {
        LineageIsPath(s.parents, i, j);
      } else {
        LineageIsPath(s.parents, j, i);
      }
      SameUser(s, i);
      SameUser(s, j);
      var retired := seq(|s.rows|, k requires 0 <= k < |s.rows| => s.rows[k].revoked);
      if !retired[i] && !retired[j] {
        OneUnretired(s.parents, retired, i, j);
      }
    }
  }

  lemma {:induction false} SameUser(s: Store, i: nat)
    requires Inv(s) && i < |s.rows|
    ensures s.rows[Root(s.parents, i)].user == s.rows[i].user
    decreases i
  {
    if s.parents[i].Some? {
      SameUser(s, s.parents[i].value);
    }
  }

  // ----- Reuse detection -----

  /** The user holds no token a refresh would honour. */
  ghost predicate ShutOut(s: Store, user: nat) {
    forall i :: 0 <= i < |s.rows| && s.rows[i].user == user ==> s.rows[i].revoked
  }

  /** A refresh issues exactly when an unexpired, unrevoked row holds the token, its user is active and
      signing works; and a revoked one costs its user every session. */
  lemma RefreshIff(s: Store, token: string, drawn: string, signs: bool, now: int)
    requires Inv(s)
    ensures var r := Step(s, Refresh(token, drawn, signs, now));
            && (r.answer.Issued? <==> signs && exists i :: 0 <= i < |s.rows| && Holds(s.rows[i], Sha256(token), now)
                                                          && !s.rows[i].revoked && IsActive(s, s.rows[i].user))
            && (r.answer == Refused(TokenRevoked) <==>
                exists i :: 0 <= i < |s.rows| && Holds(s.rows[i], Sha256(token), now) && s.rows[i].revoked)
            && (forall i :: 0 <= i < |s.rows| && Holds(s.rows[i], Sha256(token), now) ==>
                  r.store.rows[i].revoked && (s.rows[i].revoked ==> ShutOut(r.store, s.rows[i].user)))
  {
    var found := FindToken(s.rows, Sha256(token), now);
    forall i, j | 0 <= i < |s.rows| && 0 <= j < |s.rows| && Holds(s.rows[i], Sha256(token), now)
                  && Holds(s.rows[j], Sha256(token), now)
      ensures i == j
    {
    }
  }

  /** What a login does: exactly one new row, unrevoked and starting a lineage, or nothing at all. */
  lemma LoginIff(s: Store, email: string, password: string, drawn: string, signs: bool, now: int)
    requires |s.parents| == |s.rows|
    ensures var r := Step(s, Login(email, password, drawn, signs, now));
            && (r.answer.Issued? <==>
                  signs && exists u :: 0 <= u < |s.accounts| && FirstWith(s.accounts, email, u)
                                       && s.accounts[u].active && s.accounts[u].password == Argon2(password))
            && (r.answer.Issued? ==> FirstWith(s.accounts, email, r.answer.user) && r.answer.token == drawn)
            && (!r.answer.Issued? || Taken(s.rows, Sha256(drawn)) ==> r.store == s)
            && (r.answer.Issued? && !Taken(s.rows, Sha256(drawn)) ==>
                  && r.store.rows == s.rows + [TokenRow(r.answer.user, Sha256(drawn), now + s.ttl, false)]
                  && r.store.parents == s.parents + [None])
  {
    FindsFirst(s.accounts, email);
  }

  ghost predicate FirstWith(accounts: seq<Account>, email: string, u: nat) {
    u < |accounts| && accounts[u].email == email && forall i :: 0 <= i < u ==> accounts[i].email != email
  }

  lemma {:induction false} FindsFirst(accounts: seq<Account>, email: string)
    ensures FindByEmail(accounts, email).Some? ==> FirstWith(accounts, email, FindByEmail(accounts, email).value)
  {
    if accounts != [] {
      FindsFirst(accounts[..|accounts| - 1], email);
    }
  }

  /** What a refresh of an unexpired, unrevoked row does: that row is revoked, and exactly when the user is active
      and signing works the new token is answered and stored, after it in its lineage, for the full time. */
  lemma RefreshEffect(s: Store, token: string, drawn: string, signs: bool, now: int, i: nat)
    requires Inv(s) && i < |s.rows| && Holds(s.rows[i], Sha256(token), now) && !s.rows[i].revoked
    ensures var r, user := Step(s, Refresh(token, drawn, signs, now)), s.rows[i].user;
            var rotated := s.rows[i := s.rows[i].(revoked := true)];
            && r.store.accounts == s.accounts && r.store.ttl == s.ttl
            && (!IsActive(s, user) ==> r.answer == Refused(AccountDisabled))
            && (IsActive(s, user) && !signs ==> r.answer == Refused(InternalError))
            && (IsActive(s, user) && signs ==> r.answer == Issued(user, drawn))
            && (if r.answer.Issued? && !Taken(s.rows, Sha256(drawn)) then
                  && r.store.rows == rotated + [TokenRow(user, Sha256(drawn), now + s.ttl, false)]
                  && r.store.parents == s.parents + [Some(i)]
                else r.store.rows == rotated && r.store.parents == s.parents)
  {
    OnlyHolder(s, token, now, i);
    SameTaken(s.rows, i, Sha256(drawn));
  }

  lemma OnlyHolder(s: Store, token: string, now: int, i: nat)
    requires HashesDiffer(s.rows) && i < |s.rows| && Holds(s.rows[i], Sha256(token), now)
    ensures FindToken(s.rows, Sha256(token), now) == Some(i)
  {
  }

  lemma SameTaken(rows: seq<TokenRow>, i: nat, hash: Digest)
    requires i < |rows|
    ensures Taken(RevokeAt(rows, i), hash) <==> Taken(rows, hash)
  {
    forall j | 0 <= j < |rows| ensures RevokeAt(rows, i)[j].hash == rows[j].hash {
    }
  }

  /** A token that is unknown or expired changes nothing. */
  lemma UnknownTouchesNothing(s: Store, token: string, drawn: string, signs: bool, now: int)
    requires forall i :: 0 <= i < |s.rows| ==> !Holds(s.rows[i], Sha256(token), now)
    ensures Step(s, Refresh(token, drawn, signs, now)) == Outcome(s, Refused(InvalidRefreshToken))
  {
  }

  /** A token just stored refreshes until it expires, while its user is active and signing works. */
  lemma StoredTokenRefreshes(s: Store, user: nat, token: string, now: int, drawn: string, later: int)
    requires Inv(s) && TokenRow(user, Sha256(token), now + s.ttl, false) in s.rows && IsActive(s, user)
    ensures Step(s, Refresh(token, drawn, true, later)).answer == Issued(user, drawn) <==> later < now + s.ttl
  {
    var i :| 0 <= i < |s.rows| && s.rows[i] == TokenRow(user, Sha256(token), now + s.ttl, false);
    if later < now + s.ttl {
      RefreshEffect(s, token, drawn, true, later, i);
    } else {
      forall j | 0 <= j < |s.rows| ensures !Holds(s.rows[j], Sha256(token), later) {
        assert j == i || s.rows[j].hash != s.rows[i].hash;
      }
      UnknownTouchesNothing(s, token, drawn, true, later);
    }
  }

  /** What a refresh hands out is good for the next one, for as long as it is meant to be. */
  lemma RefreshedTokenRefreshes(s: Store, token: string, drawn: string, now: int, drawn': string, later: int)
    requires Inv(s) && !Taken(s.rows, Sha256(drawn))
    requires Step(s, Refresh(token, drawn, true, now)).answer.Issued?
    ensures var r := Step(s, Refresh(token, drawn, true, now));
            Step(r.store, Refresh(drawn, drawn', true, later)).answer == Issued(r.answer.user, drawn')
            <==> later < now + s.ttl
  {
    var r := Step(s, Refresh(token, drawn, true, now));
    RefreshIff(s, token, drawn, true, now);
    var i := FindToken(s.rows, Sha256(token), now).value;
    RefreshEffect(s, token, drawn, true, now, i);
    StepKeeps(s, Refresh(token, drawn, true, now));
    assert r.store.rows[|s.rows|] == TokenRow(r.answer.user, Sha256(drawn), now + r.store.ttl, false);
    StoredTokenRefreshes(r.store, r.answer.user, drawn, now, drawn', later);
  }

  /** And so is what a login hands out. */
  lemma LoginTokenRefreshes(s: Store, email: string, password: string, drawn: string, now: int,
                            drawn': string, later: int)
    requires Inv(s) && !Taken(s.rows, Sha256(drawn))
    requires Step(s, Login(email, password, drawn, true, now)).answer.Issued?
    ensures var r := Step(s, Login(email, password, drawn, true, now));
            Step(r.store, Refresh(drawn, drawn', true, later)).answer == Issued(r.answer.user, drawn')
            <==> later < now + s.ttl
  {
    var r := Step(s, Login(email, password, drawn, true, now));
    LoginIff(s, email, password, drawn, true, now);
    StepKeeps(s, Login(email, password, drawn, true, now));
    assert r.store.rows[|s.rows|] == TokenRow(r.answer.user, Sha256(drawn), now + r.store.ttl, false);
    StoredTokenRefreshes(r.store, r.answer.user, drawn, now, drawn', later);
  }

  /** Reuse revokes the user's rows and nothing else; logging out, the presented token's row and nothing else. */
  lemma RevocationsExact(s: Store, token: string, drawn: string, signs: bool, now: int, i: nat)
    requires Inv(s) && i < |s.rows|
    ensures var after := Step(s, Logout(token)).store;
            && |after.rows| == |s.rows| && after.parents == s.parents && after.accounts == s.accounts
            && after.rows[i] == if s.rows[i].hash == Sha256(token) then s.rows[i].(revoked := true) else s.rows[i]
    ensures var r := Step(s, Refresh(token, drawn, signs, now));
            r.answer == Refused(TokenRevoked) ==>
              && |r.store.rows| == |s.rows| && r.store.parents == s.parents && r.store.accounts == s.accounts
              && exists j :: 0 <= j < |s.rows| && Holds(s.rows[j], Sha256(token), now)
                             && r.store.rows[i] == if s.rows[i].user == s.rows[j].user
                                                   then s.rows[i].(revoked := true) else s.rows[i]
  {
    var found := FindToken(s.rows, Sha256(token), now);
    if found.Some? {
      assert Holds(s.rows[found.value], Sha256(token), now);
    }
  }

  /** Why a login is refused, in the order of its checks: a disabled account is told so before its password
      is looked at. */
  lemma LoginRefusals(s: Store, email: string, password: string, drawn: string, signs: bool, now: int, u: nat)
    requires |s.parents| == |s.rows| && FirstWith(s.accounts, email, u)
    ensures var a, answer := s.accounts[u], Step(s, Login(email, password, drawn, signs, now)).answer;
            && (answer == Refused(AccountDisabled) <==> !a.active)
            && (answer == Refused(InvalidCredentials) <==>
                  a.active && a.password.Argon2? && a.password != Argon2(password))
            && (answer == Refused(InternalError) <==>
                  a.active && (a.password.Unreadable? || (a.password == Argon2(password) && !signs)))
  {
    FindsFirst(s.accounts, email);
    var found := FindByEmail(s.accounts, email);
    assert found.Some? && FirstWith(s.accounts, email, found.value);
    assert found.value == u;
  }

  /** A refresh, even one that detects reuse, touches no row of anyone but the token's user. */
  lemma RefreshTouchesOneUser(s: Store, token: string, drawn: string, signs: bool, now: int, i: nat)
    requires Inv(s) && i < |s.rows|
    requires forall j :: 0 <= j < |s.rows| && Holds(s.rows[j], Sha256(token), now) ==> s.rows[j].user != s.rows[i].user
    ensures var after := Step(s, Refresh(token, drawn, signs, now)).store;
            i < |after.rows| && after.rows[i] == s.rows[i] && after.accounts == s.accounts
  {
  }

  predicate IssuesTo(answer: Answer, user: nat) {
    answer.Issued? && answer.user == user
  }

  /** A user who is shut out stays so, and no refresh serves them, until they log in again. */
  lemma ShutOutStep(s: Store, e: Event, user: nat)
    requires Inv(s) && ShutOut(s, user) && user < |s.accounts|
    requires e.Login? ==> !IssuesTo(Step(s, e).answer, user)
    ensures !IssuesTo(Step(s, e).answer, user)
    ensures ShutOut(Step(s, e).store, user) && user < |Step(s, e).store.accounts|
  {
  }

  ghost predicate NoLoginOf(s: Store, es: seq<Event>, user: nat) {
    forall k :: 0 <= k < |es| && es[k].Login? ==> !IssuesTo(AnswerAt(s, es, k), user)
  }

  /** No handler of the run issues the user anything. */
  ghost predicate NothingIssued(s: Store, es: seq<Event>, user: nat) {
    forall k :: 0 <= k < |es| ==> !IssuesTo(AnswerAt(s, es, k), user)
  }

  lemma AnswersOfPrefix(s: Store, es: seq<Event>, user: nat)
    requires es != []
    ensures var init := es[..|es| - 1];
            && (NoLoginOf(s, es, user) ==> NoLoginOf(s, init, user))
            && (NothingIssued(s, init, user) && !IssuesTo(Step(Run(s, init), es[|es| - 1]).answer, user) ==>
                  NothingIssued(s, es, user))
  {
    var init := es[..|es| - 1];
    forall k | 0 <= k < |init| ensures AnswerAt(s, init, k) == AnswerAt(s, es, k) {
      assert init[..k] == es[..k];
    }
  }

  lemma {:induction false} ShutOutLasts(s: Store, es: seq<Event>, user: nat)
    requires Inv(s) && ShutOut(s, user) && user < |s.accounts| && NoLoginOf(s, es, user)
    ensures ShutOut(Run(s, es), user) && user < |Run(s, es).accounts| && NothingIssued(s, es, user)
  {
    if es != [] {
      var n := |es| - 1;
      AnswersOfPrefix(s, es, user);
      ShutOutLasts(s, es[..n], user);
      RunKeeps(s, es[..n]);
      assert es[n].Login? ==> !IssuesTo(AnswerAt(s, es, n), user);
      ShutOutStep(Run(s, es[..n]), es[n], user);
    }
  }

  /** The whole promise: once an unexpired revoked token is presented, its user gets nothing from any
      handler, whatever happens elsewhere, until a login of that user succeeds. */
  lemma ReuseShutsOut(s: Store, i: nat, token: string, drawn: string, signs: bool, now: int, es: seq<Event>)
    requires Inv(s) && i < |s.rows| && s.rows[i].revoked && Holds(s.rows[i], Sha256(token), now)
    requires NoLoginOf(Step(s, Refresh(token, drawn, signs, now)).store, es, s.rows[i].user)
    ensures var after := Step(s, Refresh(token, drawn, signs, now)).store;
            ShutOut(Run(after, es), s.rows[i].user) && NothingIssued(after, es, s.rows[i].user)
  {
    ReuseIsDetected(s, i, token, drawn, signs, now);
    ShutOutLasts(Step(s, Refresh(token, drawn, signs, now)).store, es, s.rows[i].user);
  }

  lemma ReuseIsDetected(s: Store, i: nat, token: string, drawn: string, signs: bool, now: int)
    requires Inv(s) && i < |s.rows| && s.rows[i].revoked && Holds(s.rows[i], Sha256(token), now)
    ensures var after := Step(s, Refresh(token, drawn, signs, now)).store;
            Inv(after) && ShutOut(after, s.rows[i].user) && after.accounts == s.accounts
  {
    RefreshIff(s, token, drawn, signs, now);
    StepKeeps(s, Refresh(token, drawn, signs, now));
  }

  /** A refresh token works once: presented again before it expires, however much later, it is refused and
      every session of its user is revoked. */
  lemma SecondUseRevokesAll(s: Store, i: nat, token: string, drawn: string, signs: bool, now: int,
                            es: seq<Event>, drawn': string, signs': bool, later: int)
    requires Inv(s) && i < |s.rows| && Holds(s.rows[i], Sha256(token), now) && s.rows[i].expiresAt > later
    ensures var middle := Run(Step(s, Refresh(token, drawn, signs, now)).store, es);
            var second := Step(middle, Refresh(token, drawn', signs', later));
            second.answer == Refused(TokenRevoked) && ShutOut(second.store, s.rows[i].user)
  {
    var first := Step(s, Refresh(token, drawn, signs, now)).store;
    StepKeeps(s, Refresh(token, drawn, signs, now));
    RefreshIff(s, token, drawn, signs, now);
    RunKeeps(first, es);
    var middle := Run(first, es);
    assert middle.rows[i].revoked && Holds(middle.rows[i], Sha256(token), later);
    RefreshIff(middle, token, drawn', signs', later);
  }

  /** After logging out, the token never refreshes again. */
  lemma LoggedOutIsSpent(s: Store, token: string, es: seq<Event>, drawn: string, signs: bool, now: int)
    requires Inv(s) && Taken(s.rows, Sha256(token))
    ensures var after := Run(Step(s, Logout(token)).store, es);
            !Step(after, Refresh(token, drawn, signs, now)).answer.Issued?
  {
    var out := Step(s, Logout(token)).store;
    StepKeeps(s, Logout(token));
    RunKeeps(out, es);
    var after := Run(out, es);
    var i :| 0 <= i < |s.rows| && s.rows[i].hash == Sha256(token);
    assert after.rows[i].revoked && after.rows[i].hash == Sha256(token);
  }
}
