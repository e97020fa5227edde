/** The authentication context (`AuthProvider`): it captures an access token from the
    page address when it mounts, validates it against the `access_tokens` table,
    loads the referenced row of `users`, and exposes `user` and `loading` to the rest
    of the application. The browser's `localStorage` is a map of strings, the address
    bar a given optional `token` parameter, the clock a number, and the two SQL
    statements functions over the store's tables. */
module Auth {
  import opened Common

  /** The `localStorage` key under which a token found in the address is kept. */
  const TokenKey: string := "auth_token_temp"

  /** Message thrown by `useAuth` outside a provider. */
  const OutsideProviderError: string := "useAuth deve ser usado dentro de um AuthProvider"

  /** The session user as the rest of the application sees it. */
  datatype User = User(id: string, name: string, phone: string)

  /** A row of `access_tokens` as the validation query reads it. */
  datatype TokenRecord = TokenRecord(token: string, userId: nat, expiresAt: int, used: bool)

  /** A row of `users`; its `id` is numeric and is stringified for the session. */
  datatype UserRow = UserRow(id: nat, name: string, phone: string)

  /** The two tables the provider reads. Rows are listed in the store's own order. */
  datatype Store = Store(tokens: seq<TokenRecord>, users: seq<UserRow>)

  /** Where, if anywhere, a store round trip throws (network or database failure). */
  datatype Fault = NoFault | TokenQueryThrows | UserQueryThrows

  /** How one validation run ends. */
  datatype Outcome =
    | NoToken                  // no token in the address nor in storage: nothing is asked
    | Rejected                 // no unused, unexpired record carries the token
    | UserMissing              // the token is good but its user row is gone
    | Authenticated(user: User)
    | StoreError               // a query threw; the `catch` swallows it

  // ---------------------------------------------------------------------------
  // String(id): decimal rendering of the numeric user id

  function Digit(d: nat): (c: char)
    requires d < 10
    ensures '0' <= c <= '9' && c as int - '0' as int == d
  {
    ('0' as int + d) as char
  }

  /** `String(n)` for a non-negative integer: digits only, and a leading zero only in
      the string "0" itself. */
  function DecimalString(n: nat): (s: string)
    ensures |s| >= 1
    ensures forall i :: 0 <= i < |s| ==> '0' <= s[i] <= '9'
    ensures s[0] == '0' <==> n == 0
    ensures n == 0 ==> s == "0"
    decreases n
  {
    if n < 10 then [Digit(n)] else DecimalString(n / 10) + [Digit(n % 10)]
  }

  /** The number a string of decimal digits denotes. */
  function DecimalValue(s: string): nat
    requires forall i :: 0 <= i < |s| ==> '0' <= s[i] <= '9'
    decreases |s|
  {
    if s == [] then 0
    else DecimalValue(s[..|s| - 1]) * 10 + (s[|s| - 1] as int - '0' as int)
  }

  /** Stringifying an id loses nothing: distinct user ids give distinct session ids. */
  lemma {:induction false} DecimalRoundTrip(n: nat)
    ensures DecimalValue(DecimalString(n)) == n
    decreases n
  {
    var s := DecimalString(n);
    if n >= 10 {
      DecimalRoundTrip(n / 10);
      assert s[..|s| - 1] == DecimalString(n / 10);
    }
  }

  /** A string in the form `String` gives a non-negative integer: decimal digits,
      without a leading zero unless it is "0". */
  predicate Canonical(s: string) {
    && |s| >= 1
    && (forall i :: 0 <= i < |s| ==> '0' <= s[i] <= '9')
    && (s[0] == '0' ==> |s| == 1)
  }

  /** A canonical string with a non-zero first digit denotes a positive number. */
  lemma {:induction false} CanonicalPositive(s: string)
    requires |s| >= 1 && forall i :: 0 <= i < |s| ==> '0' <= s[i] <= '9'
    requires s[0] != '0'
    ensures DecimalValue(s) >= 1
    decreases |s|
  {
    if |s| > 1 {
      CanonicalPositive(s[..|s| - 1]);
    }
  }

  /** The other direction of the round trip: every canonical string is the decimal
      string of the number it denotes, so `String` maps ids one to one onto the
      canonical strings. */
  lemma {:induction false} CanonicalRoundTrip(s: string)
    requires Canonical(s)
    ensures DecimalString(DecimalValue(s)) == s
    decreases |s|
  {
    var d := s[|s| - 1] as int - '0' as int;
    if |s| > 1 {
      var init := s[..|s| - 1];
      assert init[0] == s[0] != '0';
      CanonicalPositive(init);
      CanonicalRoundTrip(init);
      var n := DecimalValue(s);
      assert n == DecimalValue(init) * 10 + d;
      assert n / 10 == DecimalValue(init) && n % 10 == d;
      assert s == init + [Digit(d)];
    }
  }

  /** The session user built from a `users` row. */
  function SessionUser(row: UserRow): (u: User)
    ensures Canonical(u.id) && DecimalValue(u.id) == row.id
    ensures u.name == row.name && u.phone == row.phone
  {
    DecimalRoundTrip(row.id);
    User(DecimalString(row.id), row.name, row.phone)
  }

  // ---------------------------------------------------------------------------
  // The two SQL statements

  /** The WHERE clause of the validation query:
      `token = t AND used = false AND expires_at > NOW()`. */
  predicate Redeemable(r: TokenRecord, t: string, now: int) {
    r.token == t && !r.used && r.expiresAt > now
  }

  function RedeemableFor(t: string, now: int): TokenRecord -> bool {
    (r: TokenRecord) => Redeemable(r, t, now)
  }

  /** `SELECT user_id FROM access_tokens WHERE ... LIMIT 1`: the user id of the first
      redeemable record, if there is one. */
  function FindToken(tokens: seq<TokenRecord>, t: string, now: int): (r: Option<nat>)
    ensures r.Some? <==> exists i :: 0 <= i < |tokens| && Redeemable(tokens[i], t, now)
    ensures r.Some? ==> exists i :: 0 <= i < |tokens| && Redeemable(tokens[i], t, now) && tokens[i].userId == r.value
                                    && forall j :: 0 <= j < i ==> !Redeemable(tokens[j], t, now)
  {
    match FirstWhere(tokens, RedeemableFor(t, now))
    case None => None
    case Some(record) => Some(record.userId)
  }

  function HasId(id: nat): UserRow -> bool {
    (row: UserRow) => row.id == id
  }

  /** `SELECT id, name, phone FROM users WHERE id = ... LIMIT 1`: the first row with
      the id, if there is one. */
  function FindUser(users: seq<UserRow>, id: nat): (r: Option<UserRow>)
    ensures r.Some? <==> exists i :: 0 <= i < |users| && users[i].id == id
    ensures r.Some? ==> exists i :: 0 <= i < |users| && users[i] == r.value && r.value.id == id
                                    && forall j :: 0 <= j < i ==> users[j].id != id
  {
    FirstWhere(users, HasId(id))
  }

  // ---------------------------------------------------------------------------
  // Specification of one mount and one validation run

  /** The `useState` initialiser: a truthy `token` query parameter is captured,
      anything else yields null. */
  function CapturedToken(query: Option<string>): (r: Option<string>)
    ensures r.Some? <==> Truthy(query)
    ensures r.Some? ==> r == query
  {
    if Truthy(query) then query else None
  }

  /** Storage after mounting: a captured token is written under `TokenKey`, and
      nothing is written otherwise. */
  function MountStorage(query: Option<string>, storage: map<string, string>): (r: map<string, string>)
    ensures Truthy(query) ==> TokenKey in r && r[TokenKey] == query.value
    ensures !Truthy(query) ==> r == storage
    ensures forall k :: k != TokenKey ==> (k in r <==> k in storage) && (k in r ==> r[k] == storage[k])
  {
    if Truthy(query) then storage[TokenKey := query.value] else storage
  }

  /** `localStorage.getItem(TokenKey)`. */
  function StoredToken(storage: map<string, string>): (r: Option<string>)
    ensures r.Some? <==> TokenKey in storage
    ensures r.Some? ==> r.value == storage[TokenKey]
  {
    if TokenKey in storage then Some(storage[TokenKey]) else None
  }

  /** The token to validate: the one captured at mount, else the current address's,
      else the stored one, each considered only when the earlier ones are falsy. */
  function ChooseToken(initial: Option<string>, current: Option<string>, stored: Option<string>): (r: Option<string>)
    ensures Truthy(initial) ==> r == initial
    ensures !Truthy(initial) && Truthy(current) ==> r == current
    ensures !Truthy(initial) && !Truthy(current) ==> r == stored
  {
    if Truthy(initial) then initial
    else if Truthy(current) then current
    else stored
  }

  /** What a validation run does with the chosen token: "no token" exactly when it is
      falsy, "rejected" exactly when the token query answers with no row, a store error
      only when a query threw, and a login only on a fault-free run that found a
      record. */
  function Resolve(token: Option<string>, store: Store, fault: Fault, now: int): (o: Outcome)
    ensures o == NoToken <==> !Truthy(token)
    ensures o == Rejected <==>
              Truthy(token) && fault != TokenQueryThrows && FindToken(store.tokens, token.value, now).None?
    ensures o == StoreError ==> Truthy(token) && fault != NoFault
    ensures o.Authenticated? ==> Truthy(token) && fault == NoFault && FindToken(store.tokens, token.value, now).Some?
  {
    if !Truthy(token) then NoToken
    else if fault == TokenQueryThrows then StoreError
    else
      match FindToken(store.tokens, token.value, now)
      case None => Rejected
      case Some(id) =>
        if fault == UserQueryThrows then StoreError
        else
          match FindUser(store.users, id)
          case None => UserMissing
          case Some(row) =>
            assert fault.NoFault?;
            Authenticated(SessionUser(row))
  }

  /** Number of statements a validation run sends to the store. */
  function Lookups(token: Option<string>, store: Store, fault: Fault, now: int): (n: nat)
    ensures n <= 2
    ensures n == 0 <==> !Truthy(token)
    ensures n == 2 <==>
              Truthy(token) && fault != TokenQueryThrows && FindToken(store.tokens, token.value, now).Some?
  {
    if !Truthy(token) then 0
    else if fault == TokenQueryThrows || FindToken(store.tokens, token.value, now).None? then 1
    else 2
  }

  /** Storage after a validation run: `TokenKey` is removed after success and after a
      rejected token, and kept when the user row is missing, when a query threw, and
      when there was no token. Other keys are never touched. */
  function StorageAfter(o: Outcome, storage: map<string, string>): (r: map<string, string>)
    ensures TokenKey in r <==> TokenKey in storage && !o.Authenticated? && !o.Rejected?
    ensures forall k :: k in r ==> k in storage && r[k] == storage[k]
    ensures forall k :: k in storage && k != TokenKey ==> k in r
  {
    if o.Authenticated? || o.Rejected? then storage - {TokenKey} else storage
  }

  // ---------------------------------------------------------------------------
  // Properties of the specification

  /** With no token anywhere, no statement reaches the store, and only then. */
  lemma NoTokenNoLookup(token: Option<string>, store: Store, fault: Fault, now: int)
    ensures Lookups(token, store, fault, now) == 0 <==> Resolve(token, store, fault, now) == NoToken
    ensures Resolve(token, store, fault, now) == NoToken <==> !Truthy(token)
  {
  }

  /** A token captured at mount is the one validated, whatever the address and the
      storage hold later; without one, the current address is tried before storage. */
  lemma MountedTokenWins(query: Option<string>, current: Option<string>, storage: map<string, string>)
    ensures Truthy(query) ==> ChooseToken(CapturedToken(query), current, StoredToken(storage)) == query
    ensures !Truthy(query) ==> ChooseToken(CapturedToken(query), current, StoredToken(storage))
                               == if Truthy(current) then current else StoredToken(storage)
  {
  }

  /** Only an unused, unexpired record whose user row exists logs a user in, and the
      session user is that row with its id stringified. */
  lemma {:induction false} AuthenticatedOnlyIfValid(token: Option<string>, store: Store, fault: Fault, now: int, u: User)
    requires Resolve(token, store, fault, now) == Authenticated(u)
    ensures fault == NoFault && Truthy(token)
    ensures exists i, j :: 0 <= i < |store.tokens| && 0 <= j < |store.users|
              && Redeemable(store.tokens[i], token.value, now)
              && store.users[j].id == store.tokens[i].userId
              && u == SessionUser(store.users[j])
  {
    var id := FindToken(store.tokens, token.value, now).value;
    var row := FindUser(store.users, id).value;
    var i :| 0 <= i < |store.tokens| && Redeemable(store.tokens[i], token.value, now) && store.tokens[i].userId == id;
    var j :| 0 <= j < |store.users| && store.users[j] == row;
    assert u == SessionUser(store.users[j]);
  }

  /** The store's keys: a token value is stored once and a user id once. */
  ghost predicate KeyedStore(store: Store) {
    && (forall i, j :: 0 <= i < j < |store.tokens| ==> store.tokens[i].token != store.tokens[j].token)
    && (forall i, j :: 0 <= i < j < |store.users| ==> store.users[i].id != store.users[j].id)
  }

  /** Conversely, in a keyed store a redeemable token whose user row exists always logs
      that user in when the store does not fail. */
  lemma {:induction false} ValidTokenAuthenticates(t: string, store: Store, now: int, i: nat, j: nat)
    requires KeyedStore(store)
    requires t != ""
    requires i < |store.tokens| && j < |store.users|
    requires Redeemable(store.tokens[i], t, now) && store.users[j].id == store.tokens[i].userId
    ensures Resolve(Some(t), store, NoFault, now) == Authenticated(SessionUser(store.users[j]))
  {
    var id := FindToken(store.tokens, t, now).value;
    var i' :| 0 <= i' < |store.tokens| && Redeemable(store.tokens[i'], t, now) && store.tokens[i'].userId == id;
    assert i' == i;
    var row := FindUser(store.users, id).value;
    var j' :| 0 <= j' < |store.users| && store.users[j'] == row;
    assert j' == j;
  }

  /** A token that is absent, used or expired is rejected unless the store fails first,
      and never authenticates. */
  lemma UnusableTokenRejected(t: string, store: Store, fault: Fault, now: int)
    requires t != ""
    requires forall i :: 0 <= i < |store.tokens| && store.tokens[i].token == t ==>
               store.tokens[i].used || store.tokens[i].expiresAt <= now
    ensures Resolve(Some(t), store, fault, now) == if fault == TokenQueryThrows then StoreError else Rejected
  {
    assert FindToken(store.tokens, t, now).None?;
  }

  /** A redeemable token whose user row is missing logs nobody in and, unlike a
      rejected token, leaves the stored token in place. */
  lemma {:induction false} MissingUserKeepsToken(t: string, store: Store, now: int, i: nat, storage: map<string, string>)
    requires t != ""
    requires i < |store.tokens| && Redeemable(store.tokens[i], t, now)
    requires forall k, j :: 0 <= k < |store.tokens| && 0 <= j < |store.users| && Redeemable(store.tokens[k], t, now) ==>
               store.users[j].id != store.tokens[k].userId
    ensures Resolve(Some(t), store, NoFault, now) == UserMissing
    ensures StorageAfter(UserMissing, storage) == storage
  {
    var id := FindToken(store.tokens, t, now).value;
    var k :| 0 <= k < |store.tokens| && Redeemable(store.tokens[k], t, now) && store.tokens[k].userId == id;
    assert FindUser(store.users, id).None?;
  }

  /** A fresh record for "abc123" that points at user 42 logs in user "42". */
  lemma ExampleSession()
    ensures var store := Store([TokenRecord("abc123", 42, 1000 + 3600, false)], [UserRow(42, "Ana", "+5511")]);
            Resolve(Some("abc123"), store, NoFault, 1000) == Authenticated(User("42", "Ana", "+5511"))
  {
    assert DecimalString(4) == ['4'];
    assert DecimalString(42) == DecimalString(4) + [Digit(2)] == "42";
    assert FindToken([TokenRecord("abc123", 42, 1000 + 3600, false)], "abc123", 1000) == Some(42);
    assert FindUser([UserRow(42, "Ana", "+5511")], 42) == Some(UserRow(42, "Ana", "+5511"));
  }

  /** Nothing marks a record used after a login, so in a keyed store a token that
      logged a user in logs the same user in again on any later run before the
      record expires. */
  lemma {:induction false} TokenReusableUntilExpiry(t: string, store: Store, now: int, later: int, i: nat, u: User)
    requires KeyedStore(store)
    requires Resolve(Some(t), store, NoFault, now) == Authenticated(u)
    requires i < |store.tokens| && store.tokens[i].token == t
    requires now <= later < store.tokens[i].expiresAt
    ensures Resolve(Some(t), store, NoFault, later) == Authenticated(u)
  {
    AuthenticatedOnlyIfValid(Some(t), store, NoFault, now, u);
    var i', j :| 0 <= i' < |store.tokens| && 0 <= j < |store.users|
                && Redeemable(store.tokens[i'], t, now)
                && store.users[j].id == store.tokens[i'].userId
                && u == SessionUser(store.users[j]);
    assert i' == i;
    ValidTokenAuthenticates(t, store, later, i, j);
  }

  // ---------------------------------------------------------------------------
  // The provider

  /** The value the context hands to consumers (`signIn`/`signOut` aside). */
  datatype AuthContextValue = AuthContextValue(user: Option<User>, loading: bool)

  class AuthProvider {
    var user: Option<User>
    var loading: bool
    /** The browser's `localStorage`. */
    var storage: map<string, string>
    /** The token captured by the `useState` initialiser at mount. */
    const initialToken: Option<string>

    /** Mounting: `user = null`, `loading = true`, and a truthy `token` in the query
        string is captured and written to storage. */
    constructor (query: Option<string>, storedAtMount: map<string, string>)
      ensures user == None && loading
      ensures initialToken == CapturedToken(query)
      ensures storage == MountStorage(query, storedAtMount)
    {
      user := None;
      loading := true;
      if Truthy(query) {
        storage := storedAtMount[TokenKey := query.value];
        initialToken := query;
      } else {
        storage := storedAtMount;
        initialToken := None;
      }
    }

    /** `validarAcesso`: choose a token, look it up, load its user and update `user`
        and storage by the outcome; `loading` ends false on every path. `lookups` is
        the number of statements sent to the store. */
    method ValidateAccess(currentQuery: Option<string>, store: Store, fault: Fault, now: int)
      returns (lookups: nat)
      modifies this
      ensures !loading
      ensures var token := ChooseToken(initialToken, currentQuery, StoredToken(old(storage)));
              var o := Resolve(token, store, fault, now);
              && user == (if o.Authenticated? then Some(o.user) else old(user))
              && storage == StorageAfter(o, old(storage))
              && lookups == Lookups(token, store, fault, now)
    {
      loading := true;
      lookups := 0;
      var candidate := initialToken;
      if !Truthy(candidate) {
        candidate := currentQuery;
      }
      if !Truthy(candidate) {
        candidate := if TokenKey in storage then Some(storage[TokenKey]) else None;
      }
      if Truthy(candidate) {
        lookups := 1;
        if fault != TokenQueryThrows {
          var found := FindToken(store.tokens, candidate.value, now);
          if found.Some? {
            lookups := 2;
            if fault != UserQueryThrows {
              var row := FindUser(store.users, found.value);
              if row.Some? {
                user := Some(SessionUser(row.value));
                storage := storage - {TokenKey};
              }
            }
          } else {
            storage := storage - {TokenKey};
          }
        }
      }
      loading := false;
    }

    /** `signIn` is a placeholder that changes nothing. */
    method SignIn()
      ensures unchanged(this)
    {
    }

    /** `signOut` forgets the user and the stored token; `loading` is left alone. */
    method SignOut()
      modifies this
      ensures user == None && loading == old(loading)
      ensures storage == old(storage) - {TokenKey}
    {
      user := None;
      storage := storage - {TokenKey};
    }
  }

  /** `useAuth`: the enclosing provider's value, or the error thrown when there is none. */
  function UseAuth(context: Option<AuthContextValue>): (r: Result<AuthContextValue, string>)
    ensures r.Failure? <==> context.None?
    ensures r.Success? ==> r.value == context.value
    ensures r.Failure? ==> r.error == OutsideProviderError
  {
    match context
    case None => Failure(OutsideProviderError)
    case Some(c) => Success(c)
  }
}
