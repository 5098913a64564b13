/** The authorization code flow of the control plane (src/remote/oauth-handler.ts), section 4.1 of
    RFC 6749 with the code challenge of RFC 7636.

    Transaction ids, codes and client ids are drawn fresh. A code is named by its stored hash. What
    URL and scope parsing decide about a request is part of the request. */
module OAuth {
  import opened Options

  type ClientId = nat
  type Uri = nat
  type UserId = nat
  type Scope = nat
  type Challenge = nat
  type Verifier = nat
  type TransactionId = nat
  type CallbackId = nat
  type Code = nat

  datatype Request = Request(
    clientId: ClientId,
    redirectUri: Uri,
    challenge: Option<Challenge>,   // the challenge, when present with method S256
    scope: Scope,
    wellFormed: bool,               // response type, resource and scope are acceptable
    safeUri: bool,
    chatGptUri: bool,
    restorableId: bool)

  /** PendingAuthorize. */
  datatype Pending = Pending(
    clientId: ClientId, redirectUri: Uri, challenge: Challenge, scope: Scope, expiresAt: int, approved: bool)

  /** A row of oauth_authorization_codes. */
  datatype CodeRow = CodeRow(
    clientId: ClientId, userId: UserId, redirectUri: Uri, challenge: Challenge, scope: Scope,
    expiresAt: int, used: bool)

  datatype Server = Server(
    clients: map<ClientId, set<Uri>>,
    transactions: map<TransactionId, Pending>,
    codes: map<Code, CodeRow>,
    ttlMs: int)

  // ---------------------------------------------------------------------------------------------
  // Handlers, one function per stretch between awaits
  // ---------------------------------------------------------------------------------------------

  /** ChatGPT clients are restored, and their redirect URIs added, on the way. */
  function ClientsFor(clients: map<ClientId, set<Uri>>, r: Request): map<ClientId, set<Uri>> {
    if r.clientId !in clients then
      if r.restorableId && r.safeUri && r.chatGptUri then clients[r.clientId := {r.redirectUri}] else clients
    else if r.redirectUri !in clients[r.clientId] && r.safeUri && r.chatGptUri then
      clients[r.clientId := clients[r.clientId] + {r.redirectUri}]
    else clients
  }

  predicate Registered(clients: map<ClientId, set<Uri>>, c: ClientId, u: Uri) {
    c in clients && u in clients[c]
  }

  predicate Acceptable(s: Server, r: Request) {
    && Registered(ClientsFor(s.clients, r), r.clientId, r.redirectUri)
    && r.safeUri && r.wellFormed && r.challenge.Some?
  }

  function NewPending(s: Server, r: Request, now: int): Pending
    requires r.challenge.Some?
  {
    Pending(r.clientId, r.redirectUri, r.challenge.value, r.scope, now + s.ttlMs, false)
  }

  function Authorized(s: Server, tx: TransactionId, r: Request, configured: bool, now: int): Server {
    var clients := ClientsFor(s.clients, r);
    if !Acceptable(s, r) || !configured then s.(clients := clients)
    else s.(clients := clients, transactions := s.transactions[tx := NewPending(s, r, now)])
  }

  predicate MayApprove(s: Server, tx: TransactionId, cookie: Option<TransactionId>, configured: bool, now: int) {
    tx in s.transactions && now <= s.transactions[tx].expiresAt && cookie == Some(tx) && configured
  }

  function Approved(s: Server, tx: TransactionId, cookie: Option<TransactionId>, configured: bool, now: int): Server {
    if !MayApprove(s, tx, cookie, configured, now) then s
    else s.(transactions := s.transactions[tx := s.transactions[tx].(approved := true)])
  }

  predicate CallbackAccepted(s: Server, tx: TransactionId, hasCode: bool, cookie: Option<TransactionId>, now: int) {
    && hasCode && tx in s.transactions && s.transactions[tx].approved
    && now <= s.transactions[tx].expiresAt && cookie == Some(tx)
  }

  /** The transaction is gone whether or not the callback is accepted. */
  function Consumed(s: Server, tx: TransactionId): Server {
    s.(transactions := s.transactions - {tx})
  }

  function NewRow(s: Server, p: Pending, user: UserId, now: int): CodeRow {
    CodeRow(p.clientId, user, p.redirectUri, p.challenge, p.scope, now + s.ttlMs, false)
  }

  function CodeIssued(s: Server, code: Code, p: Pending, user: UserId, now: int): Server {
    s.(codes := s.codes[code := NewRow(s, p, user, now)])
  }

  datatype TokenRequest = TokenRequest(
    clientId: ClientId, code: Code, redirectUri: Uri, verifier: Option<Verifier>, userExists: bool)

  predicate MayExchange(s: Server, r: TokenRequest, challengeOf: Verifier -> Challenge, now: int) {
    && r.clientId in s.clients && r.code in s.codes
    && var row := s.codes[r.code];
       && row.clientId == r.clientId && row.redirectUri == r.redirectUri
       && !row.used && now <= row.expiresAt
       && r.verifier.Some? && challengeOf(r.verifier.value) == row.challenge
       && r.userExists
  }

  function Exchanged(s: Server, code: Code): Server
    requires code in s.codes
  {
    s.(codes := s.codes[code := s.codes[code].(used := true)])
  }

  function CleanedUp(s: Server, now: int): Server {
    s.(transactions := map tx | tx in s.transactions && now < s.transactions[tx].expiresAt :: s.transactions[tx])
  }

  function CodesPruned(s: Server, now: int): Server {
    s.(codes := map c | c in s.codes && now < s.codes[c].expiresAt :: s.codes[c])
  }

  // ---------------------------------------------------------------------------------------------
  // Runs
  // ---------------------------------------------------------------------------------------------

  /** A callback that consumed its transaction and waits for the identity provider. */
  datatype Callback = Callback(tx: TransactionId, pending: Pending)

  datatype Token = Token(clientId: ClientId, redirectUri: Uri, userId: UserId, scope: Scope, verifier: Verifier, at: int)

  datatype Origin = Origin(tx: TransactionId, user: UserId, at: int)

  datatype History = History(
    requested: map<TransactionId, Pending>,       // every transaction, as it was created
    approved: set<TransactionId>,                 // those the browser approved
    codesOf: map<TransactionId, seq<Code>>,       // the codes each transaction yielded
    origins: map<Code, Origin>,                   // where each code came from
    tokensOf: map<Code, seq<Token>>)              // the tokens each code yielded

  datatype State = State(server: Server, callbacks: map<CallbackId, Callback>, h: History)

  function Init(ttlMs: int): State {
    State(Server(map[], map[], map[], ttlMs), map[], History(map[], {}, map[], map[], map[]))
  }

  datatype Step =
    | Register(client: ClientId, uris: set<Uri>)
    | Authorize(tx: TransactionId, request: Request, configured: bool)
    | Approve(tx: TransactionId, cookie: Option<TransactionId>, configured: bool)
    | Return(callback: CallbackId, tx: TransactionId, hasCode: bool, cookie: Option<TransactionId>)
    | Identified(callback: CallbackId, user: Option<UserId>, code: Code)
    | Exchange(form: TokenRequest)
    | Cleanup
    | Prune

  datatype Event = Event(now: int, step: Step)

  function RegisterStep(s: State, client: ClientId, uris: set<Uri>): State {
    if client in s.server.clients then s
    else s.(server := s.server.(clients := s.server.clients[client := uris]))
  }

  function AuthorizeStep(s: State, tx: TransactionId, r: Request, configured: bool, now: int): State {
    if tx in s.h.requested then s
    else if !Acceptable(s.server, r) || !configured then s.(server := Authorized(s.server, tx, r, configured, now))
    else s.(server := Authorized(s.server, tx, r, configured, now),
            h := s.h.(requested := s.h.requested[tx := NewPending(s.server, r, now)],
                      codesOf := s.h.codesOf[tx := []]))
  }

  function ApproveStep(s: State, tx: TransactionId, cookie: Option<TransactionId>, configured: bool, now: int): State {
    if !MayApprove(s.server, tx, cookie, configured, now) then s
    else s.(server := Approved(s.server, tx, cookie, configured, now), h := s.h.(approved := s.h.approved + {tx}))
  }

  function ReturnStep(s: State, cb: CallbackId, tx: TransactionId, hasCode: bool, cookie: Option<TransactionId>, now: int): State {
    if cb in s.callbacks then s
    else
      State(Consumed(s.server, tx),
            if CallbackAccepted(s.server, tx, hasCode, cookie, now)
            then s.callbacks[cb := Callback(tx, s.server.transactions[tx])] else s.callbacks,
            s.h)
  }

  function CodesOf(s: State, tx: TransactionId): seq<Code> { if tx in s.h.codesOf then s.h.codesOf[tx] else [] }

  function TokensOf(s: State, code: Code): seq<Token> { if code in s.h.tokensOf then s.h.tokensOf[code] else [] }

  /** The provider answered, or failed to, or named a user who is not allowed. */
  function IdentifiedStep(s: State, cb: CallbackId, user: Option<UserId>, code: Code, now: int): State {
    if cb !in s.callbacks || code in s.h.origins then s
    else if user.None? then s.(callbacks := s.callbacks - {cb})
    else
      var c := s.callbacks[cb];
      State(CodeIssued(s.server, code, c.pending, user.value, now),
            s.callbacks - {cb},
            s.h.(codesOf := s.h.codesOf[c.tx := CodesOf(s, c.tx) + [code]],
                 origins := s.h.origins[code := Origin(c.tx, user.value, now)],
                 tokensOf := s.h.tokensOf[code := []]))
  }

  function ExchangeStep(s: State, r: TokenRequest, challengeOf: Verifier -> Challenge, now: int): State {
    if !MayExchange(s.server, r, challengeOf, now) then s
    else
      var row := s.server.codes[r.code];
      var token := Token(r.clientId, r.redirectUri, row.userId, row.scope, r.verifier.value, now);
      s.(server := Exchanged(s.server, r.code),
         h := s.h.(tokensOf := s.h.tokensOf[r.code := TokensOf(s, r.code) + [token]]))
  }

  function Apply(s: State, e: Event, challengeOf: Verifier -> Challenge): State {
    match e.step
    case Register(c, uris) => RegisterStep(s, c, uris)
    case Authorize(tx, r, configured) => AuthorizeStep(s, tx, r, configured, e.now)
    case Approve(tx, cookie, configured) => ApproveStep(s, tx, cookie, configured, e.now)
    case Return(cb, tx, hasCode, cookie) => ReturnStep(s, cb, tx, hasCode, cookie, e.now)
    case Identified(cb, user, code) => IdentifiedStep(s, cb, user, code, e.now)
    case Exchange(r) => ExchangeStep(s, r, challengeOf, e.now)
    case Cleanup => s.(server := CleanedUp(s.server, e.now))
    case Prune => s.(server := CodesPruned(s.server, e.now))
  }

  function Run(s: State, es: seq<Event>, challengeOf: Verifier -> Challenge): State {
    if es == [] then s else Apply(Run(s, es[..|es| - 1], challengeOf), es[|es| - 1], challengeOf)
  }

  // ---------------------------------------------------------------------------------------------
  // The invariant: one code per transaction, one token per code
  // ---------------------------------------------------------------------------------------------

  /** `p` is the transaction as requested, perhaps approved since. */
  ghost predicate FromRequest(s: State, tx: TransactionId, p: Pending) {
    && tx in s.h.requested && s.h.requested[tx].(approved := p.approved) == p
    && (p.approved ==> tx in s.h.approved)
  }

  /** A transaction has yielded at most one code, none while it is open; its client still has its
      redirect URI. */
  ghost predicate TransactionInv(s: State, tx: TransactionId) {
    && |CodesOf(s, tx)| <= 1
    && (tx in s.server.transactions ==> FromRequest(s, tx, s.server.transactions[tx]) && CodesOf(s, tx) == [])
    && (tx in s.h.approved ==> tx in s.h.requested)
    && (tx in s.h.codesOf ==> tx in s.h.requested)
    && (tx in s.h.requested ==>
          Registered(s.server.clients, s.h.requested[tx].clientId, s.h.requested[tx].redirectUri))
  }

  /** A callback holds an approved transaction that is closed and has yielded nothing. */
  ghost predicate CallbackInv(s: State, cb: CallbackId) {
    cb in s.callbacks ==>
      && FromRequest(s, s.callbacks[cb].tx, s.callbacks[cb].pending) && s.callbacks[cb].pending.approved
      && s.callbacks[cb].tx !in s.server.transactions
      && CodesOf(s, s.callbacks[cb].tx) == []
  }

  ghost predicate OneCallbackEach(s: State) {
    forall a, b :: a in s.callbacks && b in s.callbacks && s.callbacks[a].tx == s.callbacks[b].tx ==> a == b
  }

  /** The code was issued to one approved transaction, as its only code. */
  ghost predicate HasOrigin(s: State, c: Code) {
    && c in s.h.origins
    && s.h.origins[c].tx in s.h.approved && s.h.origins[c].tx in s.h.requested
    && CodesOf(s, s.h.origins[c].tx) == [c]
  }

  /** The row is what the transaction asked for, with the user the provider named. */
  ghost predicate RowFrom(s: State, c: Code, row: CodeRow)
    requires HasOrigin(s, c)
  {
    var o := s.h.origins[c];
    var p := s.h.requested[o.tx];
    row.(used := false) == CodeRow(p.clientId, o.user, p.redirectUri, p.challenge, p.scope, o.at + s.server.ttlMs, false)
  }

  /** Client, redirect URI, user and scope of a token are those of the one approved transaction its
      code came from, whose challenge is the hash of the verifier; and the code had not expired. */
  ghost predicate Traces(s: State, c: Code, t: Token, challengeOf: Verifier -> Challenge) {
    && HasOrigin(s, c)
    && var o := s.h.origins[c];
       var p := s.h.requested[o.tx];
       && t == Token(p.clientId, p.redirectUri, o.user, p.scope, t.verifier, t.at)
       && challengeOf(t.verifier) == p.challenge
       && t.at <= o.at + s.server.ttlMs
  }

  ghost predicate CodeInv(s: State, c: Code, challengeOf: Verifier -> Challenge) {
    && (c in s.h.origins ==> HasOrigin(s, c))
    && |TokensOf(s, c)| <= 1
    && (TokensOf(s, c) != [] ==> Traces(s, c, TokensOf(s, c)[0], challengeOf))
    && (c in s.server.codes ==>
          && HasOrigin(s, c) && RowFrom(s, c, s.server.codes[c])
          && (!s.server.codes[c].used ==> TokensOf(s, c) == []))
  }

  ghost predicate Inv(s: State, challengeOf: Verifier -> Challenge) {
    && (forall tx :: TransactionInv(s, tx))
    && (forall cb :: CallbackInv(s, cb))
    && OneCallbackEach(s)
    && (forall c :: CodeInv(s, c, challengeOf))
  }

  // ---------------------------------------------------------------------------------------------
  // Every step keeps it
  // ---------------------------------------------------------------------------------------------

  /** What the history says about a transaction is still said. */
  ghost predicate StillSaid(s: State, t: State, tx: TransactionId) {
    && CodesOf(t, tx) == CodesOf(s, tx)
    && (tx in s.h.requested ==> tx in t.h.requested && t.h.requested[tx] == s.h.requested[tx])
    && (tx in s.h.approved ==> tx in t.h.approved)
  }

  lemma CodeUntouched(s: State, t: State, c: Code, H: Verifier -> Challenge)
    requires CodeInv(s, c, H) && t.server.ttlMs == s.server.ttlMs
    requires c in s.h.origins <==> c in t.h.origins
    requires c in s.h.origins ==> t.h.origins[c] == s.h.origins[c] && StillSaid(s, t, s.h.origins[c].tx)
    requires TokensOf(t, c) == TokensOf(s, c)
    requires c in t.server.codes ==> c in s.server.codes && t.server.codes[c] == s.server.codes[c]
    ensures CodeInv(t, c, H)
  {
  }

  lemma ClientsGrow(clients: map<ClientId, set<Uri>>, r: Request, c: ClientId, u: Uri)
    requires Registered(clients, c, u)
    ensures Registered(ClientsFor(clients, r), c, u)
  {
  }

  lemma RegisterKeeps(s: State, c: ClientId, uris: set<Uri>, H: Verifier -> Challenge)
    requires Inv(s, H)
    ensures Inv(RegisterStep(s, c, uris), H)
  {
    var t := RegisterStep(s, c, uris);
    forall tx ensures TransactionInv(t, tx) {
      assert TransactionInv(s, tx);
    }
    forall cb ensures CallbackInv(t, cb) {
      assert CallbackInv(s, cb);
    }
    forall x ensures CodeInv(t, x, H) {
      CodeUntouched(s, t, x, H);
    }
  }

  lemma AuthorizeKeeps(s: State, tx: TransactionId, r: Request, configured: bool, now: int, H: Verifier -> Challenge)
    requires Inv(s, H)
    ensures Inv(AuthorizeStep(s, tx, r, configured, now), H)
  {
    var t := AuthorizeStep(s, tx, r, configured, now);
    assert TransactionInv(s, tx);
    forall x ensures TransactionInv(t, x) {
      assert TransactionInv(s, x);
      if x in s.h.requested {
        ClientsGrow(s.server.clients, r, s.h.requested[x].clientId, s.h.requested[x].redirectUri);
      }
    }
    forall cb ensures CallbackInv(t, cb) {
      assert CallbackInv(s, cb);
    }
    forall x ensures CodeInv(t, x, H) {
      assert CodeInv(s, x, H);
      CodeUntouched(s, t, x, H);
    }
  }

  lemma ApproveKeeps(s: State, tx: TransactionId, cookie: Option<TransactionId>, configured: bool, now: int,
                     H: Verifier -> Challenge)
    requires Inv(s, H)
    ensures Inv(ApproveStep(s, tx, cookie, configured, now), H)
  {
    var t := ApproveStep(s, tx, cookie, configured, now);
    forall x ensures TransactionInv(t, x) {
      assert TransactionInv(s, x);
    }
    forall cb ensures CallbackInv(t, cb) {
      assert CallbackInv(s, cb);
    }
    forall x ensures CodeInv(t, x, H) {
      CodeUntouched(s, t, x, H);
    }
  }

  lemma ReturnKeeps(s: State, cb: CallbackId, tx: TransactionId, hasCode: bool, cookie: Option<TransactionId>,
                    now: int, H: Verifier -> Challenge)
    requires Inv(s, H)
    ensures Inv(ReturnStep(s, cb, tx, hasCode, cookie, now), H)
  {
    var t := ReturnStep(s, cb, tx, hasCode, cookie, now);
    assert TransactionInv(s, tx);
    forall x ensures TransactionInv(t, x) {
      assert TransactionInv(s, x);
    }
    forall x ensures CallbackInv(t, x) {
      assert CallbackInv(s, x);
    }
    assert forall x :: x in s.callbacks ==> CallbackInv(s, x);
    forall x ensures CodeInv(t, x, H) {
      CodeUntouched(s, t, x, H);
    }
  }

  lemma IdentifiedKeeps(s: State, cb: CallbackId, user: Option<UserId>, code: Code, now: int, H: Verifier -> Challenge)
    requires Inv(s, H)
    ensures Inv(IdentifiedStep(s, cb, user, code, now), H)
  {
    var t := IdentifiedStep(s, cb, user, code, now);
    assert CallbackInv(s, cb) && CodeInv(s, code, H);
    forall x ensures TransactionInv(t, x) {
      assert TransactionInv(s, x);
    }
    forall x ensures CallbackInv(t, x) {
      assert CallbackInv(s, x);
    }
    forall x ensures CodeInv(t, x, H) {
      assert CodeInv(s, x, H);
      if x != code {
        CodeUntouched(s, t, x, H);
      }
    }
  }

  lemma ExchangeKeeps(s: State, r: TokenRequest, H: Verifier -> Challenge, now: int)
    requires Inv(s, H)
    ensures Inv(ExchangeStep(s, r, H, now), H)
  {
    var t := ExchangeStep(s, r, H, now);
    forall x ensures TransactionInv(t, x) {
      assert TransactionInv(s, x);
    }
    forall x ensures CallbackInv(t, x) {
      assert CallbackInv(s, x);
    }
    forall x ensures CodeInv(t, x, H) {
      assert CodeInv(s, x, H);
      if x != r.code {
        CodeUntouched(s, t, x, H);
      }
    }
  }

  /** Expiry and pruning only take rows and transactions away. */
  lemma ForgettingKeeps(s: State, t: State, H: Verifier -> Challenge)
    requires Inv(s, H)
    requires t == s.(server := s.server.(transactions := t.server.transactions, codes := t.server.codes))
    requires forall tx :: tx in t.server.transactions ==>
               tx in s.server.transactions && t.server.transactions[tx] == s.server.transactions[tx]
    requires forall c :: c in t.server.codes ==> c in s.server.codes && t.server.codes[c] == s.server.codes[c]
    ensures Inv(t, H)
  {
    forall x ensures TransactionInv(t, x) {
      assert TransactionInv(s, x);
    }
    forall x ensures CallbackInv(t, x) {
      assert CallbackInv(s, x);
    }
    forall x ensures CodeInv(t, x, H) {
      assert CodeInv(s, x, H);
      CodeUntouched(s, t, x, H);
    }
  }

  lemma ApplyKeeps(s: State, e: Event, H: Verifier -> Challenge)
    requires Inv(s, H)
    ensures Inv(Apply(s, e, H), H)
  {
    hide Inv;
    match e.step
    case Register(c, uris) => RegisterKeeps(s, c, uris, H);
    case Authorize(tx, r, configured) => AuthorizeKeeps(s, tx, r, configured, e.now, H);
    case Approve(tx, cookie, configured) => ApproveKeeps(s, tx, cookie, configured, e.now, H);
    case Return(cb, tx, hasCode, cookie) => ReturnKeeps(s, cb, tx, hasCode, cookie, e.now, H);
    case Identified(cb, user, code) => IdentifiedKeeps(s, cb, user, code, e.now, H);
    case Exchange(r) => ExchangeKeeps(s, r, H, e.now);
    case Cleanup => ForgettingKeeps(s, Apply(s, e, H), H);
    case Prune => ForgettingKeeps(s, Apply(s, e, H), H);
  }

  lemma {:induction false} RunKeeps(ttlMs: int, es: seq<Event>, H: Verifier -> Challenge)
    ensures Inv(Run(Init(ttlMs), es, H), H)
  {
    if es != [] {
      RunKeeps(ttlMs, es[..|es| - 1], H);
      hide Inv, Apply;
      ApplyKeeps(Run(Init(ttlMs), es[..|es| - 1], H), es[|es| - 1], H);
    }
  }

  // ---------------------------------------------------------------------------------------------
  // Theorems over whole runs
  // ---------------------------------------------------------------------------------------------

  /** Each authorize transaction yields at most one code and each code at most one token. */
  lemma SingleUse(ttlMs: int, es: seq<Event>, H: Verifier -> Challenge, tx: TransactionId, code: Code)
    ensures |CodesOf(Run(Init(ttlMs), es, H), tx)| <= 1
    ensures |TokensOf(Run(Init(ttlMs), es, H), code)| <= 1
  {
    RunKeeps(ttlMs, es, H);
    assert TransactionInv(Run(Init(ttlMs), es, H), tx) && CodeInv(Run(Init(ttlMs), es, H), code, H);
  }

  /** Every token comes from one approved transaction, and its client has the redirect URI. */
  lemma TokenProvenance(ttlMs: int, es: seq<Event>, H: Verifier -> Challenge, code: Code, t: Token)
    requires t in TokensOf(Run(Init(ttlMs), es, H), code)
    ensures Traces(Run(Init(ttlMs), es, H), code, t, H)
    ensures Registered(Run(Init(ttlMs), es, H).server.clients, t.clientId, t.redirectUri)
  {
    var s := Run(Init(ttlMs), es, H);
    RunKeeps(ttlMs, es, H);
    assert CodeInv(s, code, H);
    assert TransactionInv(s, s.h.origins[code].tx);
  }

  /** Two tokens never come from one transaction: if their codes do, they are the same token. */
  lemma OneTokenPerTransaction(ttlMs: int, es: seq<Event>, H: Verifier -> Challenge, a: Code, b: Code, t: Token, u: Token)
    requires var s := Run(Init(ttlMs), es, H);
             && t in TokensOf(s, a) && u in TokensOf(s, b)
             && a in s.h.origins && b in s.h.origins && s.h.origins[a].tx == s.h.origins[b].tx
    ensures a == b && t == u
  {
    var s := Run(Init(ttlMs), es, H);
    RunKeeps(ttlMs, es, H);
    hide Run, Inv;
    CodesAgree(s, H, a, b);
    OneToken(s, H, a, t, u);
  }

  lemma CodesAgree(s: State, H: Verifier -> Challenge, a: Code, b: Code)
    requires Inv(s, H) && a in s.h.origins && b in s.h.origins && s.h.origins[a].tx == s.h.origins[b].tx
    ensures a == b
  {
    assert CodeInv(s, a, H) && CodeInv(s, b, H);
  }

  lemma OneToken(s: State, H: Verifier -> Challenge, c: Code, t: Token, u: Token)
    requires Inv(s, H) && t in TokensOf(s, c) && u in TokensOf(s, c)
    ensures t == u
  {
    assert CodeInv(s, c, H);
  }

  // ---------------------------------------------------------------------------------------------
  // The events behind a token
  // ---------------------------------------------------------------------------------------------

  /** The client may use the redirect URI: it is registered for it, or it is a ChatGPT one that is
      restored, or added to a known client, on the way. */
  ghost predicate UsableUri(s: Server, r: Request) {
    || (r.clientId in s.clients && r.redirectUri in s.clients[r.clientId])
    || (r.chatGptUri && (r.clientId in s.clients || r.restorableId))
  }

  lemma AcceptableIs(s: Server, r: Request)
    ensures Acceptable(s, r) <==> UsableUri(s, r) && r.safeUri && r.wellFormed && r.challenge.Some?
  {
  }

  lemma AuthorizeEffect(s: State, tx: TransactionId, r: Request, configured: bool, now: int)
    ensures var t := AuthorizeStep(s, tx, r, configured, now);
            && t.server.ttlMs == s.server.ttlMs
            && t.h.requested ==
                 if tx !in s.h.requested && configured && UsableUri(s.server, r) && r.safeUri && r.wellFormed
                    && r.challenge.Some?
                 then s.h.requested[tx := Pending(r.clientId, r.redirectUri, r.challenge.value, r.scope,
                                                  now + s.server.ttlMs, false)]
                 else s.h.requested
  {
    AcceptableIs(s.server, r);
    hide Acceptable, UsableUri, ClientsFor;
  }

  /** A request becomes a transaction exactly when its URI is usable and safe, it is well-formed, carries
      an S256 challenge and a provider is configured. */
  lemma RequestedStep(s: State, e: Event, H: Verifier -> Challenge)
    ensures var t := Apply(s, e, H);
            && t.server.ttlMs == s.server.ttlMs
            && t.h.requested ==
                 if e.step.Authorize? && e.step.tx !in s.h.requested && e.step.configured
                    && UsableUri(s.server, e.step.request) && e.step.request.safeUri && e.step.request.wellFormed
                    && e.step.request.challenge.Some?
                 then
                   var r := e.step.request;
                   s.h.requested[e.step.tx := Pending(r.clientId, r.redirectUri, r.challenge.value, r.scope,
                                                      e.now + s.server.ttlMs, false)]
                 else s.h.requested
  {
    hide MayExchange, CallbackAccepted, MayApprove, CodesOf, TokensOf, AuthorizeStep;
    if e.step.Authorize? {
      AuthorizeEffect(s, e.step.tx, e.step.request, e.step.configured, e.now);
    }
  }

  /** A transaction is approved exactly by the browser that holds its cookie, while it is open and not
      past its expiry. */
  lemma ApprovedStep(s: State, e: Event, H: Verifier -> Challenge)
    ensures var t := Apply(s, e, H);
            t.h.approved == s.h.approved +
              if e.step.Approve? && e.step.cookie == Some(e.step.tx) && e.step.configured
                 && e.step.tx in s.server.transactions && e.now <= s.server.transactions[e.step.tx].expiresAt
              then {e.step.tx} else {}
  {
    hide MayExchange, CallbackAccepted, CleanedUp, CodesPruned, Authorized, CodesOf, TokensOf, Acceptable;
  }

  /** A callback goes on exactly for an approved, unexpired transaction of this browser, with a code. */
  lemma CallbacksStep(s: State, e: Event, H: Verifier -> Challenge)
    ensures var t := Apply(s, e, H);
            t.callbacks ==
              if e.step.Return? then
                if e.step.callback !in s.callbacks && e.step.hasCode && e.step.cookie == Some(e.step.tx)
                   && e.step.tx in s.server.transactions && s.server.transactions[e.step.tx].approved
                   && e.now <= s.server.transactions[e.step.tx].expiresAt
                then s.callbacks[e.step.callback := Callback(e.step.tx, s.server.transactions[e.step.tx])]
                else s.callbacks
              else if e.step.Identified? && e.step.code !in s.h.origins then s.callbacks - {e.step.callback}
              else s.callbacks
  {
    assert e.step.Identified? && e.step.callback !in s.callbacks ==> s.callbacks - {e.step.callback} == s.callbacks;
    hide MayExchange, MayApprove, CleanedUp, CodesPruned, Authorized, CodesOf, TokensOf, Acceptable;
  }

  /** A client comes to have a redirect URI in two ways only: it was registered with it, or ChatGPT's own
      safe URI came with an authorization request for it. A known client is never registered again. */
  lemma ClientsStep(s: State, e: Event, H: Verifier -> Challenge, c: ClientId, u: Uri)
    ensures var clients := Apply(s, e, H).server.clients;
            c in clients && u in clients[c] <==>
              || (c in s.server.clients && u in s.server.clients[c])
              || (e.step.Register? && e.step.client == c && c !in s.server.clients && u in e.step.uris)
              || (e.step.Authorize? && e.step.tx !in s.h.requested
                  && e.step.request.clientId == c && e.step.request.redirectUri == u
                  && e.step.request.safeUri && e.step.request.chatGptUri
                  && (c in s.server.clients || e.step.request.restorableId))
  {
    hide ClientsFor, Acceptable, RegisterStep;
    if e.step.Authorize? {
      ClientsWith(s.server.clients, e.step.request, c, u);
      AuthorizeClients(s, e.step.tx, e.step.request, e.step.configured, e.now);
      hide AuthorizeStep;
    } else if e.step.Register? {
      RegisterClients(s, e.step.client, e.step.uris, c, u);
    } else {
      ClientsKept(s, e, H);
      hide Apply;
    }
  }

  lemma ClientsWith(clients: map<ClientId, set<Uri>>, r: Request, c: ClientId, u: Uri)
    ensures Registered(ClientsFor(clients, r), c, u) <==>
              Registered(clients, c, u)
              || (r.clientId == c && r.redirectUri == u && r.safeUri && r.chatGptUri && (c in clients || r.restorableId))
  {
  }

  lemma AuthorizeClients(s: State, tx: TransactionId, r: Request, configured: bool, now: int)
    ensures AuthorizeStep(s, tx, r, configured, now).server.clients
         == if tx in s.h.requested then s.server.clients else ClientsFor(s.server.clients, r)
  {
    hide ClientsFor, Acceptable;
  }

  lemma RegisterClients(s: State, client: ClientId, uris: set<Uri>, c: ClientId, u: Uri)
    ensures Registered(RegisterStep(s, client, uris).server.clients, c, u) <==>
              Registered(s.server.clients, c, u) || (client == c && c !in s.server.clients && u in uris)
  {
  }

  lemma ClientsKept(s: State, e: Event, H: Verifier -> Challenge)
    requires !e.step.Authorize? && !e.step.Register?
    ensures Apply(s, e, H).server.clients == s.server.clients
  {
    hide MayExchange, MayApprove, CallbackAccepted, CodesOf, TokensOf;
  }

  /** A code is issued exactly when the provider names a user for a waiting callback. */
  lemma OriginsStep(s: State, e: Event, H: Verifier -> Challenge)
    ensures var t := Apply(s, e, H);
            t.h.origins ==
              if e.step.Identified? && e.step.callback in s.callbacks && e.step.code !in s.h.origins && e.step.user.Some?
              then s.h.origins[e.step.code := Origin(s.callbacks[e.step.callback].tx, e.step.user.value, e.now)]
              else s.h.origins
  {
    hide MayExchange, MayApprove, CallbackAccepted, CleanedUp, CodesPruned, Authorized, CodesOf, TokensOf, Acceptable;
  }

  /** The form fits the row: a known client, its code, its URI, unused, in time, the right verifier, and
      the user still there. */
  ghost predicate Fits(s: Server, r: TokenRequest, challengeOf: Verifier -> Challenge, now: int) {
    && r.code in s.codes && r.clientId in s.clients && s.codes[r.code].clientId == r.clientId
    && s.codes[r.code].redirectUri == r.redirectUri && !s.codes[r.code].used && now <= s.codes[r.code].expiresAt
    && r.verifier.Some? && challengeOf(r.verifier.value) == s.codes[r.code].challenge && r.userExists
  }

  /** A token is issued exactly when the form fits. */
  lemma TokensStep(s: State, e: Event, H: Verifier -> Challenge, c: Code)
    ensures var t := Apply(s, e, H);
            TokensOf(t, c) ==
              if e.step.Exchange? && e.step.form.code == c && Fits(s.server, e.step.form, H, e.now) then
                var row := s.server.codes[c];
                TokensOf(s, c) + [Token(row.clientId, row.redirectUri, row.userId, row.scope, e.step.form.verifier.value, e.now)]
              else if e.step.Identified? && e.step.callback in s.callbacks && e.step.code !in s.h.origins
                      && e.step.user.Some? && e.step.code == c then []
              else TokensOf(s, c)
  {
    hide MayApprove, CallbackAccepted, CleanedUp, CodesPruned, Authorized, CodesOf, Acceptable;
  }

  /** The transaction was asked for with these fields, and expires a lifetime later. */
  ghost predicate Asks(e: Event, tx: TransactionId, p: Pending, ttlMs: int) {
    && e.step.Authorize? && e.step.tx == tx && e.step.configured
    && var r := e.step.request;
       p == Pending(r.clientId, r.redirectUri, p.challenge, r.scope, e.now + ttlMs, false)
       && r.challenge == Some(p.challenge) && r.safeUri && r.wellFormed
  }

  ghost predicate WasAsked(es: seq<Event>, tx: TransactionId, p: Pending, ttlMs: int) {
    exists i :: 0 <= i < |es| && Asks(es[i], tx, p, ttlMs)
  }

  /** The browser that holds the transaction's cookie approved it in time, after it was asked for. */
  ghost predicate WasApproved(es: seq<Event>, tx: TransactionId, p: Pending, ttlMs: int) {
    exists i :: 0 <= i < |es| && es[i].step == Approve(tx, Some(tx), true) && es[i].now <= p.expiresAt
                && WasAsked(es[..i], tx, p, ttlMs)
  }

  /** The same browser came back with a provider code in time, after the approval. */
  ghost predicate WasReturned(es: seq<Event>, tx: TransactionId, p: Pending, cb: CallbackId, ttlMs: int) {
    exists i :: 0 <= i < |es| && es[i].step == Return(cb, tx, true, Some(tx)) && es[i].now <= p.expiresAt
                && WasApproved(es[..i], tx, p, ttlMs)
  }

  /** The provider named the user for that callback, and the code was issued. */
  ghost predicate WasIssued(es: seq<Event>, tx: TransactionId, p: Pending, code: Code, user: UserId, at: int, ttlMs: int) {
    exists i, cb :: 0 <= i < |es| && es[i] == Event(at, Identified(cb, Some(user), code))
                    && WasReturned(es[..i], tx, p, cb, ttlMs)
  }

  /** The client presented the code with the right URI and verifier, within the code's lifetime. */
  ghost predicate WasExchanged(es: seq<Event>, tx: TransactionId, p: Pending, code: Code, user: UserId, at: int, t: Token,
                               challengeOf: Verifier -> Challenge, ttlMs: int)
  {
    exists i :: 0 <= i < |es| && es[i] == Event(t.at, Exchange(TokenRequest(p.clientId, code, p.redirectUri, Some(t.verifier), true)))
                && challengeOf(t.verifier) == p.challenge && t.at <= at + ttlMs
                && t == Token(p.clientId, p.redirectUri, user, p.scope, t.verifier, t.at)
                && WasIssued(es[..i], tx, p, code, user, at, ttlMs)
  }

  lemma AskedLater(es: seq<Event>, e: Event, tx: TransactionId, p: Pending, ttlMs: int)
    requires WasAsked(es, tx, p, ttlMs)
    ensures WasAsked(es + [e], tx, p, ttlMs)
  {
    var i :| 0 <= i < |es| && Asks(es[i], tx, p, ttlMs);
    assert (es + [e])[i] == es[i];
  }

  lemma ApprovedLater(es: seq<Event>, e: Event, tx: TransactionId, p: Pending, ttlMs: int)
    requires WasApproved(es, tx, p, ttlMs)
    ensures WasApproved(es + [e], tx, p, ttlMs)
  {
    var i :| 0 <= i < |es| && es[i].step == Approve(tx, Some(tx), true) && es[i].now <= p.expiresAt
             && WasAsked(es[..i], tx, p, ttlMs);
    assert (es + [e])[i] == es[i] && (es + [e])[..i] == es[..i];
  }

  lemma ReturnedLater(es: seq<Event>, e: Event, tx: TransactionId, p: Pending, cb: CallbackId, ttlMs: int)
    requires WasReturned(es, tx, p, cb, ttlMs)
    ensures WasReturned(es + [e], tx, p, cb, ttlMs)
  {
    var i :| 0 <= i < |es| && es[i].step == Return(cb, tx, true, Some(tx)) && es[i].now <= p.expiresAt
             && WasApproved(es[..i], tx, p, ttlMs);
    assert (es + [e])[i] == es[i] && (es + [e])[..i] == es[..i];
  }

  lemma IssuedLater(es: seq<Event>, e: Event, tx: TransactionId, p: Pending, code: Code, user: UserId, at: int, ttlMs: int)
    requires WasIssued(es, tx, p, code, user, at, ttlMs)
    ensures WasIssued(es + [e], tx, p, code, user, at, ttlMs)
  {
    var i, cb :| 0 <= i < |es| && es[i] == Event(at, Identified(cb, Some(user), code))
                 && WasReturned(es[..i], tx, p, cb, ttlMs);
    assert (es + [e])[i] == es[i] && (es + [e])[..i] == es[..i];
  }

  lemma ExchangedLater(es: seq<Event>, e: Event, tx: TransactionId, p: Pending, code: Code, user: UserId, at: int, t: Token,
                       H: Verifier -> Challenge, ttlMs: int)
    requires WasExchanged(es, tx, p, code, user, at, t, H, ttlMs)
    ensures WasExchanged(es + [e], tx, p, code, user, at, t, H, ttlMs)
  {
    var i :| 0 <= i < |es| && es[i] == Event(t.at, Exchange(TokenRequest(p.clientId, code, p.redirectUri, Some(t.verifier), true)))
             && H(t.verifier) == p.challenge && t.at <= at + ttlMs
             && t == Token(p.clientId, p.redirectUri, user, p.scope, t.verifier, t.at)
             && WasIssued(es[..i], tx, p, code, user, at, ttlMs);
    assert (es + [e])[i] == es[i] && (es + [e])[..i] == es[..i];
  }

  /** Everything in the history has its events. */
  ghost predicate AskedTrail(s: State, es: seq<Event>) {
    forall tx :: tx in s.h.requested ==> WasAsked(es, tx, s.h.requested[tx], s.server.ttlMs)
  }

  ghost predicate ApprovedTrail(s: State, es: seq<Event>) {
    forall tx :: tx in s.h.approved ==> tx in s.h.requested && WasApproved(es, tx, s.h.requested[tx], s.server.ttlMs)
  }

  ghost predicate ReturnedTrail(s: State, es: seq<Event>) {
    forall cb :: cb in s.callbacks ==>
      s.callbacks[cb].tx in s.h.requested
      && WasReturned(es, s.callbacks[cb].tx, s.h.requested[s.callbacks[cb].tx], cb, s.server.ttlMs)
  }

  ghost predicate CodeTrail(s: State, es: seq<Event>, c: Code, challengeOf: Verifier -> Challenge) {
    && (c in s.h.origins ==>
          && s.h.origins[c].tx in s.h.requested
          && var (o, p) := (s.h.origins[c], s.h.requested[s.h.origins[c].tx]);
             WasIssued(es, o.tx, p, c, o.user, o.at, s.server.ttlMs))
    && (TokensOf(s, c) != [] ==>
          && c in s.h.origins && s.h.origins[c].tx in s.h.requested
          && var (o, p) := (s.h.origins[c], s.h.requested[s.h.origins[c].tx]);
             WasExchanged(es, o.tx, p, c, o.user, o.at, TokensOf(s, c)[0], challengeOf, s.server.ttlMs))
  }

  ghost predicate Trails(s: State, es: seq<Event>, challengeOf: Verifier -> Challenge) {
    && AskedTrail(s, es) && ApprovedTrail(s, es) && ReturnedTrail(s, es)
    && (forall c :: CodeTrail(s, es, c, challengeOf))
  }

  lemma TrailsAsked(s: State, es: seq<Event>, e: Event, H: Verifier -> Challenge)
    requires AskedTrail(s, es)
    ensures AskedTrail(Apply(s, e, H), es + [e])
  {
    var t := Apply(s, e, H);
    RequestedStep(s, e, H);
    hide Apply, WasAsked, UsableUri;
    forall tx | tx in t.h.requested ensures WasAsked(es + [e], tx, t.h.requested[tx], s.server.ttlMs) {
      if tx in s.h.requested {
        AskedLater(es, e, tx, s.h.requested[tx], s.server.ttlMs);
      } else {
        AskedNow(es, e, tx, t.h.requested[tx], s.server.ttlMs);
      }
    }
  }

  lemma AskedNow(es: seq<Event>, e: Event, tx: TransactionId, p: Pending, ttlMs: int)
    requires Asks(e, tx, p, ttlMs)
    ensures WasAsked(es + [e], tx, p, ttlMs)
  {
    assert (es + [e])[|es|] == e;
  }

  lemma RequestedStays(s: State, e: Event, H: Verifier -> Challenge, tx: TransactionId)
    requires tx in s.h.requested
    ensures var t := Apply(s, e, H); tx in t.h.requested && t.h.requested[tx] == s.h.requested[tx]
  {
    RequestedStep(s, e, H);
    hide Apply;
  }

  lemma TrailsApproved(s: State, es: seq<Event>, e: Event, H: Verifier -> Challenge)
    requires Inv(s, H) && AskedTrail(s, es) && ApprovedTrail(s, es)
    ensures ApprovedTrail(Apply(s, e, H), es + [e])
  {
    var t := Apply(s, e, H);
    RequestedStep(s, e, H);
    ApprovedStep(s, e, H);
    forall tx | tx in t.h.approved
      ensures tx in t.h.requested && WasApproved(es + [e], tx, t.h.requested[tx], t.server.ttlMs)
    {
      assert TransactionInv(s, tx);
      hide Apply, WasAsked, WasApproved, UsableUri;
      if tx in s.h.approved {
        RequestedStays(s, e, H, tx);
        ApprovedLater(es, e, tx, s.h.requested[tx], s.server.ttlMs);
      } else {
        RequestedStays(s, e, H, tx);
        ApprovedNow(es, e, tx, s.h.requested[tx], s.server.ttlMs);
      }
    }
  }

  lemma ApprovedNow(es: seq<Event>, e: Event, tx: TransactionId, p: Pending, ttlMs: int)
    requires e.step == Approve(tx, Some(tx), true) && e.now <= p.expiresAt && WasAsked(es, tx, p, ttlMs)
    ensures WasApproved(es + [e], tx, p, ttlMs)
  {
    assert (es + [e])[|es|] == e && (es + [e])[..|es|] == es;
  }

  lemma ReturnedNow(es: seq<Event>, e: Event, tx: TransactionId, p: Pending, cb: CallbackId, ttlMs: int)
    requires e.step == Return(cb, tx, true, Some(tx)) && e.now <= p.expiresAt && WasApproved(es, tx, p, ttlMs)
    ensures WasReturned(es + [e], tx, p, cb, ttlMs)
  {
    assert (es + [e])[|es|] == e && (es + [e])[..|es|] == es;
  }

  lemma TrailsReturned(s: State, es: seq<Event>, e: Event, H: Verifier -> Challenge)
    requires Inv(s, H) && ApprovedTrail(s, es) && ReturnedTrail(s, es)
    ensures ReturnedTrail(Apply(s, e, H), es + [e])
  {
    var t := Apply(s, e, H);
    RequestedStep(s, e, H);
    CallbacksStep(s, e, H);
    forall cb | cb in t.callbacks
      ensures var tx := t.callbacks[cb].tx;
              tx in t.h.requested && WasReturned(es + [e], tx, t.h.requested[tx], cb, t.server.ttlMs)
    {
      var tx := t.callbacks[cb].tx;
      assert TransactionInv(s, tx);
      hide Apply, WasApproved, WasReturned, UsableUri;
      RequestedStays(s, e, H, tx);
      if cb in s.callbacks {
        ReturnedLater(es, e, tx, s.h.requested[tx], cb, s.server.ttlMs);
      } else {
        ReturnedNow(es, e, tx, s.h.requested[tx], cb, s.server.ttlMs);
      }
    }
  }

  lemma IssuedNow(es: seq<Event>, e: Event, tx: TransactionId, p: Pending, cb: CallbackId, code: Code, user: UserId,
                  ttlMs: int)
    requires e.step == Identified(cb, Some(user), code) && WasReturned(es, tx, p, cb, ttlMs)
    ensures WasIssued(es + [e], tx, p, code, user, e.now, ttlMs)
  {
    assert (es + [e])[|es|] == e && (es + [e])[..|es|] == es;
  }

  lemma ExchangedNow(es: seq<Event>, e: Event, tx: TransactionId, p: Pending, code: Code, user: UserId, at: int, t: Token,
                     H: Verifier -> Challenge, ttlMs: int)
    requires e.step == Exchange(TokenRequest(p.clientId, code, p.redirectUri, Some(t.verifier), true))
    requires H(t.verifier) == p.challenge && t == Token(p.clientId, p.redirectUri, user, p.scope, t.verifier, e.now)
    requires t.at <= at + ttlMs && WasIssued(es, tx, p, code, user, at, ttlMs)
    ensures WasExchanged(es + [e], tx, p, code, user, at, t, H, ttlMs)
  {
    assert (es + [e])[|es|] == e && (es + [e])[..|es|] == es;
  }

  lemma TrailsIssued(s: State, es: seq<Event>, e: Event, H: Verifier -> Challenge, c: Code)
    requires Inv(s, H) && ReturnedTrail(s, es) && CodeTrail(s, es, c, H)
    ensures var t := Apply(s, e, H);
            c in t.h.origins ==>
              && t.h.origins[c].tx in t.h.requested
              && WasIssued(es + [e], t.h.origins[c].tx, t.h.requested[t.h.origins[c].tx], c, t.h.origins[c].user,
                           t.h.origins[c].at, t.server.ttlMs)
  {
    var t := Apply(s, e, H);
    RequestedStep(s, e, H);
    OriginsStep(s, e, H);
    hide Apply, WasReturned, WasIssued, WasExchanged, UsableUri, Inv;
    if c in t.h.origins {
      var tx := t.h.origins[c].tx;
      RequestedStays(s, e, H, tx);
      if c in s.h.origins {
        IssuedLater(es, e, tx, s.h.requested[tx], c, s.h.origins[c].user, s.h.origins[c].at, s.server.ttlMs);
      } else {
        IssuedNow(es, e, tx, s.h.requested[tx], e.step.callback, c, e.step.user.value, s.server.ttlMs);
      }
    }
  }

  lemma TrailsExchanged(s: State, es: seq<Event>, e: Event, H: Verifier -> Challenge, c: Code)
    requires Inv(s, H) && CodeTrail(s, es, c, H)
    ensures var t := Apply(s, e, H);
            TokensOf(t, c) != [] ==>
              && c in t.h.origins && t.h.origins[c].tx in t.h.requested
              && WasExchanged(es + [e], t.h.origins[c].tx, t.h.requested[t.h.origins[c].tx], c, t.h.origins[c].user,
                              t.h.origins[c].at, TokensOf(t, c)[0], H, t.server.ttlMs)
  {
    var t := Apply(s, e, H);
    assert CodeInv(s, c, H);
    RequestedStep(s, e, H);
    OriginsStep(s, e, H);
    TokensStep(s, e, H, c);
    hide Apply, WasIssued, WasExchanged, UsableUri, Inv;
    if TokensOf(t, c) != [] {
      var tx := s.h.origins[c].tx;
      RequestedStays(s, e, H, tx);
      var p := s.h.requested[tx];
      if TokensOf(s, c) != [] {
        ExchangedLater(es, e, tx, p, c, s.h.origins[c].user, s.h.origins[c].at, TokensOf(s, c)[0], H, s.server.ttlMs);
      } else {
        ExchangedNow(es, e, tx, p, c, s.h.origins[c].user, s.h.origins[c].at, TokensOf(t, c)[0], H, s.server.ttlMs);
      }
    }
  }

  lemma ApplyTrails(s: State, es: seq<Event>, e: Event, H: Verifier -> Challenge)
    requires Inv(s, H) && Trails(s, es, H)
    ensures Trails(Apply(s, e, H), es + [e], H)
  {
    TrailsAsked(s, es, e, H);
    TrailsApproved(s, es, e, H);
    TrailsReturned(s, es, e, H);
    var t := Apply(s, e, H);
    forall c ensures CodeTrail(t, es + [e], c, H) {
      assert CodeTrail(s, es, c, H);
      hide Apply, Inv, WasIssued, WasExchanged, CodeTrail, ReturnedTrail, Trails;
      TrailsIssued(s, es, e, H, c);
      TrailsExchanged(s, es, e, H, c);
      CodeTrailIs(t, es + [e], c, H);
    }
    hide Apply, Inv, AskedTrail, ApprovedTrail, ReturnedTrail, CodeTrail;
  }

  lemma CodeTrailIs(s: State, es: seq<Event>, c: Code, H: Verifier -> Challenge)
    requires c in s.h.origins ==>
               && s.h.origins[c].tx in s.h.requested
               && WasIssued(es, s.h.origins[c].tx, s.h.requested[s.h.origins[c].tx], c, s.h.origins[c].user,
                            s.h.origins[c].at, s.server.ttlMs)
    requires TokensOf(s, c) != [] ==>
               && c in s.h.origins && s.h.origins[c].tx in s.h.requested
               && WasExchanged(es, s.h.origins[c].tx, s.h.requested[s.h.origins[c].tx], c, s.h.origins[c].user,
                               s.h.origins[c].at, TokensOf(s, c)[0], H, s.server.ttlMs)
    ensures CodeTrail(s, es, c, H)
  {
  }

  lemma {:induction false} RunTrails(ttlMs: int, es: seq<Event>, H: Verifier -> Challenge)
    ensures Trails(Run(Init(ttlMs), es, H), es, H) && Run(Init(ttlMs), es, H).server.ttlMs == ttlMs
  {
    if es != [] {
      var front := es[..|es| - 1];
      RunTrails(ttlMs, front, H);
      RunKeeps(ttlMs, front, H);
      RequestedStep(Run(Init(ttlMs), front, H), es[|es| - 1], H);
      hide Inv, Apply, Trails, UsableUri;
      ApplyTrails(Run(Init(ttlMs), front, H), front, es[|es| - 1], H);
      assert front + [es[|es| - 1]] == es;
    }
  }

  /** Behind every code of every run stand, in this order: a request with these fields, the approval by
      the browser that holds the transaction's cookie, the return of that browser with a provider code,
      both no later than a lifetime after the request, and the provider's answer. */
  lemma CodeHasItsEvents(ttlMs: int, es: seq<Event>, H: Verifier -> Challenge, code: Code)
    requires code in Run(Init(ttlMs), es, H).h.origins
    ensures var s := Run(Init(ttlMs), es, H);
            var o := s.h.origins[code];
            o.tx in s.h.requested && WasIssued(es, o.tx, s.h.requested[o.tx], code, o.user, o.at, ttlMs)
  {
    RunTrails(ttlMs, es, H);
    assert CodeTrail(Run(Init(ttlMs), es, H), es, code, H);
    hide Run, WasIssued, WasExchanged;
  }

  /** Behind every token stand those events, and then the exchange of its code for it. */
  lemma TokenHasItsEvents(ttlMs: int, es: seq<Event>, H: Verifier -> Challenge, code: Code, t: Token)
    requires t in TokensOf(Run(Init(ttlMs), es, H), code)
    ensures var s := Run(Init(ttlMs), es, H);
            && code in s.h.origins && s.h.origins[code].tx in s.h.requested
            && var o := s.h.origins[code];
               WasExchanged(es, o.tx, s.h.requested[o.tx], code, o.user, o.at, t, H, ttlMs)
  {
    hide Run, WasIssued, WasExchanged, Inv, Trails;
    RunTrails(ttlMs, es, H);
    RunKeeps(ttlMs, es, H);
    TokenTrail(Run(Init(ttlMs), es, H), es, H, code, t);
  }

  lemma TokenTrail(s: State, es: seq<Event>, H: Verifier -> Challenge, code: Code, t: Token)
    requires Inv(s, H) && Trails(s, es, H) && t in TokensOf(s, code)
    ensures code in s.h.origins && s.h.origins[code].tx in s.h.requested
    ensures var o := s.h.origins[code];
            WasExchanged(es, o.tx, s.h.requested[o.tx], code, o.user, o.at, t, H, s.server.ttlMs)
  {
    OneToken(s, H, code, t, TokensOf(s, code)[0]);
    assert CodeTrail(s, es, code, H);
    hide WasIssued, WasExchanged, Inv, Trails, AskedTrail, ApprovedTrail, ReturnedTrail;
  }

  /** The honest flow goes through: from any state, with fresh names and in time, a usable request that is
      approved and returned by its own browser, and exchanged with its verifier, ends in one token. */
  lemma HonestFlow(s: State, H: Verifier -> Challenge, tx: TransactionId, r: Request, cb: CallbackId, code: Code,
                   user: UserId, v: Verifier, t0: int, t1: int, t2: int, t3: int, t4: int)
    requires tx !in s.h.requested && cb !in s.callbacks && code !in s.h.origins && s.server.ttlMs >= 0
    requires UsableUri(s.server, r) && r.safeUri && r.wellFormed && r.challenge == Some(H(v))
    requires t0 <= t1 <= t2 <= t3 <= t4 && t2 <= t0 + s.server.ttlMs && t4 <= t3 + s.server.ttlMs
    ensures var s1 := Apply(s, Event(t0, Authorize(tx, r, true)), H);
            var s2 := Apply(s1, Event(t1, Approve(tx, Some(tx), true)), H);
            var s3 := Apply(s2, Event(t2, Return(cb, tx, true, Some(tx))), H);
            var s4 := Apply(s3, Event(t3, Identified(cb, Some(user), code)), H);
            var s5 := Apply(s4, Event(t4, Exchange(TokenRequest(r.clientId, code, r.redirectUri, Some(v), true))), H);
            TokensOf(s5, code) == [Token(r.clientId, r.redirectUri, user, r.scope, v, t4)]
  {
    var s1 := Apply(s, Event(t0, Authorize(tx, r, true)), H);
    var s2 := Apply(s1, Event(t1, Approve(tx, Some(tx), true)), H);
    var s3 := Apply(s2, Event(t2, Return(cb, tx, true, Some(tx))), H);
    var s4 := Apply(s3, Event(t3, Identified(cb, Some(user), code)), H);
    var p := Pending(r.clientId, r.redirectUri, H(v), r.scope, t0 + s.server.ttlMs, false);
    FlowAsked(s, H, tx, r, p, cb, code, t0);
    FlowApproved(s1, H, tx, p, cb, code, t1);
    FlowReturned(s2, H, tx, p, cb, code, t2);
    FlowIssued(s3, H, tx, p, cb, code, user, t3);
    hide Apply;
    TokensStep(s4, Event(t4, Exchange(TokenRequest(r.clientId, code, r.redirectUri, Some(v), true))), H, code);
  }

  lemma FlowAsked(s: State, H: Verifier -> Challenge, tx: TransactionId, r: Request, p: Pending, cb: CallbackId, code: Code,
                  now: int)
    requires tx !in s.h.requested && UsableUri(s.server, r) && r.safeUri && r.wellFormed && r.challenge == Some(p.challenge)
    requires p == Pending(r.clientId, r.redirectUri, p.challenge, r.scope, now + s.server.ttlMs, false)
    ensures var t := Apply(s, Event(now, Authorize(tx, r, true)), H);
            && tx in t.server.transactions && t.server.transactions[tx] == p && p.clientId in t.server.clients
            && t.callbacks == s.callbacks && t.h.origins == s.h.origins && t.server.ttlMs == s.server.ttlMs
  {
    AcceptableIs(s.server, r);
    hide UsableUri;
  }

  lemma FlowApproved(s: State, H: Verifier -> Challenge, tx: TransactionId, p: Pending, cb: CallbackId, code: Code, now: int)
    requires tx in s.server.transactions && s.server.transactions[tx] == p && now <= p.expiresAt
    ensures var t := Apply(s, Event(now, Approve(tx, Some(tx), true)), H);
            && tx in t.server.transactions && t.server.transactions[tx] == p.(approved := true)
            && t.server.clients == s.server.clients
            && t.callbacks == s.callbacks && t.h.origins == s.h.origins && t.server.ttlMs == s.server.ttlMs
  {
  }

  lemma FlowReturned(s: State, H: Verifier -> Challenge, tx: TransactionId, p: Pending, cb: CallbackId, code: Code, now: int)
    requires tx in s.server.transactions && s.server.transactions[tx] == p.(approved := true) && now <= p.expiresAt
    requires cb !in s.callbacks
    ensures var t := Apply(s, Event(now, Return(cb, tx, true, Some(tx))), H);
            && t.callbacks == s.callbacks[cb := Callback(tx, p.(approved := true))]
            && t.server.clients == s.server.clients && t.h.origins == s.h.origins && t.server.ttlMs == s.server.ttlMs
  {
  }

  lemma FlowIssued(s: State, H: Verifier -> Challenge, tx: TransactionId, p: Pending, cb: CallbackId, code: Code,
                   user: UserId, now: int)
    requires cb in s.callbacks && s.callbacks[cb] == Callback(tx, p.(approved := true)) && code !in s.h.origins
    ensures var t := Apply(s, Event(now, Identified(cb, Some(user), code)), H);
            && code in t.server.codes
            && t.server.codes[code] == CodeRow(p.clientId, user, p.redirectUri, p.challenge, p.scope, now + s.server.ttlMs, false)
            && t.server.clients == s.server.clients && TokensOf(t, code) == [] && t.server.ttlMs == s.server.ttlMs
  {
  }

  /** Cleaning up and pruning take away exactly the transactions and the codes whose expiry is reached. */
  lemma ExpiryStep(s: State, e: Event, H: Verifier -> Challenge, tx: TransactionId, c: Code)
    requires e.step == Cleanup || e.step == Prune
    ensures var t := Apply(s, e, H);
            && t == s.(server := s.server.(transactions := t.server.transactions, codes := t.server.codes))
            && (tx in t.server.transactions <==>
                  tx in s.server.transactions && (e.step == Cleanup ==> e.now < s.server.transactions[tx].expiresAt))
            && (tx in t.server.transactions ==> t.server.transactions[tx] == s.server.transactions[tx])
            && (c in t.server.codes <==> c in s.server.codes && (e.step == Prune ==> e.now < s.server.codes[c].expiresAt))
            && (c in t.server.codes ==> t.server.codes[c] == s.server.codes[c])
  {
  }

  /** At the very instant of expiry a code is good exactly until the pruner runs; before it, pruning
      never takes a good code away. */
  lemma PruningAtTheDeadline(s: Server, r: TokenRequest, H: Verifier -> Challenge, now: int)
    requires MayExchange(s, r, H, now)
    ensures MayExchange(CodesPruned(s, now), r, H, now) <==> now != s.codes[r.code].expiresAt
  {
  }

  // ---------------------------------------------------------------------------------------------
  // The object
  // ---------------------------------------------------------------------------------------------

  /** `OAuthHandler` with the store tables it writes. */
  class OAuthHandler {
    var clients: map<ClientId, set<Uri>>
    var authorizeTransactions: map<TransactionId, Pending>
    var codes: map<Code, CodeRow>
    const ttlMs: int

    function Value(): Server
      reads this
    {
      Server(clients, authorizeTransactions, codes, ttlMs)
    }

    constructor (ttlMs: int)
      ensures Value() == Server(map[], map[], map[], ttlMs)
    {
      clients, authorizeTransactions, codes := map[], map[], map[];
      this.ttlMs := ttlMs;
    }

    method Authorize(tx: TransactionId, r: Request, configured: bool, now: int) returns (ok: bool)
      modifies this
      ensures ok == (Acceptable(old(Value()), r) && configured)
      ensures Value() == Authorized(old(Value()), tx, r, configured, now)
    {
      if r.clientId !in clients {
        if r.restorableId && r.safeUri && r.chatGptUri {
          clients := clients[r.clientId := {r.redirectUri}];
        }
      } else if r.redirectUri !in clients[r.clientId] {
        if r.safeUri && r.chatGptUri {
          clients := clients[r.clientId := clients[r.clientId] + {r.redirectUri}];
        }
      }
      if r.clientId !in clients || r.redirectUri !in clients[r.clientId] || !r.safeUri {
        return false;
      }
      if r.challenge.None? || !r.wellFormed || !configured {
        return false;
      }
      var pending := Pending(r.clientId, r.redirectUri, r.challenge.value, r.scope, now + ttlMs, false);
      authorizeTransactions := authorizeTransactions[tx := pending];
      ok := true;
    }

    method Approve(tx: TransactionId, cookie: Option<TransactionId>, configured: bool, now: int) returns (ok: bool)
      modifies this
      ensures ok == MayApprove(old(Value()), tx, cookie, configured, now)
      ensures Value() == Approved(old(Value()), tx, cookie, configured, now)
    {
      if tx !in authorizeTransactions || authorizeTransactions[tx].expiresAt < now || cookie != Some(tx) {
        return false;
      }
      if !configured {
        return false;
      }
      authorizeTransactions := authorizeTransactions[tx := authorizeTransactions[tx].(approved := true)];
      ok := true;
    }

    method ConsumeCallback(tx: TransactionId, hasCode: bool, cookie: Option<TransactionId>, now: int)
      returns (pending: Option<Pending>)
      modifies this
      ensures Value() == Consumed(old(Value()), tx)
      ensures pending.Some? == CallbackAccepted(old(Value()), tx, hasCode, cookie, now)
      ensures pending.Some? ==> pending.value == old(authorizeTransactions[tx])
    {
      var found := if tx in authorizeTransactions then Some(authorizeTransactions[tx]) else None;
      authorizeTransactions := authorizeTransactions - {tx};
      if !hasCode || found.None? || !found.value.approved || found.value.expiresAt < now || cookie != Some(tx) {
        return None;
      }
      pending := found;
    }

    method IssueAuthorizationCode(code: Code, pending: Pending, user: UserId, now: int)
      modifies this
      ensures Value() == CodeIssued(old(Value()), code, pending, user, now)
    {
      var row := CodeRow(pending.clientId, user, pending.redirectUri, pending.challenge, pending.scope, now + ttlMs, false);
      codes := codes[code := row];
    }

    /** The conditional update of `markAuthorizationCodeUsed`. */
    method MarkUsed(code: Code) returns (changed: bool)
      modifies this
      ensures changed == (code in old(codes) && !old(codes)[code].used)
      ensures Value() == if changed then Exchanged(old(Value()), code) else old(Value())
    {
      changed := code in codes && !codes[code].used;
      if changed {
        codes := codes[code := codes[code].(used := true)];
      }
    }

    /** `handleToken` up to the signing of the token: the user and scope it is issued for. */
    method Exchange(r: TokenRequest, challengeOf: Verifier -> Challenge, now: int)
      returns (granted: Option<(UserId, Scope)>)
      modifies this
      ensures granted.Some? == MayExchange(old(Value()), r, challengeOf, now)
      ensures granted.Some? ==>
                && granted.value == (old(codes)[r.code].userId, old(codes)[r.code].scope)
                && Value() == Exchanged(old(Value()), r.code)
      ensures granted.None? ==> Value() == old(Value())
    {
      if r.clientId !in clients || r.code !in codes {
        return None;
      }
      var row := codes[r.code];
      if row.clientId != r.clientId || row.redirectUri != r.redirectUri {
        return None;
      }
      if row.used || row.expiresAt < now {
        return None;
      }
      if r.verifier.None? || challengeOf(r.verifier.value) != row.challenge {
        return None;
      }
      if !r.userExists {
        return None;
      }
      var changed := MarkUsed(r.code);
      if !changed {
        return None;
      }
      granted := Some((row.userId, row.scope));
    }

    method CleanupExpired(now: int)
      modifies this
      ensures Value() == CleanedUp(old(Value()), now)
    {
      var todo := authorizeTransactions.Keys;
      while todo != {}
        invariant todo <= authorizeTransactions.Keys <= old(authorizeTransactions).Keys
        invariant Value() == old(Value()).(transactions := authorizeTransactions)
        invariant forall tx :: tx in authorizeTransactions ==> authorizeTransactions[tx] == old(authorizeTransactions)[tx]
        invariant forall tx :: tx in old(authorizeTransactions) && tx !in todo ==>
                    (tx in authorizeTransactions <==> now < old(authorizeTransactions)[tx].expiresAt)
        decreases todo
      {
        var tx :| tx in todo;
        todo := todo - {tx};
        if authorizeTransactions[tx].expiresAt <= now {
          authorizeTransactions := authorizeTransactions - {tx};
        }
      }
    }
  }
}
