/** Connection and presence accounting of the SSH server.

    `late-ssh/src/ssh.rs` counts connections per address, connections per user and tracked
    sessions in shared maps when a handler is created, authenticated or given a
    terminal, and takes them back when the handler is dropped.  `late-ssh/src/state.rs` keeps
    the set of users that are away.  Every step below is one section of that code under
    one lock, so a run is any interleaving of handlers. */
module Presence {
  import opened Wrappers
  import opened FiniteSets

  type Ip = int
  type User = int
  type Token = nat
  type Id = nat

  /** One live connection.  `tracked` records that its session was pushed; the other
      fields are the handler's own. */
  datatype Handler = Handler(
    peer: Option<Ip>,
    permit: bool,
    overLimit: bool,
    counted: bool,            // per_ip_incremented
    user: Option<User>,
    present: bool,            // active_user_incremented
    token: Option<Token>,
    tracked: bool)

  datatype Session = Session(token: Token, away: bool)
  datatype ActiveUser = ActiveUser(sessions: seq<Session>, connections: nat)

  /** The app of a session.  It belongs to the render loop and can outlive its handler. */
  datatype App = App(user: User, token: Token)

  /** An answer for the away set: whether the user is away, and whether that was so. */
  datatype Answer = Answer(away: bool, founded: bool)

  /** An update of the away set computed under one lock and not yet made under the other. */
  datatype AwayWrite = AwayWrite(user: User, answer: Answer)

  datatype World = World(
    limit: nat,               // max_conns_per_ip
    capacity: nat,            // conn_limit
    permits: nat,             // permits left
    counts: map<Ip, nat>,
    active: map<User, ActiveUser>,
    away: set<User>,
    handlers: map<Id, Handler>,
    nextToken: Token,
    apps: set<App>,
    pending: seq<AwayWrite>,
    computed: map<User, Answer>,  // per user, the answer computed last ...
    stored: map<User, Answer>)    // ... and the one stored last

  datatype Step =
    | Connect(id: Id, peer: Option<Ip>, allowed: bool)  // new_client_with_addrs
    | Authenticate(id: Id, u: User)                     // auth_publickey, accepting
    | OpenSession(id: Id)                               // ensure_cli_session
    | Track(id: Id)                                     // track_active_session_token
    | StartApp(id: Id)                                  // the rest of pty_request
    | SetAway(u: User, t: Token, value: bool)           // set_shared_session_afk of an app, first lock
    | StoreAway(i: nat)                                 // set_afk_user, second lock
    | Leave(id: Id)                                     // Drop, section on active_users
    | Close(id: Id)                                     // Drop, section on conn_counts, and the permit

  function CountOf(counts: map<Ip, nat>, ip: Ip): nat { if ip in counts then counts[ip] else 0 }

  predicate AnyAway(sessions: seq<Session>) {
    exists i :: 0 <= i < |sessions| && sessions[i].away
  }

  /** `sessions.retain(|session| session.token != token)`. */
  function Without(sessions: seq<Session>, token: Token): seq<Session> {
    if sessions == [] then []
    else (if sessions[0].token == token then [] else [sessions[0]]) + Without(sessions[1..], token)
  }

  /** Set the away flag of the first session with this token, if any. */
  function Marked(sessions: seq<Session>, token: Token, value: bool): seq<Session> {
    if sessions == [] then []
    else if sessions[0].token == token then [Session(token, value)] + sessions[1..]
    else [sessions[0]] + Marked(sessions[1..], token, value)
  }

  predicate HasToken(sessions: seq<Session>, token: Token) {
    exists i :: 0 <= i < |sessions| && sessions[i].token == token
  }

  predicate Live(w: World, id: Id) { id in w.handlers }

  predicate Enabled(w: World, step: Step) {
    match step
    case Connect(id, _, _) => !Live(w, id)
    case Authenticate(id, _) => Live(w, id) && !w.handlers[id].overLimit && w.handlers[id].user.None?
    case OpenSession(id) => Live(w, id) && w.handlers[id].present && w.handlers[id].token.None?
    case Track(id) => Live(w, id) && w.handlers[id].present && w.handlers[id].token.Some?
    case StartApp(id) => Live(w, id) && w.handlers[id].present && w.handlers[id].tracked && w.handlers[id].token.Some?
    case SetAway(u, t, _) => App(u, t) in w.apps
    case StoreAway(i) => i < |w.pending|
    case Leave(id) => Live(w, id) && w.handlers[id].present
    case Close(id) => Live(w, id) && !w.handlers[id].present
  }

  /** An answer is computed and on its way to the away set. */
  function AddAway(w: World, user: User, answer: Answer): World {
    w.(pending := w.pending + [AwayWrite(user, answer)], computed := w.computed[user := answer])
  }

  predicate UnderWay(pending: seq<AwayWrite>, user: User) {
    exists i :: 0 <= i < |pending| && pending[i].user == user
  }

  function Admitted(peer: Option<Ip>, counted: bool): Handler {
    Handler(peer, true, peer.Some? && !counted, counted, None, false, None, false)
  }

  /** new_client_with_addrs; `allowed` is the verdict of the attempt limiter. */
  function AfterConnect(w: World, id: Id, peer: Option<Ip>, allowed: bool): World {
    if w.permits == 0 then
      w.(handlers := w.handlers[id := Handler(peer, false, true, false, None, false, None, false)])
    else if peer.None? || !allowed then
      w.(permits := w.permits - 1, handlers := w.handlers[id := Admitted(peer, false)])
    else
      var n := CountOf(w.counts, peer.value);
      w.(permits := w.permits - 1,
         counts := w.counts[peer.value := if n >= w.limit then n else n + 1],
         handlers := w.handlers[id := Admitted(peer, n < w.limit)])
  }

  /** The counting part of auth_publickey. */
  function AfterAuthenticate(w: World, id: Id, u: User): World
    requires Live(w, id)
  {
    var entry := if u in w.active then w.active[u].(connections := w.active[u].connections + 1)
                 else ActiveUser([], 1);
    w.(active := w.active[u := entry],
       handlers := w.handlers[id := w.handlers[id].(user := Some(u), present := true)])
  }

  function AfterOpenSession(w: World, id: Id): World
    requires Live(w, id)
  {
    w.(nextToken := w.nextToken + 1, handlers := w.handlers[id := w.handlers[id].(token := Some(w.nextToken))])
  }

  /** track_active_session_token. */
  function AfterTrack(w: World, id: Id): World
    requires Live(w, id) && w.handlers[id].token.Some?
  {
    var h := w.handlers[id];
    if h.user.None? || h.user.value !in w.active then w
    else
      var entry := w.active[h.user.value];
      if HasToken(entry.sessions, h.token.value) then w
      else w.(active := w.active[h.user.value := entry.(sessions := entry.sessions + [Session(h.token.value, false)])],
              handlers := w.handlers[id := h.(tracked := true)])
  }

  function AfterStartApp(w: World, id: Id): World
    requires Live(w, id) && w.handlers[id].token.Some?
  {
    var h := w.handlers[id];
    if h.user.None? then w else w.(apps := w.apps + {App(h.user.value, h.token.value)})
  }

  function SessionsOf(active: map<User, ActiveUser>, u: User): seq<Session> {
    if u in active then active[u].sessions else []
  }

  /** An app whose session is not listed asks for away while no session of the user is away. */
  predicate Unfounded(w: World, u: User, t: Token, value: bool) {
    value && !HasToken(SessionsOf(w.active, u), t) && !AnyAway(SessionsOf(w.active, u))
  }

  /** What set_shared_session_afk is to store. */
  function AwayAnswer(sessions: seq<Session>, t: Token, value: bool): bool {
    AnyAway(Marked(sessions, t, value)) || (value && !HasToken(sessions, t))
  }

  /** set_shared_session_afk, up to the second lock. */
  function AfterSetAway(w: World, u: User, t: Token, value: bool): World {
    var founded := !Unfounded(w, u, t, value);
    if u !in w.active then AddAway(w, u, Answer(value, founded))
    else
      var entry := w.active[u];
      AddAway(w.(active := w.active[u := entry.(sessions := Marked(entry.sessions, t, value))]), u,
              Answer(AwayAnswer(entry.sessions, t, value), founded))
  }

  /** set_afk_user. */
  function AfterStoreAway(w: World, i: nat): World
    requires i < |w.pending|
  {
    var write := w.pending[i];
    w.(away := if write.answer.away then w.away + {write.user} else w.away - {write.user},
       stored := w.stored[write.user := write.answer],
       pending := w.pending[..i] + w.pending[i + 1..])
  }

  /** Drop, the section on active_users. */
  function AfterLeave(w: World, id: Id): World
    requires Live(w, id)
  {
    var h := w.handlers[id];
    var gone := w.(handlers := w.handlers[id := h.(present := false, tracked := false)]);
    if h.user.None? then gone
    else if h.user.value !in w.active then AddAway(gone, h.user.value, Answer(false, true))
    else
      var entry := w.active[h.user.value];
      var sessions := if h.token.Some? then Without(entry.sessions, h.token.value) else entry.sessions;
      if entry.connections <= 1 then
        AddAway(gone.(active := w.active - {h.user.value}), h.user.value, Answer(false, true))
      else
        AddAway(gone.(active := w.active[h.user.value := ActiveUser(sessions, entry.connections - 1)]),
                h.user.value, Answer(AnyAway(sessions), true))
  }

  /** Drop, the section on conn_counts, and the release of the permit. */
  function AfterClose(w: World, id: Id): World
    requires Live(w, id)
  {
    var h := w.handlers[id];
    var gone := w.(handlers := w.handlers - {id}, permits := if h.permit then w.permits + 1 else w.permits);
    if h.overLimit || !h.counted || h.peer.None? || h.peer.value !in w.counts then gone
    else if w.counts[h.peer.value] <= 1 then gone.(counts := w.counts - {h.peer.value})
    else gone.(counts := w.counts[h.peer.value := w.counts[h.peer.value] - 1])
  }

  function Apply(w: World, step: Step): World
    requires Enabled(w, step)
  {
    match step
    case Connect(id, peer, allowed) => AfterConnect(w, id, peer, allowed)
    case Authenticate(id, u) => AfterAuthenticate(w, id, u)
    case OpenSession(id) => AfterOpenSession(w, id)
    case Track(id) => AfterTrack(w, id)
    case StartApp(id) => AfterStartApp(w, id)
    case SetAway(u, t, value) => AfterSetAway(w, u, t, value)
    case StoreAway(i) => AfterStoreAway(w, i)
    case Leave(id) => AfterLeave(w, id)
    case Close(id) => AfterClose(w, id)
  }

  // --------------------------------------------------------------- what is conserved

  ghost function CountedFrom(handlers: map<Id, Handler>, ip: Ip): set<Id> {
    set id | id in handlers && handlers[id].counted && handlers[id].peer == Some(ip)
  }

  ghost function PresentAs(handlers: map<Id, Handler>, u: User): set<Id> {
    set id | id in handlers && handlers[id].present && handlers[id].user == Some(u)
  }

  ghost function Holding(handlers: map<Id, Handler>): set<Id> {
    set id | id in handlers && handlers[id].permit
  }

  predicate Sound(h: Handler, nextToken: Token) {
    && (h.counted ==> !h.overLimit && h.peer.Some?)
    && (h.present ==> h.user.Some?)
    && (h.tracked ==> h.present && h.token.Some?)
    && (h.token.Some? ==> h.token.value < nextToken)
  }

  /** A counted handler is admitted and has an address, only an admitted one is present,
      and tokens are handed out once. */
  ghost predicate HandlerInv(w: World) {
    && (forall id :: id in w.handlers ==> Sound(w.handlers[id], w.nextToken))
    && (forall a, b :: a in w.handlers && b in w.handlers && a != b && w.handlers[a].token.Some? ==>
          w.handlers[a].token != w.handlers[b].token)
  }

  ghost predicate PermitInv(w: World) {
    w.permits + |Holding(w.handlers)| == w.capacity
  }

  /** Per address, the count is the number of counted handlers and within the limit;
      there is an entry only for a positive count, unless the limit is zero. */
  ghost predicate CountInv(w: World) {
    forall ip :: CountAt(w.counts, w.handlers, w.limit, ip)
  }

  ghost predicate CountAt(counts: map<Ip, nat>, handlers: map<Id, Handler>, limit: nat, ip: Ip) {
    CountOf(counts, ip) == |CountedFrom(handlers, ip)| && CountOf(counts, ip) <= limit &&
    (ip in counts && limit > 0 ==> counts[ip] > 0)
  }

  /** Per user, the entry exists while a handler is present and counts them. */
  ghost predicate UserInv(w: World) {
    forall u :: UserAt(w.active, w.handlers, u)
  }

  ghost predicate UserAt(active: map<User, ActiveUser>, handlers: map<Id, Handler>, u: User) {
    ConnectionsOf(active, u) == |PresentAs(handlers, u)| && (u in active ==> active[u].connections > 0)
  }

  function ConnectionsOf(active: map<User, ActiveUser>, u: User): nat {
    if u in active then active[u].connections else 0
  }

  // --------------------------------------------------------------- counters are kept

  lemma CountedUpdate(handlers: map<Id, Handler>, id: Id, h: Handler, ip: Ip)
    ensures var rest := CountedFrom(handlers - {id}, ip);
            && id !in rest
            && CountedFrom(handlers[id := h], ip) == (if h.counted && h.peer == Some(ip) then rest + {id} else rest)
  {
  }

  lemma PresentUpdate(handlers: map<Id, Handler>, id: Id, h: Handler, u: User)
    ensures var rest := PresentAs(handlers - {id}, u);
            && id !in rest
            && PresentAs(handlers[id := h], u) == (if h.present && h.user == Some(u) then rest + {id} else rest)
  {
  }

  lemma HoldingUpdate(handlers: map<Id, Handler>, id: Id, h: Handler)
    ensures var rest := Holding(handlers - {id});
            && id !in rest
            && Holding(handlers[id := h]) == (if h.permit then rest + {id} else rest)
  {
  }

  /** A live handler is the update of the map without it. */
  lemma Reinsert(handlers: map<Id, Handler>, id: Id)
    ensures id in handlers ==> handlers == handlers[id := handlers[id]]
    ensures id !in handlers ==> handlers == handlers - {id}
  {
  }

  ghost predicate Conserved(w: World) {
    HandlerInv(w) && PermitInv(w) && CountInv(w) && UserInv(w)
  }

  lemma ChangedHandler(w: World, w': World, id: Id)
    requires HandlerInv(w) && id in w'.handlers && w'.handlers == w.handlers[id := w'.handlers[id]]
    requires w.nextToken <= w'.nextToken && Sound(w'.handlers[id], w'.nextToken)
    requires w'.handlers[id].token.Some? ==>
               w'.handlers[id].token.value >= w.nextToken || (Live(w, id) && w'.handlers[id].token == w.handlers[id].token)
    ensures HandlerInv(w')
  {
  }

  /** A step that leaves a handler's address, permit and admission alone keeps counts and permits. */
  lemma SameAdmission(w: World, w': World, id: Id)
    requires PermitInv(w) && CountInv(w) && Live(w, id) && Live(w', id)
    requires w'.handlers == w.handlers[id := w'.handlers[id]]
    requires var h, h' := w.handlers[id], w'.handlers[id]; h'.permit == h.permit && h'.counted == h.counted && h'.peer == h.peer
    requires w'.limit == w.limit && w'.capacity == w.capacity && w'.permits == w.permits && w'.counts == w.counts
    ensures PermitInv(w') && CountInv(w')
  {
    assert Holding(w'.handlers) == Holding(w.handlers);
    forall ip ensures CountAt(w'.counts, w'.handlers, w'.limit, ip) {
      assert CountAt(w.counts, w.handlers, w.limit, ip);
      assert CountedFrom(w'.handlers, ip) == CountedFrom(w.handlers, ip);
    }
  }

  /** A step on a handler that is not present, before or after, keeps users. */
  lemma SamePresence(w: World, w': World)
    requires UserInv(w) && forall u :: ConnectionsOf(w'.active, u) == ConnectionsOf(w.active, u)
    requires forall u :: u in w'.active ==> u in w.active
    requires forall u :: PresentAs(w'.handlers, u) == PresentAs(w.handlers, u)
    ensures UserInv(w')
  {
    forall u ensures UserAt(w'.active, w'.handlers, u) {
      assert UserAt(w.active, w.handlers, u);
    }
  }

  /** The handler new_client_with_addrs makes. */
  function NewHandler(w: World, peer: Option<Ip>, allowed: bool): Handler {
    if w.permits == 0 then Handler(peer, false, true, false, None, false, None, false)
    else Admitted(peer, peer.Some? && allowed && CountOf(w.counts, peer.value) < w.limit)
  }

  lemma ConnectMakes(w: World, id: Id, peer: Option<Ip>, allowed: bool)
    ensures var w', h := AfterConnect(w, id, peer, allowed), NewHandler(w, peer, allowed);
            && w'.handlers == w.handlers[id := h] && Sound(h, w.nextToken) && h.token.None? && !h.present
            && w'.permits == w.permits - (if h.permit then 1 else 0) && w'.capacity == w.capacity
            && w'.active == w.active && w'.limit == w.limit && w'.nextToken == w.nextToken
  {
  }

  lemma ConnectCountsOne(w: World, id: Id, peer: Option<Ip>, allowed: bool, ip: Ip)
    ensures var w', h := AfterConnect(w, id, peer, allowed), NewHandler(w, peer, allowed);
            && CountOf(w'.counts, ip) == CountOf(w.counts, ip) + (if h.counted && h.peer == Some(ip) then 1 else 0)
            && (h.counted && h.peer == Some(ip) ==> CountOf(w.counts, ip) < w.limit)
            && (ip in w'.counts ==> ip in w.counts || w'.counts[ip] > 0 || w.limit == 0)
  {
  }

  /** One counted handler more from its address, and from no other. */
  lemma CountedMore(handlers: map<Id, Handler>, id: Id, h: Handler, ip: Ip)
    requires id !in handlers
    ensures |CountedFrom(handlers[id := h], ip)| == |CountedFrom(handlers, ip)| + (if h.counted && h.peer == Some(ip) then 1 else 0)
  {
    Reinsert(handlers, id);
    CountedUpdate(handlers, id, h, ip);
  }

  lemma ConnectCounts(w: World, id: Id, peer: Option<Ip>, allowed: bool)
    requires CountInv(w) && !Live(w, id)
    ensures CountInv(AfterConnect(w, id, peer, allowed))
  {
    var w', h := AfterConnect(w, id, peer, allowed), NewHandler(w, peer, allowed);
    ConnectMakes(w, id, peer, allowed);
    forall ip ensures CountAt(w'.counts, w'.handlers, w.limit, ip) {
      assert CountAt(w.counts, w.handlers, w.limit, ip);
      CountedMore(w.handlers, id, h, ip);
      ConnectCountsOne(w, id, peer, allowed, ip);
    }
  }

  lemma ConnectConserves(w: World, id: Id, peer: Option<Ip>, allowed: bool)
    requires Conserved(w) && !Live(w, id)
    ensures Conserved(AfterConnect(w, id, peer, allowed))
  {
    ConnectMakes(w, id, peer, allowed);
    ConnectCounts(w, id, peer, allowed);
    var w' := AfterConnect(w, id, peer, allowed);
    var h := NewHandler(w, peer, allowed);
    Reinsert(w.handlers, id);
    ChangedHandler(w, w', id);
    HoldingUpdate(w.handlers, id, h);
    forall u ensures PresentAs(w'.handlers, u) == PresentAs(w.handlers, u) {
      PresentUpdate(w.handlers, id, h, u);
    }
    SamePresence(w, w');
  }

  lemma CloseConserves(w: World, id: Id)
    requires Conserved(w) && Live(w, id) && !w.handlers[id].present
    ensures Conserved(AfterClose(w, id))
  {
    CloseFrees(w, id);
    CloseCounts(w, id);
    CloseKeepsUsers(w, id);
  }

  lemma CloseFrees(w: World, id: Id)
    requires HandlerInv(w) && PermitInv(w) && Live(w, id)
    ensures HandlerInv(AfterClose(w, id)) && PermitInv(AfterClose(w, id))
  {
    CloseLeaves(w, id);
    Reinsert(w.handlers, id);
    HoldingUpdate(w.handlers, id, w.handlers[id]);
  }

  lemma CloseLeaves(w: World, id: Id)
    requires Live(w, id)
    ensures var w' := AfterClose(w, id);
            && w'.handlers == w.handlers - {id} && w'.nextToken == w.nextToken && w'.capacity == w.capacity
            && w'.permits == w.permits + (if w.handlers[id].permit then 1 else 0)
  {
  }

  lemma CloseKeepsUsers(w: World, id: Id)
    requires UserInv(w) && Live(w, id) && !w.handlers[id].present
    ensures UserInv(AfterClose(w, id))
  {
    Reinsert(w.handlers, id);
    forall u ensures PresentAs(w.handlers - {id}, u) == PresentAs(w.handlers, u) {
      PresentUpdate(w.handlers, id, w.handlers[id], u);
    }
    SamePresence(w, AfterClose(w, id));
  }

  /** A counted handler takes its count back, and no other count changes. */
  lemma CloseTakesBack(w: World, id: Id, ip: Ip)
    requires Live(w, id) && Sound(w.handlers[id], w.nextToken)
    requires w.handlers[id].counted ==> CountOf(w.counts, w.handlers[id].peer.value) > 0
    ensures var w', h := AfterClose(w, id), w.handlers[id];
            && CountOf(w'.counts, ip) == CountOf(w.counts, ip) - (if h.counted && h.peer == Some(ip) then 1 else 0)
            && (ip in w'.counts && w'.counts[ip] == 0 ==> ip in w.counts && w.counts[ip] == 0)
  {
  }

  /** One counted handler fewer from its address, and from no other. */
  lemma CountedLess(handlers: map<Id, Handler>, id: Id, ip: Ip)
    requires id in handlers
    ensures |CountedFrom(handlers - {id}, ip)|
         == |CountedFrom(handlers, ip)| - (if handlers[id].counted && handlers[id].peer == Some(ip) then 1 else 0)
  {
    Reinsert(handlers, id);
    CountedUpdate(handlers, id, handlers[id], ip);
  }

  lemma CloseCounts(w: World, id: Id)
    requires HandlerInv(w) && CountInv(w) && Live(w, id)
    ensures CountInv(AfterClose(w, id))
  {
    var h := w.handlers[id];
    assert Sound(h, w.nextToken);
    if h.counted {
      assert id in CountedFrom(w.handlers, h.peer.value);
      assert CountAt(w.counts, w.handlers, w.limit, h.peer.value);
    }
    var w' := AfterClose(w, id);
    forall ip ensures CountAt(w'.counts, w'.handlers, w.limit, ip) {
      assert CountAt(w.counts, w.handlers, w.limit, ip);
      CountedLess(w.handlers, id, ip);
      CloseTakesBack(w, id, ip);
    }
  }

  lemma AuthenticateConserves(w: World, id: Id, u: User)
    requires Conserved(w) && Live(w, id) && w.handlers[id].user.None?
    ensures Conserved(AfterAuthenticate(w, id, u))
  {
    var w' := AfterAuthenticate(w, id, u);
    Reinsert(w.handlers, id);
    ChangedHandler(w, w', id);
    SameAdmission(w, w', id);
    AuthenticateUsers(w, id, u);
  }

  /** One handler more is present as its user, and as nobody else. */
  lemma PresentMore(handlers: map<Id, Handler>, id: Id, u: User, v: User)
    requires id in handlers && !handlers[id].present
    ensures |PresentAs(handlers[id := handlers[id].(user := Some(u), present := true)], v)|
         == |PresentAs(handlers, v)| + (if u == v then 1 else 0)
  {
    var h := handlers[id];
    Reinsert(handlers, id);
    PresentUpdate(handlers, id, h, v);
    PresentUpdate(handlers, id, h.(user := Some(u), present := true), v);
  }

  lemma AuthenticateUsers(w: World, id: Id, u: User)
    requires HandlerInv(w) && UserInv(w) && Live(w, id) && w.handlers[id].user.None?
    ensures UserInv(AfterAuthenticate(w, id, u))
  {
    var w' := AfterAuthenticate(w, id, u);
    assert Sound(w.handlers[id], w.nextToken);
    forall v ensures UserAt(w'.active, w'.handlers, v) {
      assert UserAt(w.active, w.handlers, v);
      PresentMore(w.handlers, id, u, v);
    }
  }

  lemma LeaveConserves(w: World, id: Id)
    requires Conserved(w) && Live(w, id) && w.handlers[id].present
    ensures Conserved(AfterLeave(w, id))
  {
    var w' := AfterLeave(w, id);
    Reinsert(w.handlers, id);
    ChangedHandler(w, w', id);
    SameAdmission(w, w', id);
    LeaveUsers(w, id);
  }

  /** A drop takes one connection from its user's entry, and the entry with the last. */
  lemma LeaveTakesOne(w: World, id: Id, v: User)
    requires Live(w, id) && w.handlers[id].user.Some? && ConnectionsOf(w.active, w.handlers[id].user.value) > 0
    requires v in w.active ==> w.active[v].connections > 0
    ensures var w' := AfterLeave(w, id);
            && ConnectionsOf(w'.active, v) == ConnectionsOf(w.active, v) - (if w.handlers[id].user == Some(v) then 1 else 0)
            && (v in w'.active ==> w'.active[v].connections > 0)
  {
  }

  lemma LeaveHandlers(w: World, id: Id)
    requires Live(w, id)
    ensures AfterLeave(w, id).handlers == w.handlers[id := w.handlers[id].(present := false, tracked := false)]
  {
  }

  /** One handler fewer is present as its user, and as nobody else. */
  lemma PresentLess(handlers: map<Id, Handler>, id: Id, v: User)
    requires id in handlers && handlers[id].present && handlers[id].user.Some?
    ensures var h := handlers[id];
            |PresentAs(handlers[id := h.(present := false, tracked := false)], v)|
            == |PresentAs(handlers, v)| - (if h.user == Some(v) then 1 else 0)
  {
    var h := handlers[id];
    Reinsert(handlers, id);
    PresentUpdate(handlers, id, h, v);
    PresentUpdate(handlers, id, h.(present := false, tracked := false), v);
  }

  lemma LeaveUsers(w: World, id: Id)
    requires HandlerInv(w) && UserInv(w) && Live(w, id) && w.handlers[id].present
    ensures UserInv(AfterLeave(w, id))
  {
    assert Sound(w.handlers[id], w.nextToken);
    var u := w.handlers[id].user.value;
    LeaveHandlers(w, id);
    assert id in PresentAs(w.handlers, u);
    assert UserAt(w.active, w.handlers, u);
    var w' := AfterLeave(w, id);
    forall v ensures UserAt(w'.active, w'.handlers, v) {
      assert UserAt(w.active, w.handlers, v);
      LeaveTakesOne(w, id, v);
      PresentLess(w.handlers, id, v);
    }
  }

  /** The remaining steps on a handler touch neither its presence nor any connection count. */
  lemma SessionStepConserves(w: World, step: Step)
    requires Conserved(w) && Enabled(w, step)
    requires step.OpenSession? || step.Track?
    ensures Conserved(Apply(w, step))
  {
    var w' := Apply(w, step);
    var id := step.id;
    Reinsert(w.handlers, id);
    assert Sound(w.handlers[id], w.nextToken);
    assert w'.handlers == w.handlers[id := w'.handlers[id]];
    ChangedHandler(w, w', id);
    SameAdmission(w, w', id);
    forall v ensures PresentAs(w'.handlers, v) == PresentAs(w.handlers, v) {
      PresentUpdate(w.handlers, id, w.handlers[id], v);
      PresentUpdate(w.handlers, id, w'.handlers[id], v);
    }
    SamePresence(w, w');
  }

  /** Marking a session changes no connection count and no handler. */
  lemma SetAwayConserves(w: World, u: User, t: Token, value: bool)
    requires Conserved(w)
    ensures Conserved(AfterSetAway(w, u, t, value))
  {
    var w' := AfterSetAway(w, u, t, value);
    assert w'.handlers == w.handlers;
    SamePresence(w, w');
  }

  lemma StepConserves(w: World, step: Step)
    requires Conserved(w) && Enabled(w, step)
    ensures Conserved(Apply(w, step))
  {
    match step
    case Connect(id, peer, allowed) => ConnectConserves(w, id, peer, allowed);
    case Authenticate(id, u) => AuthenticateConserves(w, id, u);
    case StartApp(_) =>
    case SetAway(u, t, value) => SetAwayConserves(w, u, t, value);
    case StoreAway(_) =>
    case Leave(id) => LeaveConserves(w, id);
    case Close(id) => CloseConserves(w, id);
    case _ => SessionStepConserves(w, step);
  }

  // --------------------------------------------------------------- sessions are kept

  ghost predicate Tracks(handlers: map<Id, Handler>, u: User, t: Token) {
    exists id :: id in handlers && handlers[id].tracked && handlers[id].user == Some(u) && handlers[id].token == Some(t)
  }

  predicate Listed(active: map<User, ActiveUser>, u: User, t: Token) {
    u in active && HasToken(active[u].sessions, t)
  }

  predicate Distinct(sessions: seq<Session>) {
    forall i, j :: 0 <= i < j < |sessions| ==> sessions[i].token != sessions[j].token
  }

  /** The sessions listed under a user are exactly those its live handlers tracked, once each. */
  ghost predicate SessionInv(w: World) {
    && (forall u :: u in w.active ==> Distinct(w.active[u].sessions))
    && (forall u, t :: Listed(w.active, u, t) <==> Tracks(w.handlers, u, t))
  }

  lemma {:induction false} WithoutIs(sessions: seq<Session>, token: Token)
    requires Distinct(sessions)
    ensures var rest := Without(sessions, token);
            && Distinct(rest)
            && (forall t :: HasToken(rest, t) <==> HasToken(sessions, t) && t != token)
    decreases |sessions|
  {
    if sessions != [] {
      var tail := sessions[1..];
      var rest := Without(tail, token);
      WithoutIs(tail, token);
      PrependToken(sessions[0], tail);
      if sessions[0].token != token {
        PrependToken(sessions[0], rest);
        assert Without(sessions, token) == [sessions[0]] + rest;
        assert !HasToken(tail, sessions[0].token);
        assert !HasToken(rest, sessions[0].token);
      } else {
        assert Without(sessions, token) == rest;
        assert !HasToken(tail, token);
      }
    }
  }

  lemma PrependToken(first: Session, tail: seq<Session>)
    ensures forall t :: HasToken([first] + tail, t) <==> t == first.token || HasToken(tail, t)
    ensures AnyAway([first] + tail) <==> first.away || AnyAway(tail)
  {
    var all := [first] + tail;
    assert all[0] == first && forall i :: 0 <= i < |tail| ==> all[i + 1] == tail[i];
    assert forall i :: 1 <= i < |all| ==> all[i] == tail[i - 1];
  }

  lemma {:induction false} MarkedIs(sessions: seq<Session>, token: Token, value: bool)
    ensures var marked := Marked(sessions, token, value);
            && |marked| == |sessions|
            && (forall i :: 0 <= i < |sessions| ==> marked[i].token == sessions[i].token)
            && (HasToken(sessions, token) && value ==> AnyAway(marked))
            && (!HasToken(sessions, token) ==> marked == sessions)
    decreases |sessions|
  {
    if sessions != [] && sessions[0].token != token {
      MarkedIs(sessions[1..], token, value);
      PrependToken(sessions[0], sessions[1..]);
      PrependToken(sessions[0], Marked(sessions[1..], token, value));
    } else if sessions != [] {
      PrependToken(Session(token, value), sessions[1..]);
    }
  }

  lemma AppendToken(sessions: seq<Session>, last: Session)
    ensures forall t :: HasToken(sessions + [last], t) <==> HasToken(sessions, t) || t == last.token
    ensures AnyAway(sessions + [last]) <==> AnyAway(sessions) || last.away
  {
    var all := sessions + [last];
    assert all[|sessions|] == last && forall i :: 0 <= i < |sessions| ==> all[i] == sessions[i];
  }

  lemma TrackKeepsSessions(w: World, id: Id)
    requires Conserved(w) && SessionInv(w) && Enabled(w, Track(id))
    ensures SessionInv(AfterTrack(w, id))
  {
    var w' := AfterTrack(w, id);
    var h := w.handlers[id];
    if w' != w {
      var u, t := h.user.value, h.token.value;
      AppendToken(w.active[u].sessions, Session(t, false));
      assert w'.handlers[id].tracked;
      forall v: User, k: Token ensures Tracks(w'.handlers, v, k) <==> Tracks(w.handlers, v, k) || (v == u && k == t) {
        if x :| x in w.handlers && w.handlers[x].tracked && w.handlers[x].user == Some(v) && w.handlers[x].token == Some(k) {
          assert w'.handlers[x].tracked;
        }
        if v == u && k == t {
          assert w'.handlers[id].user == Some(v) && w'.handlers[id].token == Some(k);
        }
      }
    }
  }

  lemma SetAwayKeepsSessions(w: World, u: User, t: Token, value: bool)
    requires SessionInv(w)
    ensures SessionInv(AfterSetAway(w, u, t, value))
  {
    var w' := AfterSetAway(w, u, t, value);
    if u in w.active {
      MarkedIs(w.active[u].sessions, t, value);
      forall k ensures HasToken(w'.active[u].sessions, k) <==> HasToken(w.active[u].sessions, k) {
        if i :| 0 <= i < |w.active[u].sessions| && w.active[u].sessions[i].token == k {
          assert w'.active[u].sessions[i].token == k;
        }
      }
      forall v: User, k: Token ensures Listed(w'.active, v, k) <==> Listed(w.active, v, k) {
      }
    }
  }

  /** When the last connection of a user leaves, no other handler of that user is present. */
  lemma LastOneOut(w: World, id: Id, other: Id)
    requires Conserved(w) && Live(w, id) && Live(w, other) && id != other
    requires w.handlers[id].present && w.handlers[other].present && w.handlers[id].user == w.handlers[other].user
    ensures w.handlers[id].user.value in w.active && w.active[w.handlers[id].user.value].connections > 1
  {
    var u := w.handlers[id].user.value;
    assert Sound(w.handlers[id], w.nextToken);
    assert {id, other} <= PresentAs(w.handlers, u);
    SubsetSize({id, other}, PresentAs(w.handlers, u));
    assert UserAt(w.active, w.handlers, u);
  }

  lemma LeaveKeepsSessions(w: World, id: Id)
    requires Conserved(w) && SessionInv(w) && Enabled(w, Leave(id))
    ensures SessionInv(AfterLeave(w, id))
  {
    var w' := AfterLeave(w, id);
    var h := w.handlers[id];
    assert Sound(h, w.nextToken);
    var u := h.user.value;
    if u in w.active && h.token.Some? {
      WithoutIs(w.active[u].sessions, h.token.value);
    }
    forall v: User, t: Token ensures Listed(w'.active, v, t) <==> Tracks(w'.handlers, v, t) {
      LeaveTracks(w, id, v, t);
      assert Listed(w.active, v, t) <==> Tracks(w.handlers, v, t);
      if v == u && u in w.active && w.active[u].connections <= 1 && Tracks(w'.handlers, v, t) {
        var x :| x in w'.handlers && w'.handlers[x].tracked && w'.handlers[x].user == Some(v) && w'.handlers[x].token == Some(t);
        assert Sound(w.handlers[x], w.nextToken);
        LastOneOut(w, id, x);
      }
    }
  }

  /** After a handler leaves, exactly its own session is no longer tracked. */
  lemma LeaveTracks(w: World, id: Id, u: User, t: Token)
    requires HandlerInv(w) && Enabled(w, Leave(id))
    ensures Tracks(AfterLeave(w, id).handlers, u, t) <==> Tracks(w.handlers, u, t) && w.handlers[id].token != Some(t)
  {
    var after := AfterLeave(w, id).handlers;
    assert after == w.handlers[id := after[id]];
    if x :| x in w.handlers && w.handlers[x].tracked && w.handlers[x].user == Some(u) && w.handlers[x].token == Some(t) {
      if w.handlers[id].token != Some(t) {
        assert after[x].tracked;
      }
    }
  }

  lemma AuthenticateKeepsSessions(w: World, id: Id, u: User)
    requires HandlerInv(w) && SessionInv(w) && Enabled(w, Authenticate(id, u))
    ensures SessionInv(AfterAuthenticate(w, id, u))
  {
    assert Sound(w.handlers[id], w.nextToken);
    SameTracking(w, AfterAuthenticate(w, id, u), id);
  }

  lemma OpenSessionKeepsSessions(w: World, id: Id)
    requires HandlerInv(w) && SessionInv(w) && Enabled(w, OpenSession(id))
    ensures SessionInv(AfterOpenSession(w, id))
  {
    assert Sound(w.handlers[id], w.nextToken);
    SameTracking(w, AfterOpenSession(w, id), id);
  }

  lemma CloseKeepsSessions(w: World, id: Id)
    requires HandlerInv(w) && SessionInv(w) && Enabled(w, Close(id))
    ensures SessionInv(AfterClose(w, id))
  {
    assert Sound(w.handlers[id], w.nextToken);
    SameTracking(w, AfterClose(w, id), id);
  }

  lemma StepKeepsSessions(w: World, step: Step)
    requires Conserved(w) && SessionInv(w) && Enabled(w, step)
    ensures SessionInv(Apply(w, step))
  {
    match step
    case Connect(id, peer, allowed) =>
      ConnectMakes(w, id, peer, allowed);
      SameTracking(w, AfterConnect(w, id, peer, allowed), id);
    case Authenticate(id, u) => AuthenticateKeepsSessions(w, id, u);
    case OpenSession(id) => OpenSessionKeepsSessions(w, id);
    case Track(id) => TrackKeepsSessions(w, id);
    case StartApp(_) =>
    case SetAway(u, t, value) => SetAwayKeepsSessions(w, u, t, value);
    case StoreAway(_) =>
    case Leave(id) => LeaveKeepsSessions(w, id);
    case Close(id) => CloseKeepsSessions(w, id);
  }

  /** A step on a handler that tracks nothing before and after keeps sessions. */
  lemma SameTracking(w: World, w': World, id: Id)
    requires SessionInv(w)
    requires w'.handlers - {id} == w.handlers - {id}
    requires id in w.handlers ==> !w.handlers[id].tracked
    requires id in w'.handlers ==> !w'.handlers[id].tracked
    requires forall u :: u in w.active ==> u in w'.active && w'.active[u].sessions == w.active[u].sessions
    requires forall u :: u in w'.active && u !in w.active ==> w'.active[u].sessions == []
    ensures SessionInv(w')
  {
    forall u: User, t: Token ensures Tracks(w'.handlers, u, t) <==> Tracks(w.handlers, u, t) {
      if x :| x in w.handlers && w.handlers[x].tracked && w.handlers[x].user == Some(u) && w.handlers[x].token == Some(t) {
        assert x in w.handlers - {id} && (w'.handlers - {id})[x] == w.handlers[x];
        assert w'.handlers[x].tracked;
      }
      if x :| x in w'.handlers && w'.handlers[x].tracked && w'.handlers[x].user == Some(u) && w'.handlers[x].token == Some(t) {
        assert x in w'.handlers - {id} && (w.handlers - {id})[x] == w'.handlers[x];
        assert w.handlers[x].tracked;
      }
    }
    forall u: User, t: Token ensures Listed(w'.active, u, t) <==> Listed(w.active, u, t) {
    }
  }

  // --------------------------------------------------------------- the away set

  /** Some session of the user is away. */
  predicate AwayNow(w: World, u: User) { u in w.active && AnyAway(w.active[u].sessions) }

  /** The away set holds the answers stored last; every answer computed is under way or was
      stored; and the answer computed last is right exactly when it was founded. */
  ghost predicate AwayInv(w: World) { forall u :: AwayAt(w, u) }

  predicate AwayAt(w: World, u: User) {
    && (u in w.away <==> u in w.stored && w.stored[u].away)
    && (u in w.stored ==> u in w.computed)
    && (u in w.computed ==> UnderWay(w.pending, u) || u in w.stored)
    && (u !in w.computed ==> !AwayNow(w, u) && !UnderWay(w.pending, u))
    && (u in w.computed ==> w.computed[u].away == (AwayNow(w, u) == w.computed[u].founded))
  }

  lemma UnderWayAppend(pending: seq<AwayWrite>, last: AwayWrite, u: User)
    ensures UnderWay(pending + [last], u) <==> UnderWay(pending, u) || u == last.user
  {
    var all := pending + [last];
    assert all[|pending|] == last && forall i :: 0 <= i < |pending| ==> all[i] == pending[i];
  }

  lemma UnderWayRemove(pending: seq<AwayWrite>, i: nat, u: User)
    requires i < |pending| && u != pending[i].user
    ensures UnderWay(pending[..i] + pending[i + 1..], u) <==> UnderWay(pending, u)
  {
    var rest := pending[..i] + pending[i + 1..];
    if j :| 0 <= j < |pending| && pending[j].user == u {
      assert rest[if j < i then j else j - 1].user == u;
    }
    assert forall j :: 0 <= j < |rest| ==> rest[j] == pending[if j < i then j else j + 1];
  }

  /** Changing one user's sessions and sending the new answer on its way. */
  lemma AddAwayKeeps(w: World, v: World, user: User, answer: Answer)
    requires AwayInv(w)
    requires v.pending == w.pending && v.computed == w.computed && v.stored == w.stored && v.away == w.away
    requires forall u :: u != user ==> AwayNow(v, u) == AwayNow(w, u)
    requires answer.away == (AwayNow(v, user) == answer.founded)
    ensures AwayInv(AddAway(v, user, answer))
  {
    var w' := AddAway(v, user, answer);
    forall u ensures AwayAt(w', u) {
      assert AwayAt(w, u);
      UnderWayAppend(w.pending, AwayWrite(user, answer), u);
    }
  }

  /** A step that leaves every user's answer alone. */
  lemma SameAway(w: World, w': World)
    requires AwayInv(w)
    requires w'.pending == w.pending && w'.computed == w.computed && w'.stored == w.stored && w'.away == w.away
    requires forall u :: AwayNow(w', u) == AwayNow(w, u)
    ensures AwayInv(w')
  {
    forall u ensures AwayAt(w', u) {
      assert AwayAt(w, u);
    }
  }

  lemma StoreAwayKeeps(w: World, i: nat)
    requires AwayInv(w) && i < |w.pending|
    ensures AwayInv(AfterStoreAway(w, i))
  {
    var w' := AfterStoreAway(w, i);
    var user := w.pending[i].user;
    assert UnderWay(w.pending, user);
    forall u ensures AwayAt(w', u) {
      assert AwayAt(w, u);
      assert AwayNow(w', u) == AwayNow(w, u);
      if u != user {
        UnderWayRemove(w.pending, i, u);
      }
    }
  }

  lemma SetAwayKeeps(w: World, u: User, t: Token, value: bool)
    requires AwayInv(w)
    ensures AwayInv(AfterSetAway(w, u, t, value))
  {
    var sessions := SessionsOf(w.active, u);
    MarkedIs(sessions, t, value);
    var founded := !Unfounded(w, u, t, value);
    if u in w.active {
      var v := w.(active := w.active[u := w.active[u].(sessions := Marked(sessions, t, value))]);
      AddAwayKeeps(w, v, u, Answer(AwayAnswer(sessions, t, value), founded));
    } else {
      AddAwayKeeps(w, w, u, Answer(value, founded));
    }
  }

  /** A present handler's user has an entry. */
  lemma PresentHasEntry(w: World, id: Id)
    requires Conserved(w) && Live(w, id) && w.handlers[id].present
    ensures w.handlers[id].user.Some? && w.handlers[id].user.value in w.active
  {
    assert Sound(w.handlers[id], w.nextToken);
    var u := w.handlers[id].user.value;
    assert id in PresentAs(w.handlers, u);
    assert UserAt(w.active, w.handlers, u);
  }

  lemma LeaveKeeps(w: World, id: Id)
    requires AwayInv(w) && Enabled(w, Leave(id))
    requires w.handlers[id].user.Some? && w.handlers[id].user.value in w.active
    ensures AwayInv(AfterLeave(w, id))
  {
    var h := w.handlers[id];
    var u := h.user.value;
    var gone := w.(handlers := w.handlers[id := h.(present := false, tracked := false)]);
    var entry := w.active[u];
    var sessions := if h.token.Some? then Without(entry.sessions, h.token.value) else entry.sessions;
    if entry.connections <= 1 {
      AddAwayKeeps(w, gone.(active := w.active - {u}), u, Answer(false, true));
    } else {
      AddAwayKeeps(w, gone.(active := w.active[u := ActiveUser(sessions, entry.connections - 1)]), u, Answer(AnyAway(sessions), true));
    }
  }

  lemma TrackKeepsAway(w: World, id: Id)
    requires AwayInv(w) && Enabled(w, Track(id))
    ensures AwayInv(AfterTrack(w, id))
  {
    var h := w.handlers[id];
    if AfterTrack(w, id) != w {
      AppendToken(w.active[h.user.value].sessions, Session(h.token.value, false));
      SameAway(w, AfterTrack(w, id));
    }
  }

  lemma AuthenticateKeepsAway(w: World, id: Id, u: User)
    requires AwayInv(w) && Enabled(w, Authenticate(id, u))
    ensures AwayInv(AfterAuthenticate(w, id, u))
  {
    SameAway(w, AfterAuthenticate(w, id, u));
  }

  lemma ConnectKeepsAway(w: World, id: Id, peer: Option<Ip>, allowed: bool)
    requires AwayInv(w)
    ensures AwayInv(AfterConnect(w, id, peer, allowed))
  {
    SameAway(w, AfterConnect(w, id, peer, allowed));
  }

  lemma SessionKeepsAway(w: World, id: Id)
    requires AwayInv(w) && Live(w, id)
    ensures AwayInv(AfterOpenSession(w, id))
    ensures w.handlers[id].token.Some? ==> AwayInv(AfterStartApp(w, id))
  {
    SameAway(w, AfterOpenSession(w, id));
    if w.handlers[id].token.Some? {
      SameAway(w, AfterStartApp(w, id));
    }
  }

  lemma CloseKeepsAway(w: World, id: Id)
    requires AwayInv(w) && Live(w, id)
    ensures AwayInv(AfterClose(w, id))
  {
    SameAway(w, AfterClose(w, id));
  }

  lemma StepKeepsAway(w: World, step: Step)
    requires Conserved(w) && SessionInv(w) && AwayInv(w) && Enabled(w, step)
    ensures AwayInv(Apply(w, step))
  {
    match step
    case Connect(id, peer, allowed) => ConnectKeepsAway(w, id, peer, allowed);
    case Authenticate(id, u) => AuthenticateKeepsAway(w, id, u);
    case OpenSession(id) => SessionKeepsAway(w, id);
    case Track(id) => TrackKeepsAway(w, id);
    case StartApp(id) => SessionKeepsAway(w, id);
    case SetAway(u, t, value) => SetAwayKeeps(w, u, t, value);
    case StoreAway(i) => StoreAwayKeeps(w, i);
    case Leave(id) =>
      PresentHasEntry(w, id);
      LeaveKeeps(w, id);
    case Close(id) => CloseKeepsAway(w, id);
  }

  // --------------------------------------------------------------- whole runs

  predicate Start(w: World) {
    && w.permits == w.capacity && w.counts == map[] && w.active == map[] && w.away == {}
    && w.handlers == map[] && w.apps == {} && w.pending == [] && w.computed == map[] && w.stored == map[]
  }

  ghost predicate Inv(w: World) { Conserved(w) && SessionInv(w) && AwayInv(w) }

  ghost predicate Runs(w: World, steps: seq<Step>)
    decreases |steps|
  {
    steps == [] || (Enabled(w, steps[0]) && Runs(Apply(w, steps[0]), steps[1..]))
  }

  ghost function After(w: World, steps: seq<Step>): World
    requires Runs(w, steps)
    decreases |steps|
  {
    if steps == [] then w else After(Apply(w, steps[0]), steps[1..])
  }

  lemma StartIsGood(w: World)
    requires Start(w)
    ensures Inv(w)
  {
    assert Holding(w.handlers) == {};
    assert forall ip :: CountedFrom(w.handlers, ip) == {};
    assert forall u :: PresentAs(w.handlers, u) == {};
  }

  lemma {:induction false} RunKeepsInv(w: World, steps: seq<Step>)
    requires Inv(w) && Runs(w, steps)
    ensures Inv(After(w, steps))
    decreases |steps|
  {
    if steps != [] {
      StepConserves(w, steps[0]);
      StepKeepsSessions(w, steps[0]);
      StepKeepsAway(w, steps[0]);
      RunKeepsInv(Apply(w, steps[0]), steps[1..]);
    }
  }

  /** Over every run: permits in use are the handlers holding one; the count of an address
      is its number of counted handlers, within the limit and never a stored zero; the
      connection count of a user is its number of present handlers, with no entry at zero. */
  lemma ConnectionsAreConserved(w: World, steps: seq<Step>, ip: Ip, u: User)
    requires Start(w) && Runs(w, steps)
    ensures var t := After(w, steps); t.permits + |Holding(t.handlers)| == t.capacity
    ensures var t := After(w, steps);
            CountOf(t.counts, ip) == |CountedFrom(t.handlers, ip)| && CountOf(t.counts, ip) <= t.limit
    ensures var t := After(w, steps); t.limit > 0 && ip in t.counts ==> t.counts[ip] > 0
    ensures var t := After(w, steps);
            ConnectionsOf(t.active, u) == |PresentAs(t.handlers, u)| && (u in t.active ==> PresentAs(t.handlers, u) != {})
  {
    StartIsGood(w);
    RunKeepsInv(w, steps);
    var t := After(w, steps);
    assert CountAt(t.counts, t.handlers, t.limit, ip) && UserAt(t.active, t.handlers, u);
  }

  /** The listed sessions of a user are exactly those its live handlers tracked, each once. */
  lemma SessionsAreConserved(w: World, steps: seq<Step>, u: User, t: Token)
    requires Start(w) && Runs(w, steps)
    ensures var v := After(w, steps); Listed(v.active, u, t) <==> Tracks(v.handlers, u, t)
    ensures var v := After(w, steps); u in v.active ==> Distinct(v.active[u].sessions)
  {
    StartIsGood(w);
    RunKeepsInv(w, steps);
  }

  // --------------------------------------------------------------- when the away set is accurate

  predicate Accurate(w: World, u: User) { u in w.away <==> AwayNow(w, u) }

  /** The answer stored last for a user is not the one computed last. */
  predicate Stale(w: World, u: User) {
    u in w.computed && u in w.stored && w.stored[u].away != w.computed[u].away
  }

  /** The answer computed last for a user was an unfounded one. */
  predicate Misled(w: World, u: User) { u in w.computed && !w.computed[u].founded }

  /** Over every run: once a user's updates are stored, the away set is accurate for the user
      unless a stale answer was stored last or the last answer was unfounded; two wrongs cancel. */
  lemma AwaySetIsExact(w: World, steps: seq<Step>, u: User)
    requires Start(w) && Runs(w, steps)
    ensures var v := After(w, steps);
            !UnderWay(v.pending, u) ==> (Accurate(v, u) <==> (Stale(v, u) <==> Misled(v, u)))
  {
    StartIsGood(w);
    RunKeepsInv(w, steps);
    assert AwayAt(After(w, steps), u);
  }

  /** A step that computes an answer for the user. */
  predicate Computes(w: World, step: Step, u: User) {
    (step.SetAway? && step.u == u) || (step.Leave? && Live(w, step.id) && w.handlers[step.id].user == Some(u))
  }

  /** Each answer for the user is computed only when no other is under way. */
  ghost predicate InTurn(w: World, steps: seq<Step>, u: User)
    requires Runs(w, steps)
    decreases |steps|
  {
    steps == [] ||
    ((Computes(w, steps[0], u) ==> !UnderWay(w.pending, u)) && InTurn(Apply(w, steps[0]), steps[1..], u))
  }

  ghost predicate SomeComputed(w: World, steps: seq<Step>, u: User)
    requires Runs(w, steps)
    decreases |steps|
  {
    steps != [] && (Computes(w, steps[0], u) || SomeComputed(Apply(w, steps[0]), steps[1..], u))
  }

  /** The last answer is under way alone, or stored last. */
  predicate Fresh(w: World, u: User) {
    && u in w.computed
    && (forall i :: 0 <= i < |w.pending| && w.pending[i].user == u ==> w.pending[i].answer == w.computed[u])
    && (!UnderWay(w.pending, u) ==> u in w.stored && w.stored[u] == w.computed[u])
  }

  lemma AddedIsFresh(w: World, v: World, user: User, answer: Answer, u: User)
    requires v.pending == w.pending && v.computed == w.computed && v.stored == w.stored
    requires user == u ==> !UnderWay(w.pending, u)
    requires user != u ==> Fresh(w, u)
    ensures Fresh(AddAway(v, user, answer), u)
  {
    var w' := AddAway(v, user, answer);
    UnderWayAppend(w.pending, AwayWrite(user, answer), u);
    assert forall i :: 0 <= i < |w.pending| ==> w'.pending[i] == w.pending[i];
  }

  lemma StoredStaysFresh(w: World, i: nat, u: User)
    requires Fresh(w, u) && i < |w.pending|
    ensures Fresh(AfterStoreAway(w, i), u)
  {
    var w' := AfterStoreAway(w, i);
    assert forall j :: 0 <= j < |w'.pending| ==> w'.pending[j] == w.pending[if j < i then j else j + 1];
    if w.pending[i].user != u {
      UnderWayRemove(w.pending, i, u);
    }
  }

  lemma StepStaysFresh(w: World, step: Step, u: User)
    requires Conserved(w) && Enabled(w, step) && (Computes(w, step, u) ==> !UnderWay(w.pending, u))
    requires Computes(w, step, u) || Fresh(w, u)
    ensures Fresh(Apply(w, step), u)
  {
    match step
    case SetAway(user, t, value) =>
      var answer := Answer(AwayAnswer(SessionsOf(w.active, user), t, value), !Unfounded(w, user, t, value));
      if user in w.active {
        var entry := w.active[user];
        AddedIsFresh(w, w.(active := w.active[user := entry.(sessions := Marked(entry.sessions, t, value))]), user, answer, u);
      } else {
        AddedIsFresh(w, w, user, Answer(value, !Unfounded(w, user, t, value)), u);
      }
    case Leave(id) => LeaveIsFresh(w, id, u);
    case StoreAway(i) => StoredStaysFresh(w, i, u);
    case _ => OtherSteps(w, step);
  }

  /** The other steps leave the answers alone. */
  lemma OtherSteps(w: World, step: Step)
    requires Enabled(w, step) && !step.SetAway? && !step.Leave? && !step.StoreAway?
    ensures var w' := Apply(w, step);
            w'.pending == w.pending && w'.computed == w.computed && w'.stored == w.stored && w'.away == w.away
  {
    match step
    case Connect(id, peer, allowed) => ConnectAnswers(w, id, peer, allowed);
    case Close(id) => CloseAnswers(w, id);
    case _ =>
  }

  lemma ConnectAnswers(w: World, id: Id, peer: Option<Ip>, allowed: bool)
    ensures var w' := AfterConnect(w, id, peer, allowed);
            w'.pending == w.pending && w'.computed == w.computed && w'.stored == w.stored && w'.away == w.away
  {
  }

  lemma CloseAnswers(w: World, id: Id)
    requires Live(w, id)
    ensures var w' := AfterClose(w, id);
            w'.pending == w.pending && w'.computed == w.computed && w'.stored == w.stored && w'.away == w.away
  {
  }

  lemma LeaveIsFresh(w: World, id: Id, u: User)
    requires Conserved(w) && Enabled(w, Leave(id)) && (Computes(w, Leave(id), u) ==> !UnderWay(w.pending, u))
    requires Computes(w, Leave(id), u) || Fresh(w, u)
    ensures Fresh(AfterLeave(w, id), u)
  {
    PresentHasEntry(w, id);
    var w' := AfterLeave(w, id);
    var user := w.handlers[id].user.value;
    AddedIsFresh(w, w.(handlers := w'.handlers, active := w'.active), user, w'.computed[user], u);
  }

  lemma {:induction false} InTurnStaysFresh(w: World, steps: seq<Step>, u: User)
    requires Inv(w) && Runs(w, steps) && InTurn(w, steps, u)
    requires Fresh(w, u) || SomeComputed(w, steps, u)
    ensures Fresh(After(w, steps), u)
    decreases |steps|
  {
    if steps != [] {
      StepConserves(w, steps[0]);
      StepKeepsSessions(w, steps[0]);
      StepKeepsAway(w, steps[0]);
      if Fresh(w, u) || Computes(w, steps[0], u) {
        StepStaysFresh(w, steps[0], u);
      }
      InTurnStaysFresh(Apply(w, steps[0]), steps[1..], u);
    }
  }

  /** Recovery: whatever overlapped before, from the first answer on that is computed in its
      turn the away set is, whenever nothing is under way, accurate exactly when the last answer
      was founded. */
  lemma AccuracyRecovers(w: World, before: seq<Step>, after: seq<Step>, u: User)
    requires Start(w) && Runs(w, before) && Runs(After(w, before), after)
    requires InTurn(After(w, before), after, u) && SomeComputed(After(w, before), after, u)
    ensures var v := After(After(w, before), after);
            !UnderWay(v.pending, u) ==> (Accurate(v, u) <==> !Misled(v, u))
  {
    StartIsGood(w);
    RunKeepsInv(w, before);
    var m := After(w, before);
    RunKeepsInv(m, after);
    InTurnStaysFresh(m, after, u);
    assert AwayAt(After(m, after), u);
  }

  lemma StepComputesNothing(w: World, step: Step, u: User)
    requires Enabled(w, step) && !Computes(w, step, u) && u !in w.computed
    ensures u !in Apply(w, step).computed
  {
    match step
    case SetAway(_, _, _) =>
    case StoreAway(_) =>
    case Leave(id) => LeaveComputesOwn(w, id, u);
    case _ => OtherSteps(w, step);
  }

  lemma LeaveComputesOwn(w: World, id: Id, u: User)
    requires Live(w, id) && w.handlers[id].user != Some(u)
    ensures u in AfterLeave(w, id).computed <==> u in w.computed
  {
  }

  lemma {:induction false} NothingComputed(w: World, steps: seq<Step>, u: User)
    requires Inv(w) && Runs(w, steps) && !SomeComputed(w, steps, u) && u !in w.computed
    ensures u !in After(w, steps).computed
    decreases |steps|
  {
    if steps != [] {
      StepConserves(w, steps[0]);
      StepKeepsSessions(w, steps[0]);
      StepKeepsAway(w, steps[0]);
      StepComputesNothing(w, steps[0], u);
      NothingComputed(Apply(w, steps[0]), steps[1..], u);
    }
  }

  /** Over a whole run in which a user's updates never overlap the away set is, whenever none is
      under way, accurate exactly when the last answer was founded. */
  lemma AwaySetIsAccurate(w: World, steps: seq<Step>, u: User)
    requires Start(w) && Runs(w, steps) && InTurn(w, steps, u)
    ensures var v := After(w, steps);
            !UnderWay(v.pending, u) ==> (Accurate(v, u) <==> !Misled(v, u))
  {
    StartIsGood(w);
    if SomeComputed(w, steps, u) {
      AccuracyRecovers(w, [], steps, u);
    } else {
      NothingComputed(w, steps, u);
      RunKeepsInv(w, steps);
      assert AwayAt(After(w, steps), u);
    }
  }

  /** What a command answers is right exactly when it is not unfounded, and a drop always
      answers right. */
  lemma AnswerIsRight(w: World, step: Step, u: User)
    requires Inv(w) && Enabled(w, step) && Computes(w, step, u)
    ensures var v := Apply(w, step);
            u in v.computed && (v.computed[u].away == AwayNow(v, u) <==> !(step.SetAway? && Unfounded(w, step.u, step.t, step.value)))
  {
    match step
    case SetAway(_, t, value) => SetAwayKeeps(w, u, t, value);
      assert AwayAt(Apply(w, step), u);
    case Leave(id) =>
      PresentHasEntry(w, id);
      LeaveKeeps(w, id);
      assert AwayAt(Apply(w, step), u);
    case _ =>
  }

  /** Overlap breaks it: the two locks are taken one after the other, so when one handler
      leaves while the app of another goes away, the leaver's older answer can be stored last. */
  lemma OverlapLosesAway(w: World, a: Id, b: Id)
    requires Inv(w) && w.pending == [] && a != b && Live(w, a) && Live(w, b)
    requires w.handlers[a].tracked && w.handlers[b].tracked && w.handlers[a].user == w.handlers[b].user
    requires w.handlers[b].user.Some? && w.handlers[b].token.Some?
    requires App(w.handlers[b].user.value, w.handlers[b].token.value) in w.apps
    requires forall u :: !AwayNow(w, u)
    ensures var u, t := w.handlers[b].user.value, w.handlers[b].token.value;
            var steps := [Leave(a), SetAway(u, t, true), StoreAway(1), StoreAway(0)];
            Runs(w, steps) && var v := After(w, steps); v.pending == [] && AwayNow(v, u) && u !in v.away
  {
    var u, t := w.handlers[b].user.value, w.handlers[b].token.value;
    OneLeavesOneStays(w, a, b);
    StoredInReverse(AfterLeave(w, a), u, t);
    var steps := [Leave(a), SetAway(u, t, true), StoreAway(1), StoreAway(0)];
    assert steps[1..] == [SetAway(u, t, true), StoreAway(1), StoreAway(0)];
  }

  lemma StoredInReverse(w: World, u: User, t: Token)
    requires App(u, t) in w.apps && w.pending == [AwayWrite(u, Answer(false, true))] && Listed(w.active, u, t)
    ensures var steps := [SetAway(u, t, true), StoreAway(1), StoreAway(0)];
            Runs(w, steps) && var v := After(w, steps); v.pending == [] && AwayNow(v, u) && u !in v.away
  {
    var steps := [SetAway(u, t, true), StoreAway(1), StoreAway(0)];
    var w1 := Apply(w, SetAway(u, t, true));
    GoesAway(w, u, t);
    NewerStoredFirst(w1, u);
    assert steps[1..] == [StoreAway(1), StoreAway(0)];
  }

  lemma GoesAway(w: World, u: User, t: Token)
    requires w.pending == [AwayWrite(u, Answer(false, true))] && Listed(w.active, u, t)
    ensures var w1 := AfterSetAway(w, u, t, true);
            w1.pending == [AwayWrite(u, Answer(false, true)), AwayWrite(u, Answer(true, true))] && AwayNow(w1, u)
  {
    MarkedIs(w.active[u].sessions, t, true);
  }

  lemma NewerStoredFirst(w: World, u: User)
    requires w.pending == [AwayWrite(u, Answer(false, true)), AwayWrite(u, Answer(true, true))]
    ensures var steps := [StoreAway(1), StoreAway(0)];
            Runs(w, steps) && var v := After(w, steps); v.pending == [] && v.active == w.active && u !in v.away
  {
    var w1 := AfterStoreAway(w, 1);
    assert w1.pending == [AwayWrite(u, Answer(false, true))];
    FollowTrace([StoreAway(1), StoreAway(0)], [w, w1, AfterStoreAway(w1, 0)]);
  }

  lemma OneLeavesOneStays(w: World, a: Id, b: Id)
    requires Inv(w) && w.pending == [] && a != b && Live(w, a) && Live(w, b)
    requires w.handlers[a].tracked && w.handlers[b].tracked && w.handlers[a].user == w.handlers[b].user
    requires forall u :: !AwayNow(w, u)
    ensures Enabled(w, Leave(a)) && w.handlers[b].user.Some? && w.handlers[b].token.Some?
    ensures var w1 := AfterLeave(w, a);
            var u := w.handlers[b].user.value;
            && w1.apps == w.apps && w1.pending == [AwayWrite(u, Answer(false, true))]
            && Listed(w1.active, u, w.handlers[b].token.value)
  {
    assert Sound(w.handlers[a], w.nextToken) && Sound(w.handlers[b], w.nextToken);
    LeaveKeepsSessions(w, a);
    LeaveKeepsNobodyAway(w, a);
    var after := AfterLeave(w, a).handlers;
    assert after[b] == w.handlers[b];
    assert Tracks(after, w.handlers[b].user.value, w.handlers[b].token.value);
  }

  lemma LeaveKeepsNobodyAway(w: World, id: Id)
    requires Conserved(w) && Enabled(w, Leave(id)) && forall u :: !AwayNow(w, u)
    ensures w.handlers[id].user.Some?
    ensures AfterLeave(w, id).pending == w.pending + [AwayWrite(w.handlers[id].user.value, Answer(false, true))]
  {
    PresentHasEntry(w, id);
    var h := w.handlers[id];
    var entry := w.active[h.user.value];
    assert !AwayNow(w, h.user.value);
    if h.token.Some? {
      WithoutKeepsNobodyAway(entry.sessions, h.token.value);
    }
  }

  lemma {:induction false} WithoutKeepsNobodyAway(sessions: seq<Session>, token: Token)
    requires !AnyAway(sessions)
    ensures !AnyAway(Without(sessions, token))
    decreases |sessions|
  {
    if sessions != [] {
      PrependToken(sessions[0], sessions[1..]);
      assert [sessions[0]] + sessions[1..] == sessions;
      WithoutKeepsNobodyAway(sessions[1..], token);
      PrependToken(sessions[0], Without(sessions[1..], token));
      assert [] + Without(sessions[1..], token) == Without(sessions[1..], token);
    }
  }

  lemma {:induction false} RunsConcat(w: World, first: seq<Step>, second: seq<Step>)
    requires Runs(w, first) && Runs(After(w, first), second)
    ensures Runs(w, first + second) && After(w, first + second) == After(After(w, first), second)
    decreases |first|
  {
    if first == [] {
      assert first + second == second;
    } else {
      assert (first + second)[1..] == first[1..] + second;
      RunsConcat(Apply(w, first[0]), first[1..], second);
    }
  }

  function SignIn(id: Id, u: User): seq<Step> { [Connect(id, None, true), Authenticate(id, u)] }

  function OpenApp(id: Id): seq<Step> { [OpenSession(id), Track(id), StartApp(id)] }

  /** A handler whose session is tracked. */
  function UpHandler(u: User, t: Token): Handler { Handler(None, true, false, false, Some(u), true, Some(t), true) }

  lemma SessionSignsIn(w: World, id: Id, u: User)
    requires w.permits > 0 && !Live(w, id)
    ensures Runs(w, SignIn(id, u))
    ensures var v := After(w, SignIn(id, u));
            && v.pending == w.pending && v.nextToken == w.nextToken && v.apps == w.apps && v.permits == w.permits - 1
            && v.active == w.active[u := ActiveUser(SessionsOf(w.active, u), ConnectionsOf(w.active, u) + 1)]
            && v.handlers == w.handlers[id := UpHandler(u, 0).(token := None, tracked := false)]
  {
    var w1 := Apply(w, Connect(id, None, true));
    FollowTrace(SignIn(id, u), [w, w1, Apply(w1, Authenticate(id, u))]);
  }

  lemma SessionOpens(w: World, id: Id, u: User)
    requires Live(w, id) && w.handlers[id] == UpHandler(u, 0).(token := None, tracked := false)
    requires u in w.active && !HasToken(w.active[u].sessions, w.nextToken)
    ensures Runs(w, OpenApp(id))
    ensures var v := After(w, OpenApp(id));
            && v.pending == w.pending && v.nextToken == w.nextToken + 1 && v.permits == w.permits
            && v.apps == w.apps + {App(u, w.nextToken)}
            && v.active == w.active[u := ActiveUser(w.active[u].sessions + [Session(w.nextToken, false)], w.active[u].connections)]
            && v.handlers == w.handlers[id := UpHandler(u, w.nextToken)]
  {
    var w1 := Apply(w, OpenSession(id));
    var w2 := Apply(w1, Track(id));
    FollowTrace(OpenApp(id), [w, w1, w2, Apply(w2, StartApp(id))]);
  }

  /** A session of the user comes up, under the next token. */
  lemma ComesUp(w: World, id: Id, u: User)
    requires w.permits > 0 && !Live(w, id) && w.active.Keys <= {u} && !HasToken(SessionsOf(w.active, u), w.nextToken)
    ensures Runs(w, SignIn(id, u) + OpenApp(id))
    ensures var v := After(w, SignIn(id, u) + OpenApp(id));
            && v.pending == w.pending && v.nextToken == w.nextToken + 1 && v.permits == w.permits - 1
            && v.apps == w.apps + {App(u, w.nextToken)}
            && v.active.Keys == {u}
            && v.active[u] == ActiveUser(SessionsOf(w.active, u) + [Session(w.nextToken, false)], ConnectionsOf(w.active, u) + 1)
            && v.handlers == w.handlers[id := UpHandler(u, w.nextToken)]
  {
    SessionSignsIn(w, id, u);
    SessionOpens(After(w, SignIn(id, u)), id, u);
    RunsConcat(w, SignIn(id, u), OpenApp(id));
  }

  lemma TwoComeUp(w: World, u: User) returns (steps: seq<Step>)
    requires Start(w) && w.capacity > 1
    ensures Runs(w, steps)
    ensures var v := After(w, steps);
            && v.pending == [] && App(u, w.nextToken + 1) in v.apps && (forall x :: !AwayNow(v, x))
            && v.handlers == map[0 := UpHandler(u, w.nextToken), 1 := UpHandler(u, w.nextToken + 1)]
  {
    ComesUp(w, 0, u);
    var first := SignIn(0, u) + OpenApp(0);
    var w1 := After(w, first);
    ComesUp(w1, 1, u);
    var second := SignIn(1, u) + OpenApp(1);
    RunsConcat(w, first, second);
    steps := first + second;
  }

  /** In every server that admits two connections: two sessions of one user come up, the one that
      leaves overlaps the other going away, and in the end a session is away and the user is not
      in the away set. */
  lemma OverlapCanLoseAway(w: World, u: User) returns (steps: seq<Step>)
    requires Start(w) && w.capacity > 1
    ensures Runs(w, steps)
    ensures var v := After(w, steps); v.pending == [] && AwayNow(v, u) && u !in v.away
  {
    var up := TwoComeUp(w, u);
    StartIsGood(w);
    RunKeepsInv(w, up);
    OverlapLosesAway(After(w, up), 0, 1);
    var overlap := [Leave(0), SetAway(u, w.nextToken + 1, true), StoreAway(1), StoreAway(0)];
    RunsConcat(w, up, overlap);
    steps := up + overlap;
  }

  lemma LastLeaves(w: World, u: User, t: Token)
    requires w.pending == [] && App(u, t) in w.apps && w.active.Keys == {u} && w.active[u].connections == 1
    requires Live(w, 0) && w.handlers[0].present && w.handlers[0].user == Some(u)
    ensures var steps := [Leave(0), StoreAway(0)];
            Runs(w, steps) && var v := After(w, steps); v.pending == [] && v.apps == w.apps && u !in v.active
  {
    var w1 := Apply(w, Leave(0));
    FollowTrace([Leave(0), StoreAway(0)], [w, w1, Apply(w1, StoreAway(0))]);
  }

  lemma DepartedGoesAway(w: World, u: User, t: Token)
    requires w.pending == [] && App(u, t) in w.apps && u !in w.active
    ensures var steps := [SetAway(u, t, true), StoreAway(0)];
            Runs(w, steps) && var v := After(w, steps); v.pending == [] && u in v.away && u !in v.active
  {
    var w1 := Apply(w, SetAway(u, t, true));
    FollowTrace([SetAway(u, t, true), StoreAway(0)], [w, w1, Apply(w1, StoreAway(0))]);
  }

  /** A command drained from the queue after its handler was dropped: in every server that
      admits connections a user can end up away with no session at all, without any overlap. */
  lemma DepartedCanStayAway(w: World, u: User) returns (steps: seq<Step>)
    requires Start(w) && w.capacity > 0
    ensures Runs(w, steps)
    ensures var v := After(w, steps); v.pending == [] && u in v.away && u !in v.active
  {
    ComesUp(w, 0, u);
    var comesUp := SignIn(0, u) + OpenApp(0);
    var up := After(w, comesUp);
    LastLeaves(up, u, w.nextToken);
    var leave := [Leave(0), StoreAway(0)];
    DepartedGoesAway(After(up, leave), u, w.nextToken);
    var away := [SetAway(u, w.nextToken, true), StoreAway(0)];
    RunsConcat(up, leave, away);
    RunsConcat(w, comesUp, leave + away);
    steps := comesUp + (leave + away);
  }

  lemma {:induction false} FollowTrace(steps: seq<Step>, trace: seq<World>)
    requires |trace| == |steps| + 1
    requires forall i :: 0 <= i < |steps| ==> Enabled(trace[i], steps[i]) && trace[i + 1] == Apply(trace[i], steps[i])
    ensures Runs(trace[0], steps) && After(trace[0], steps) == trace[|steps|]
    decreases |steps|
  {
    if steps != [] {
      FollowTrace(steps[1..], trace[1..]);
    }
  }

  /** With a limit of zero a refused connection leaves a zero entry behind, which is why
      the limit must be positive above. */
  lemma ZeroLimitLeavesZeroEntry(w: World, id: Id, ip: Ip)
    requires Inv(w) && w.limit == 0 && w.permits > 0 && !Live(w, id)
    ensures var t := AfterConnect(w, id, Some(ip), true);
            ip in t.counts && t.counts[ip] == 0 && t.handlers[id].overLimit
  {
    assert CountAt(w.counts, w.handlers, w.limit, ip);
  }

  // --------------------------------------------------------------- one command

  lemma {:induction false} MarkedAt(sessions: seq<Session>, t: Token, value: bool, i: nat)
    requires Distinct(sessions) && i < |sessions|
    ensures |Marked(sessions, t, value)| == |sessions|
    ensures Marked(sessions, t, value)[i] == Session(sessions[i].token, if sessions[i].token == t then value else sessions[i].away)
    decreases |sessions|
  {
    if sessions[0].token != t {
      assert Distinct(sessions[1..]) by {
        forall j, k | 0 <= j < k < |sessions[1..]| ensures sessions[1..][j].token != sessions[1..][k].token {
          assert sessions[j + 1].token != sessions[k + 1].token;
        }
      }
      if |sessions| > 1 {
        MarkedAt(sessions[1..], t, value, if i == 0 then 0 else i - 1);
      }
    } else if i > 0 {
      assert sessions[0].token != sessions[i].token;
    }
  }

  /** A command sets the flag of its own session, both when it goes away and when it is back, and
      leaves the user's other sessions, and all other users, as they were. */
  lemma CommandMarksOne(w: World, u: User, t: Token, value: bool, v: User, i: nat)
    requires SessionInv(w) && i < |SessionsOf(w.active, v)|
    ensures var before, after := SessionsOf(w.active, v), SessionsOf(AfterSetAway(w, u, t, value).active, v);
            && |after| == |before| && after[i].token == before[i].token
            && after[i].away == if v == u && before[i].token == t then value else before[i].away
  {
    if u in w.active {
      if v == u {
        MarkedAt(w.active[u].sessions, t, value, i);
      }
    }
  }

  /** Some other session of the user is away. */
  predicate OtherAway(sessions: seq<Session>, t: Token) {
    exists i :: 0 <= i < |sessions| && sessions[i].token != t && sessions[i].away
  }

  lemma BackMeansOthers(sessions: seq<Session>, t: Token)
    requires Distinct(sessions)
    ensures AnyAway(Marked(sessions, t, false)) <==> OtherAway(sessions, t)
    ensures Distinct(Marked(sessions, t, true)) && OtherAway(Marked(sessions, t, true), t) == OtherAway(sessions, t)
  {
    var back, gone := Marked(sessions, t, false), Marked(sessions, t, true);
    if sessions != [] {
      MarkedAt(sessions, t, false, 0);
      MarkedAt(sessions, t, true, 0);
    }
    forall i | 0 <= i < |sessions|
      ensures back[i].away == (sessions[i].token != t && sessions[i].away)
      ensures gone[i].token == sessions[i].token && (sessions[i].token != t ==> gone[i].away == sessions[i].away)
    {
      MarkedAt(sessions, t, false, i);
      MarkedAt(sessions, t, true, i);
    }
  }

  lemma CommandIsStored(w: World, u: User, t: Token, value: bool)
    requires w.pending == [] && App(u, t) in w.apps && u in w.active && HasToken(w.active[u].sessions, t)
    ensures var steps := [SetAway(u, t, value), StoreAway(0)];
            Runs(w, steps) && var v := After(w, steps);
            && v.pending == [] && v.apps == w.apps && u in v.active
            && v.active[u].sessions == Marked(w.active[u].sessions, t, value)
            && (u in v.away <==> AnyAway(v.active[u].sessions))
  {
    var w1 := AfterSetAway(w, u, t, value);
    FollowTrace([SetAway(u, t, value), StoreAway(0)], [w, w1, AfterStoreAway(w1, 0)]);
  }

  /** Away and back: with both commands stored, the user is away after the first and after the
      second exactly while another of its sessions is. */
  lemma AwayAndBack(w: World, u: User, t: Token)
    requires SessionInv(w) && w.pending == [] && App(u, t) in w.apps && Listed(w.active, u, t)
    ensures var steps := [SetAway(u, t, true), StoreAway(0)];
            Runs(w, steps) && u in After(w, steps).away
    ensures var steps := [SetAway(u, t, true), StoreAway(0)] + [SetAway(u, t, false), StoreAway(0)];
            Runs(w, steps) && (u in After(w, steps).away <==> OtherAway(w.active[u].sessions, t))
  {
    var sessions := w.active[u].sessions;
    MarkedIs(sessions, t, true);
    CommandIsStored(w, u, t, true);
    var away := After(w, [SetAway(u, t, true), StoreAway(0)]);
    assert Distinct(sessions);
    BackMeansOthers(sessions, t);
    BackMeansOthers(Marked(sessions, t, true), t);
    CommandIsStored(away, u, t, false);
    RunsConcat(w, [SetAway(u, t, true), StoreAway(0)], [SetAway(u, t, false), StoreAway(0)]);
  }

  // --------------------------------------------------------------- one departure

  lemma {:induction false} WithoutHas(sessions: seq<Session>, token: Token, x: Session)
    ensures x in Without(sessions, token) <==> x in sessions && x.token != token
    decreases |sessions|
  {
    if sessions != [] {
      WithoutHas(sessions[1..], token, x);
      assert sessions == [sessions[0]] + sessions[1..];
    }
  }

  /** A user's last connection takes its own session with it, and there is no other. */
  lemma LastTakesAll(w: World, id: Id, x: Session)
    requires Inv(w) && Enabled(w, Leave(id)) && w.handlers[id].user.Some? && w.handlers[id].user.value in w.active
    requires w.active[w.handlers[id].user.value].connections <= 1 && x in w.active[w.handlers[id].user.value].sessions
    ensures w.handlers[id].token == Some(x.token)
  {
    var u := w.handlers[id].user.value;
    assert Listed(w.active, u, x.token);
    assert Tracks(w.handlers, u, x.token);
    var other :| other in w.handlers && w.handlers[other].tracked && w.handlers[other].user == Some(u) && w.handlers[other].token == Some(x.token);
    assert Sound(w.handlers[other], w.nextToken);
    if other != id {
      LastOneOut(w, id, other);
    }
  }

  /** A handler that leaves takes its own session off the list; every other session stays listed
      with the flag it had, and nothing is added. */
  lemma LeaveTakesOwnSession(w: World, id: Id, v: User, x: Session)
    requires Inv(w) && Enabled(w, Leave(id))
    ensures x in SessionsOf(AfterLeave(w, id).active, v) <==>
            x in SessionsOf(w.active, v) && !(w.handlers[id].user == Some(v) && w.handlers[id].token == Some(x.token))
  {
    PresentHasEntry(w, id);
    var h := w.handlers[id];
    if h.user == Some(v) {
      if h.token.Some? {
        WithoutHas(w.active[v].sessions, h.token.value, x);
      }
      if w.active[v].connections <= 1 && x in w.active[v].sessions {
        LastTakesAll(w, id, x);
      }
    }
  }

  // --------------------------------------------------------------- who gets in

  /** There is a permit, and an address within its attempts and its connections. */
  ghost predicate Admissible(w: World, peer: Option<Ip>, allowed: bool) {
    && |Holding(w.handlers)| < w.capacity
    && (peer.Some? ==> allowed && |CountedFrom(w.handlers, peer.value)| < w.limit)
  }

  /** Refused, and nothing more has come of it. */
  predicate Refused(w: World, id: Id) {
    Live(w, id) && w.handlers[id].overLimit && w.handlers[id].user.None? && !w.handlers[id].present && !w.handlers[id].tracked &&
    !w.handlers[id].counted && w.handlers[id].token.None?
  }

  lemma StaysRefused(w: World, step: Step, id: Id)
    requires Refused(w, id) && Enabled(w, step) && step != Close(id)
    ensures Refused(Apply(w, step), id)
  {
    match step
    case Connect(_, _, _) =>
    case Track(_) =>
    case SetAway(_, _, _) =>
    case Leave(_) =>
    case Close(_) =>
    case _ =>
  }

  predicate Keeps(steps: seq<Step>, id: Id) { forall i :: 0 <= i < |steps| ==> steps[i] != Close(id) }

  lemma {:induction false} RefusedForGood(w: World, steps: seq<Step>, id: Id)
    requires Refused(w, id) && Runs(w, steps) && Keeps(steps, id)
    ensures Refused(After(w, steps), id)
    decreases |steps|
  {
    if steps != [] {
      StaysRefused(w, steps[0], id);
      RefusedForGood(Apply(w, steps[0]), steps[1..], id);
    }
  }

  /** A new connection can authenticate exactly when a permit is left and its address has attempts
      and connections left; one that is refused never counts for its address, becomes present or
      has its session listed, however long it lasts. */
  lemma AdmittedIff(w: World, id: Id, peer: Option<Ip>, allowed: bool, steps: seq<Step>)
    requires Inv(w) && !Live(w, id) && Runs(AfterConnect(w, id, peer, allowed), steps) && Keeps(steps, id)
    ensures forall u :: Enabled(AfterConnect(w, id, peer, allowed), Authenticate(id, u)) <==> Admissible(w, peer, allowed)
    ensures !Admissible(w, peer, allowed) ==> Refused(After(AfterConnect(w, id, peer, allowed), steps), id)
  {
    if peer.Some? {
      assert CountAt(w.counts, w.handlers, w.limit, peer.value);
    }
    if !Admissible(w, peer, allowed) {
      RefusedForGood(AfterConnect(w, id, peer, allowed), steps, id);
    }
  }

  // --------------------------------------------------------------- the shared maps in place

  /** The maps of the server's state, as the handlers update them under their locks. */
  class SharedState {
    const limit: nat
    var permits: nat
    var counts: map<Ip, nat>
    var active: map<User, ActiveUser>
    var away: set<User>

    ghost predicate Shows(w: World)
      reads this
    {
      w.limit == limit && w.permits == permits && w.counts == counts && w.active == active && w.away == away
    }

    constructor (limit: nat, capacity: nat)
      ensures forall w :: Start(w) && w.limit == limit && w.capacity == capacity ==> Shows(w)
    {
      this.limit := limit;
      permits, counts, active, away := capacity, map[], map[], {};
    }

    /** new_client_with_addrs. */
    method NewClient(peer: Option<Ip>, allowed: bool, ghost w: World, ghost id: Id) returns (h: Handler)
      requires Shows(w)
      modifies this
      ensures Shows(AfterConnect(w, id, peer, allowed))
      ensures h == AfterConnect(w, id, peer, allowed).handlers[id]
    {
      var permit := permits > 0;
      var overLimit, counted := !permit, false;
      if permit {
        permits := permits - 1;
        if peer.Some? {
          if !allowed {
            overLimit := true;
          } else {
            if peer.value !in counts {
              counts := counts[peer.value := 0];
            }
            if counts[peer.value] >= limit {
              overLimit := true;
            } else {
              counts := counts[peer.value := counts[peer.value] + 1];
              counted := true;
            }
          }
        }
      }
      h := Handler(peer, permit, overLimit, counted, None, false, None, false);
    }

    /** The counting part of auth_publickey. */
    method CountAuthenticated(u: User, ghost w: World, ghost id: Id)
      requires Shows(w) && Enabled(w, Authenticate(id, u))
      modifies this
      ensures Shows(AfterAuthenticate(w, id, u))
    {
      if u in active {
        active := active[u := active[u].(connections := active[u].connections + 1)];
      } else {
        active := active[u := ActiveUser([], 1)];
      }
    }

    /** track_active_session_token. */
    method TrackSession(user: Option<User>, token: Token, ghost w: World, ghost id: Id)
      requires Shows(w) && Enabled(w, Track(id))
      requires w.handlers[id].user == user && w.handlers[id].token == Some(token)
      modifies this
      ensures Shows(AfterTrack(w, id))
    {
      if user.None? || user.value !in active {
        return;
      }
      var entry := active[user.value];
      if HasToken(entry.sessions, token) {
        return;
      }
      active := active[user.value := entry.(sessions := entry.sessions + [Session(token, false)])];
    }

    /** Drop, the section on active_users: tells what set_afk_user is to store. */
    method LeaveUsers(user: User, token: Option<Token>, ghost w: World, ghost id: Id) returns (stillAway: bool)
      requires Shows(w) && Enabled(w, Leave(id))
      requires w.handlers[id].user == Some(user) && w.handlers[id].token == token
      modifies this
      ensures Shows(AfterLeave(w, id))
      ensures AfterLeave(w, id).pending == w.pending + [AwayWrite(user, Answer(stillAway, true))]
    {
      stillAway := false;
      if user in active {
        var entry := active[user];
        var sessions := if token.Some? then Without(entry.sessions, token.value) else entry.sessions;
        if entry.connections <= 1 {
          active := active - {user};
        } else {
          active := active[user := ActiveUser(sessions, entry.connections - 1)];
          stillAway := AnyAway(sessions);
        }
      }
    }

    /** set_shared_session_afk, up to set_afk_user: tells what that is to store. */
    method SetSessionAfk(user: User, token: Token, requestedAfk: bool, ghost w: World) returns (sharedAfk: bool)
      requires Shows(w)
      modifies this
      ensures Shows(AfterSetAway(w, user, token, requestedAfk))
      ensures AfterSetAway(w, user, token, requestedAfk).pending
           == w.pending + [AwayWrite(user, Answer(sharedAfk, !Unfounded(w, user, token, requestedAfk)))]
    {
      sharedAfk := requestedAfk;
      if user in active {
        var entry := active[user];
        var sessionUpdated := HasToken(entry.sessions, token);
        var sessions := Marked(entry.sessions, token, requestedAfk);
        active := active[user := entry.(sessions := sessions)];
        sharedAfk := AnyAway(sessions) || (requestedAfk && !sessionUpdated);
      }
    }

    /** set_afk_user. */
    method StoreAfk(user: User, isAway: bool, ghost w: World, ghost i: nat)
      requires Shows(w) && i < |w.pending| && w.pending[i].user == user && w.pending[i].answer.away == isAway
      modifies this
      ensures Shows(AfterStoreAway(w, i))
    {
      if (user in away) == isAway {
        return;
      }
      if isAway {
        away := away + {user};
      } else {
        away := away - {user};
      }
    }

    /** Drop, the section on conn_counts, and the release of the permit. */
    method ReleaseConnection(h: Handler, ghost w: World, ghost id: Id)
      requires Shows(w) && Live(w, id) && w.handlers[id] == h
      modifies this
      ensures Shows(AfterClose(w, id))
    {
      if !h.overLimit && h.counted && h.peer.Some? && h.peer.value in counts {
        if counts[h.peer.value] <= 1 {
          counts := counts - {h.peer.value};
        } else {
          counts := counts[h.peer.value := counts[h.peer.value] - 1];
        }
      }
      if h.permit {
        permits := permits + 1;
      }
    }
  }
}
