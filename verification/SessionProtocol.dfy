/** The session half of the BFF: /bff/session, /bff/logout, /bff/elevate, the session
    gateway and the sweeper as one state machine.  Every handler is cut into its atomic
    steps, and any number of handlers interleave with each other, with the clock, with
    sweeps and with new sign-ins.

    backendkit's session stores are assumed to behave as bff/server.go and bff/stores.go
    rely on: a delete leaves a tombstone, a put never overwrites one, a tombstone is swept
    only when it is older than its TTL, and a failed statement is counted before the call
    returns.  Both stores are modelled: `Memory` hands out the stored object itself,
    `Durable` rehydrates a private copy on every read. */
module SessionProtocol {

  import opened Options

  datatype StoreKind = Memory | Durable
  datatype Config = Config(kind: StoreKind, tombstoneTTL: nat)

  type Id = string
  type Ref = nat
  type Rid = nat

  /** sessionErrors is an atomic.Uint64: it shows the failures modulo 2^64. */
  const COUNTER_RANGE: nat := 0x1_0000_0000_0000_0000

  datatype Session = Session(id: Id, csrf: string, access: string, lastSeen: int)

  datatype Row =
    | Pointer(ref: Ref)            // Memory: the object every reader shares
    | Snapshot(session: Session)   // Durable: what the last put wrote
    | Tombstone(at: int)

  datatype Handler = SessionInfo | Logout | Elevate | Gateway | Refresher

  datatype Phase =
    | AtGet | AtTouch | AtPut                                  // currentSession
    | AtCheck                                                  // sess.MatchCSRF
    | AtRevoke | AtLoad                                        // logout
    | AtDelete(mark: nat) | AtCompare(mark: nat)
    | AtEnsure | AtPutFresh | AtFatalDelete                    // EnsureFresh
    | AtUpstream | AtPutElevated                               // elevate
    | Answered(status: int)

  /** The session object a handler works on, and when the handler read it. */
  datatype Hold = Hold(ref: Ref, since: int)

  datatype Req = Req(handler: Handler, cookie: Id, header: string, phase: Phase, hold: Option<Hold>)

  /** What handlers did to a session, in order: the history the theorems speak about. */
  datatype Deed = RevokedTokens | DeletedRow | SteppedUp | Refreshed | DroppedRejected
  datatype Effect = Effect(rid: Rid, id: Id, deed: Deed)

  /** The access token a logout had revoked, and how many the session had been given by then. */
  datatype Revocation = Revocation(token: string, given: nat)

  /** History that no handler reads. */
  datatype Book = Book(
    csrfOf: map<Id, string>,        // every session ever minted, with its CSRF token
    issued: map<Id, seq<string>>,   // the access tokens given to each session, oldest first
    deletedAt: map<Id, int>,        // when each deleted session was last deleted
    effects: seq<Effect>,
    revoked: map<Rid, Revocation>)

  datatype State = State(
    clock: int,
    rows: map<Id, Row>,
    heap: map<Ref, Session>,
    nextRef: Ref,
    failures: nat,                  // failed statements so far; the counter shows them mod 2^64
    reqs: map<Rid, Req>,
    book: Book)

  const INIT := State(0, map[], map[], 0, 0, map[], Book(map[], map[], map[], [], map[]))

  /** What the store, the issuer and the upstream answer. */
  datatype Outcome =
    | Done                                                     // the statement or call succeeded
    | Failed                                                   // a statement failed (Durable only)
    | Expired                                                  // the store no longer serves the row
    | NewToken(access: string)                                 // EnsureFresh refreshed
    | Rejected                                                 // the issuer rejected the refresh
    | Transient                                                // the token endpoint is unavailable
    | BadRequest | NoReply                                     // no upstream response
    | Reply(code: int, parsed: bool, token: string, expiresIn: int)

  datatype Action =
    | Tick(now: int)
    | Sweep(expired: set<Id>)
    | Mint(id: Id, csrf: string, access: string)
    | Arrive(rid: Rid, handler: Handler, cookie: Id, header: string)
    | Detach(rid: Rid, task: Rid)                              // a refresh that outlives its request
    | Advance(rid: Rid, outcome: Outcome)

  predicate IsLive(s: State, id: Id) {
    id in s.rows && !s.rows[id].Tombstone?
  }

  function Note(s: State, rid: Rid, id: Id, deed: Deed): Book {
    s.book.(effects := s.book.effects + [Effect(rid, id, deed)])
  }

  predicate RowFits(heap: map<Ref, Session>, book: Book, id: Id, row: Row) {
    match row
    case Pointer(ref) => ref in heap && heap[ref].id == id
    case Snapshot(session) => session.id == id && id in book.csrfOf
    case Tombstone(_) => true
  }

  predicate ReqFits(heap: map<Ref, Session>, r: Req) {
    && (r.hold.Some? ==> r.hold.value.ref in heap && heap[r.hold.value.ref].id == r.cookie)
    && (r.hold.None? ==> r.phase.AtGet? || r.phase.Answered?)
    && (r.phase.AtGet? ==> r.hold.None?)
  }

  // ---- the store -------------------------------------------------------------------

  /** SessionStore.Put: insert or overwrite, but never over a tombstone. */
  function PutRow(cfg: Config, s: State, ref: Ref): map<Id, Row>
    requires ref in s.heap
  {
    var id := s.heap[ref].id;
    if id in s.rows && s.rows[id].Tombstone? then s.rows
    else s.rows[id := if cfg.kind.Memory? then Pointer(ref) else Snapshot(s.heap[ref])]
  }

  /** writeBack: a failed statement changes nothing but the failure count. */
  function Put(cfg: Config, s: State, ref: Ref, outcome: Outcome): State
    requires ref in s.heap
  {
    if outcome.Failed? then s.(failures := s.failures + 1)
    else s.(rows := PutRow(cfg, s, ref))
  }

  /** SessionStore.Delete: tombstone the row, or count a failed statement. */
  function Delete(s: State, rid: Rid, id: Id, deed: Deed, outcome: Outcome): State {
    if outcome.Failed? then s.(failures := s.failures + 1)
    else s.(rows := s.rows[id := Tombstone(s.clock)],
            book := Note(s, rid, id, deed).(deletedAt := s.book.deletedAt[id := s.clock]))
  }

  /** Session.SetTokens on the object the handler holds. */
  function SetTokens(s: State, rid: Rid, ref: Ref, access: string, deed: Deed): State
    requires ref in s.heap && s.heap[ref].id in s.book.issued
  {
    var id := s.heap[ref].id;
    s.(heap := s.heap[ref := s.heap[ref].(access := access)],
       book := Note(s, rid, id, deed).(issued := s.book.issued[id := s.book.issued[id] + [access]]))
  }

  /** revokeSessionTokens: the token of the object the logout holds. */
  function NoteRevocation(s: State, rid: Rid, ref: Ref): Book
    requires ref in s.heap && s.heap[ref].id in s.book.issued
  {
    var session := s.heap[ref];
    Note(s, rid, session.id, RevokedTokens).(
      revoked := s.book.revoked[rid := Revocation(session.access, |s.book.issued[session.id]|)])
  }

  // ---- the handlers, one atomic step at a time -------------------------------------

  function Goto(s: State, rid: Rid, phase: Phase): State
    requires rid in s.reqs
  {
    s.(reqs := s.reqs[rid := s.reqs[rid].(phase := phase)])
  }

  /** How a handler answers when the cookie resolves to no session. */
  function NoSession(handler: Handler): Phase {
    match handler
    case SessionInfo => Answered(200)
    case Logout => Answered(204)
    case Elevate | Gateway | Refresher => Answered(401)
  }

  function AfterPut(handler: Handler): Phase {
    match handler
    case SessionInfo => Answered(200)
    case Logout | Elevate => AtCheck
    case Gateway | Refresher => AtEnsure
  }

  function AfterCheck(handler: Handler): Phase {
    if handler.Logout? then AtRevoke else AtEnsure
  }

  function AfterEnsure(handler: Handler): Phase {
    if handler.Elevate? then AtUpstream else Answered(200)
  }

  /** Gateway.SessionFromRequest. */
  function Resolve(cfg: Config, s: State, rid: Rid, outcome: Outcome): State
    requires rid in s.reqs
    requires IsLive(s, s.reqs[rid].cookie) ==> RowFits(s.heap, s.book, s.reqs[rid].cookie, s.rows[s.reqs[rid].cookie])
  {
    var r := s.reqs[rid];
    if outcome.Done? && IsLive(s, r.cookie) then
      var row := s.rows[r.cookie];
      if row.Pointer? then
        s.(reqs := s.reqs[rid := r.(phase := AtTouch, hold := Some(Hold(row.ref, s.clock)))])
      else
        var ref := s.nextRef;
        s.(heap := s.heap[ref := row.session],
           nextRef := ref + 1,
           reqs := s.reqs[rid := r.(phase := AtTouch, hold := Some(Hold(ref, s.clock)))])
    else
      var t := if outcome.Failed? then s.(failures := s.failures + 1) else s;
      Goto(t, rid, NoSession(r.handler))
  }

  /** The upstream's 200 carries a token a step-up can use. */
  predicate Usable(o: Outcome) {
    o.Reply? && o.code == 200 && o.parsed && o.token != "" && o.expiresIn > 0
  }

  /** handleElevate's answer when the upstream gave no usable token. */
  function ElevateFailure(o: Outcome): int {
    if o.BadRequest? then 500
    else if o.Reply? && o.code != 200 && 400 <= o.code < 500 then o.code
    else 502
  }

  /** What one step of a handler that holds a session does to the shared state. */
  function Touches(cfg: Config, s: State, rid: Rid, o: Outcome): State
    requires rid in s.reqs && s.reqs[rid].hold.Some?
    requires s.reqs[rid].hold.value.ref in s.heap
    requires s.heap[s.reqs[rid].hold.value.ref].id in s.book.issued
  {
    var r := s.reqs[rid];
    var ref := r.hold.value.ref;
    var id := s.heap[ref].id;
    match r.phase
    case AtTouch => s.(heap := s.heap[ref := s.heap[ref].(lastSeen := s.clock)])
    case AtPut | AtPutFresh | AtPutElevated => Put(cfg, s, ref, o)
    case AtRevoke => s.(book := NoteRevocation(s, rid, ref))
    case AtDelete(_) => Delete(s, rid, id, DeletedRow, o)
    case AtFatalDelete => Delete(s, rid, id, if r.handler.Elevate? then DeletedRow else DroppedRejected, o)
    case AtEnsure => if o.NewToken? && o.access != "" then SetTokens(s, rid, ref, o.access, Refreshed) else s
    case AtUpstream => if Usable(o) then SetTokens(s, rid, ref, o.token, SteppedUp) else s
    case _ => s
  }

  /** Where that step leaves the handler. */
  function NextPhase(s: State, r: Req, o: Outcome): Phase
    requires r.hold.Some? && r.hold.value.ref in s.heap
  {
    match r.phase
    case AtTouch => AtPut
    case AtPut => AfterPut(r.handler)
    case AtCheck =>
      if r.header != "" && r.header == s.heap[r.hold.value.ref].csrf then AfterCheck(r.handler) else Answered(403)
    case AtRevoke => AtLoad
    case AtLoad => AtDelete(s.failures)
    case AtDelete(mark) => AtCompare(mark)
    case AtCompare(mark) => Answered(if s.failures % COUNTER_RANGE != mark % COUNTER_RANGE then 500 else 204)
    case AtEnsure =>
      if o.NewToken? && o.access != "" then AtPutFresh
      else if o.Rejected? then AtFatalDelete
      else if o.Done? then AfterEnsure(r.handler)
      else Answered(502)
    case AtPutFresh => AfterEnsure(r.handler)
    case AtFatalDelete => Answered(401)
    case AtUpstream => if Usable(o) then AtPutElevated else Answered(ElevateFailure(o))
    case AtPutElevated => Answered(204)
    case _ => r.phase
  }

  /** The step gives the session of the object that rid holds a new token. */
  predicate Gives(s: State, rid: Rid, o: Outcome) {
    && rid in s.reqs
    && ((s.reqs[rid].phase.AtEnsure? && o.NewToken? && o.access != "") || (s.reqs[rid].phase.AtUpstream? && Usable(o)))
  }

  predicate AtAnyPut(r: Req) {
    r.phase.AtPut? || r.phase.AtPutFresh? || r.phase.AtPutElevated?
  }

  predicate AtAnyDelete(r: Req) {
    r.phase.AtDelete? || r.phase.AtFatalDelete?
  }

  function Given(o: Outcome): string
    requires o.NewToken? || o.Reply?
  {
    if o.NewToken? then o.access else o.token
  }

  // ---- steps of the whole system ---------------------------------------------------

  predicate InFlight(r: Req) {
    r.hold.Some? && !r.phase.Answered?
  }

  /** The part of the invariant that makes every step well defined. */
  ghost predicate WellFormed(s: State) {
    && (forall id | id in s.rows :: RowFits(s.heap, s.book, id, s.rows[id]))
    && (forall ref | ref in s.heap :: ref < s.nextRef && s.heap[ref].id in s.book.csrfOf)
    && (forall rid | rid in s.reqs :: ReqFits(s.heap, s.reqs[rid]))
    && s.book.issued.Keys == s.book.csrfOf.Keys
  }

  ghost predicate Enabled(cfg: Config, s: State, a: Action) {
    match a
    case Tick(now) => s.clock <= now
    case Sweep(_) => true
    // RandomToken is fresh, and oauthClient.token refuses an empty access token
    case Mint(id, csrf, access) => id !in s.book.csrfOf && csrf != "" && access != ""
    case Arrive(rid, handler, _, _) => rid !in s.reqs && !handler.Refresher?
    case Detach(rid, task) => rid in s.reqs && s.reqs[rid].phase.AtEnsure? && task !in s.reqs
    case Advance(rid, o) => rid in s.reqs && !s.reqs[rid].phase.Answered? && (o.Failed? ==> cfg.kind.Durable?)
  }

  /** The sweeper drops the live rows the store calls expired and every tombstone past its TTL. */
  function SweepRows(cfg: Config, s: State, expired: set<Id>): map<Id, Row> {
    map id | id in s.rows
             && !(if s.rows[id].Tombstone? then s.clock - s.rows[id].at > cfg.tombstoneTTL else id in expired)
           :: s.rows[id]
  }

  /** handleCallback's store.Put of the session it just built. */
  function MintSession(cfg: Config, s: State, id: Id, csrf: string, access: string): State {
    var session := Session(id, csrf, access, s.clock);
    var ref := s.nextRef;
    s.(heap := s.heap[ref := session],
       nextRef := ref + 1,
       rows := s.rows[id := if cfg.kind.Memory? then Pointer(ref) else Snapshot(session)],
       book := s.book.(csrfOf := s.book.csrfOf[id := csrf], issued := s.book.issued[id := [access]]))
  }

  function Next(cfg: Config, s: State, a: Action): (t: State)
    requires WellFormed(s) && Enabled(cfg, s, a)
  {
    match a
    case Tick(now) => s.(clock := now)
    case Sweep(expired) => s.(rows := SweepRows(cfg, s, expired))
    case Mint(id, csrf, access) => MintSession(cfg, s, id, csrf, access)
    case Arrive(rid, handler, cookie, header) =>
      s.(reqs := s.reqs[rid := Req(handler, cookie, header, AtGet, None)])
    case Detach(rid, task) =>
      s.(reqs := s.reqs[task := s.reqs[rid].(handler := Refresher)])
    case Advance(rid, o) =>
      if s.reqs[rid].phase.AtGet? then Resolve(cfg, s, rid, o)
      else Goto(Touches(cfg, s, rid, o), rid, NextPhase(s, s.reqs[rid], o))
  }

  /** Every request, and every detached refresh, that read a session is done within the
      tombstone TTL of that read. */
  ghost predicate Timely(cfg: Config, s: State, a: Action) {
    (a.Advance? && a.rid in s.reqs && InFlight(s.reqs[a.rid])) ==>
      s.clock <= s.reqs[a.rid].hold.value.since + cfg.tombstoneTTL
  }

  /** A logout's two counter reads see fewer than 2^64 failures between them. */
  ghost predicate NoWrap(s: State, a: Action) {
    (a.Advance? && a.rid in s.reqs && s.reqs[a.rid].phase.AtCompare?) ==>
      s.failures < s.reqs[a.rid].phase.mark + COUNTER_RANGE
  }

  /** What a run is asked for: that its steps are on time, that the counter does not wrap. */
  datatype Discipline = Discipline(timely: bool, noWrap: bool)

  const ANY_RUN := Discipline(false, false)

  ghost predicate Obeys(cfg: Config, d: Discipline, s: State, a: Action) {
    (d.timely ==> Timely(cfg, s, a)) && (d.noWrap ==> NoWrap(s, a))
  }

  /** acts is a run from s to t, in which every step is enabled and obeys d. */
  ghost predicate Leads(cfg: Config, d: Discipline, s: State, acts: seq<Action>, t: State)
    decreases |acts|
  {
    if acts == [] then s == t
    else
      && WellFormed(s) && Enabled(cfg, s, acts[0]) && Obeys(cfg, d, s, acts[0])
      && Leads(cfg, d, Next(cfg, s, acts[0]), acts[1..], t)
  }

  ghost predicate Reached(cfg: Config, d: Discipline, s: State) {
    exists acts :: Leads(cfg, d, INIT, acts, s)
  }
}
