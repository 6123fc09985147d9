// The setup pages: one-time OAuth states, sessions that expire, and the credentials stored under them.
module Setup {
  import opened Wrappers
  import opened Text

  datatype AuthType = ApiKey | Subscription

  // ---- The two-part write of a credential ----

  // The secret and its label, as they stand in one installation's row. Encryption at rest is an inverse
  // pair and leaves no trace here.
  datatype Credential = Credential(secret: string, authType: AuthType)

  type Vault = map<int, Credential>

  // Rotating a secret keeps the label the row had.
  function Upsert(v: Vault, id: int, secret: string): Vault {
    v[id := Credential(secret, if id in v then v[id].authType else ApiKey)]
  }

  // Labels the row if there is one.
  function SetLabel(v: Vault, id: int, authType: AuthType): (r: (Vault, bool))
  {
    if id in v then (v[id := v[id].(authType := authType)], true) else (v, false)
  }

  function WriteAuth(v: Vault, id: int, authType: AuthType, secret: string): (Vault, bool) {
    SetLabel(Upsert(v, id, secret), id, authType)
  }

  // An empty secret counts as none.
  function ReadAuth(v: Vault, id: int): Option<Credential> {
    if id in v && v[id].secret != "" then Some(v[id]) else None
  }

  // What was written is read back exactly if it was not empty; the label is never refused; and no
  // other installation notices.
  lemma WriteReadRoundTrip(v: Vault, id: int, authType: AuthType, secret: string)
    ensures var (after, labelled) := WriteAuth(v, id, authType, secret);
      && labelled
      && (ReadAuth(after, id) == Some(Credential(secret, authType)) <==> secret != "")
      && forall other | other != id :: ReadAuth(after, other) == ReadAuth(v, other)
  {
  }

  // Between the two writes the new secret carries the old label: it reads back right exactly if the
  // label does not change.
  lemma LabelWindow(v: Vault, id: int, authType: AuthType, secret: string)
    requires secret != ""
    ensures ReadAuth(Upsert(v, id, secret), id) == Some(Credential(secret, authType)) <==>
      (if id in v then v[id].authType == authType else authType.ApiKey?)
  {
  }

  // ---- The trace ----

  // Events carry the time they happened at: a page asks GitHub or a validator in between, and that takes time.
  datatype SetupEvent =
    | Minted(state: string, installation: int, at: int)
    | Consumed(state: string, installation: int, at: int)
    | SessionOpened(session: string, state: string, verified: set<int>, at: int)
    | Admitted(session: string, installation: int, at: int)
    | Validated(authType: AuthType, secret: string)
    | Stored(session: string, installation: int, authType: AuthType, secret: string, at: int)

  // A state is consumed only while it is valid. A session is opened only right after that, and only if the
  // visitor manages the installation the state was minted for. A form is admitted only under a session still
  // valid that verified the installation. A credential is stored only for a form so admitted, right after
  // the validator accepted this very trimmed secret.
  ghost predicate EventOk(past: seq<SetupEvent>, e: SetupEvent, ttl: int) {
    match e
    case Minted(_, _, _) => true
    case Validated(_, _) => true
    case Consumed(state, installation, at) =>
      exists m | 0 <= m < |past| ::
        past[m].Minted? && past[m].state == state && past[m].installation == installation && at <= past[m].at + ttl
    case SessionOpened(_, state, verified, at) =>
      past != [] && var last := past[|past| - 1];
      last.Consumed? && last.state == state && last.installation in verified && last.at <= at
    case Admitted(session, installation, at) =>
      exists k | 0 <= k < |past| ::
        past[k].SessionOpened? && past[k].session == session && installation in past[k].verified
        && at <= past[k].at + ttl
    case Stored(session, installation, authType, secret, at) =>
      && |past| >= 2 && past[|past| - 1] == Validated(authType, secret) && secret == Trim(secret) && secret != ""
      && var form := past[|past| - 2];
         form.Admitted? && form.session == session && form.installation == installation && form.at <= at
  }

  ghost predicate TraceOk(trace: seq<SetupEvent>, ttl: int) {
    forall i | 0 <= i < |trace| :: EventOk(trace[..i], trace[i], ttl)
  }

  lemma TraceGrows(trace: seq<SetupEvent>, e: SetupEvent, ttl: int)
    requires TraceOk(trace, ttl) && EventOk(trace, e, ttl)
    ensures TraceOk(trace + [e], ttl)
  {
    hide EventOk;
    var more := trace + [e];
    forall i | 0 <= i < |more| ensures EventOk(more[..i], more[i], ttl) {
      assert more[..i] == trace[..i];
      if i == |trace| { assert trace[..i] == trace; }
    }
  }

  function Mints(trace: seq<SetupEvent>, state: string): nat {
    if trace == [] then 0
    else
      var e := trace[|trace| - 1];
      Mints(trace[..|trace| - 1], state) + if e.Minted? && e.state == state then 1 else 0
  }

  function SessionsFrom(trace: seq<SetupEvent>, state: string): nat {
    if trace == [] then 0
    else
      var e := trace[|trace| - 1];
      SessionsFrom(trace[..|trace| - 1], state) + if e.SessionOpened? && e.state == state then 1 else 0
  }

  lemma CountsGrow(trace: seq<SetupEvent>, e: SetupEvent, state: string)
    ensures Mints(trace + [e], state) == Mints(trace, state) + if e.Minted? && e.state == state then 1 else 0
    ensures SessionsFrom(trace + [e], state)
         == SessionsFrom(trace, state) + if e.SessionOpened? && e.state == state then 1 else 0
  {
    assert (trace + [e])[..|trace|] == trace;
  }

  // ---- Sessions ----

  datatype PendingState = PendingState(installation: int, expiresAt: int)

  datatype SetupSession = SetupSession(verified: set<int>, expiresAt: int)

  predicate MintedAs(e: SetupEvent, state: string, p: PendingState, ttl: int) {
    e.Minted? && e.state == state && e.installation == p.installation && p.expiresAt == e.at + ttl
  }

  predicate OpenedAs(e: SetupEvent, session: string, s: SetupSession, ttl: int) {
    e.SessionOpened? && e.session == session && e.verified == s.verified && s.expiresAt == e.at + ttl
  }

  // Every pending state was minted.
  ghost predicate StatesMinted(states: map<string, PendingState>, trace: seq<SetupEvent>, ttl: int) {
    forall s | s in states :: exists m | 0 <= m < |trace| :: MintedAs(trace[m], s, states[s], ttl)
  }

  // Every session was opened.
  ghost predicate SessionsOpened(sessions: map<string, SetupSession>, trace: seq<SetupEvent>, ttl: int) {
    forall id | id in sessions :: exists k | 0 <= k < |trace| :: OpenedAs(trace[k], id, sessions[id], ttl)
  }

  // No state yields more sessions than it was minted, and one still pending has one to spare.
  ghost predicate OneTime(states: map<string, PendingState>, trace: seq<SetupEvent>) {
    forall s :: SessionsFrom(trace, s) + (if s in states then 1 else 0) <= Mints(trace, s)
  }

  lemma StatesStillMinted(states: map<string, PendingState>, trace: seq<SetupEvent>, e: SetupEvent, ttl: int)
    requires StatesMinted(states, trace, ttl)
    ensures StatesMinted(states, trace + [e], ttl)
  {
    forall s | s in states ensures exists m | 0 <= m < |trace + [e]| :: MintedAs((trace + [e])[m], s, states[s], ttl) {
      var m :| 0 <= m < |trace| && MintedAs(trace[m], s, states[s], ttl);
      assert (trace + [e])[m] == trace[m];
    }
  }

  lemma SessionsStillOpened(sessions: map<string, SetupSession>, trace: seq<SetupEvent>, e: SetupEvent, ttl: int)
    requires SessionsOpened(sessions, trace, ttl)
    ensures SessionsOpened(sessions, trace + [e], ttl)
  {
    forall id | id in sessions ensures exists k | 0 <= k < |trace + [e]| :: OpenedAs((trace + [e])[k], id, sessions[id], ttl) {
      var k :| 0 <= k < |trace| && OpenedAs(trace[k], id, sessions[id], ttl);
      assert (trace + [e])[k] == trace[k];
    }
  }

  lemma StateMinted(states: map<string, PendingState>, trace: seq<SetupEvent>, token: string, installation: int, now: int,
                    ttl: int)
    requires StatesMinted(states, trace, ttl) && OneTime(states, trace)
    ensures var more := trace + [Minted(token, installation, now)];
      var after := states[token := PendingState(installation, now + ttl)];
      StatesMinted(after, more, ttl) && OneTime(after, more)
  {
    var e := Minted(token, installation, now);
    StatesStillMinted(states, trace, e, ttl);
    forall s { CountsGrow(trace, e, s); }
    hide Mints, SessionsFrom;
    assert (trace + [e])[|trace|] == e;
  }

  lemma SessionOpenedFrom(states: map<string, PendingState>, sessions: map<string, SetupSession>, trace: seq<SetupEvent>,
                          token: string, state: string, verified: set<int>, now: int, ttl: int)
    requires SessionsOpened(sessions, trace, ttl) && OneTime(states, trace)
    requires SessionsFrom(trace, state) + (if state in states then 1 else 0) < Mints(trace, state)
    ensures var more := trace + [SessionOpened(token, state, verified, now)];
      SessionsOpened(sessions[token := SetupSession(verified, now + ttl)], more, ttl) && OneTime(states, more)
  {
    var e := SessionOpened(token, state, verified, now);
    SessionsStillOpened(sessions, trace, e, ttl);
    forall s { CountsGrow(trace, e, s); }
    hide Mints, SessionsFrom;
    assert (trace + [e])[|trace|] == e;
  }

  class SessionStore {
    const ttl: int
    var now: int
    var states: map<string, PendingState>
    var sessions: map<string, SetupSession>
    ghost var trace: seq<SetupEvent>

    ghost predicate Valid()
      reads this
    {
      && TraceOk(trace, ttl) && OneTime(states, trace)
      && StatesMinted(states, trace, ttl) && SessionsOpened(sessions, trace, ttl)
    }

    constructor (ttl: int, now: int)
      ensures Valid() && trace == [] && this.ttl == ttl && this.now == now
      ensures states == map[] && sessions == map[]
    {
      this.ttl := ttl;
      this.now := now;
      states := map[];
      sessions := map[];
      trace := [];
    }

    // An event that opens no session leaves states and sessions alone.
    ghost method Witness(e: SetupEvent)
      requires Valid() && EventOk(trace, e, ttl) && !e.SessionOpened?
      modifies this`trace
      ensures Valid() && trace == old(trace) + [e]
    {
      TraceGrows(trace, e, ttl);
      StatesStillMinted(states, trace, e, ttl);
      SessionsStillOpened(sessions, trace, e, ttl);
      forall s { CountsGrow(trace, e, s); }
      hide EventOk, StatesMinted, SessionsOpened, TraceOk, Mints, SessionsFrom;
      trace := trace + [e];
    }

    // A foreign call takes its time.
    method Pass(takes: nat)
      modifies this`now
      ensures now == old(now) + takes
    {
      now := now + takes;
    }

    // `token` is what the random source yields.
    method CreateState(installation: int, token: string)
      requires Valid()
      modifies this
      ensures Valid() && sessions == old(sessions) && now == old(now)
      ensures states == old(states)[token := PendingState(installation, now + ttl)]
      ensures trace == old(trace) + [Minted(token, installation, now)]
    {
      hide StatesMinted, SessionsOpened, TraceOk, OneTime;
      ghost var e := Minted(token, installation, now);
      StateMinted(states, trace, token, installation, now, ttl);
      TraceGrows(trace, e, ttl);
      SessionsStillOpened(sessions, trace, e, ttl);
      trace := trace + [e];
      states := states[token := PendingState(installation, now + ttl)];
    }

    // One-time: the state is gone, whether it was still valid or not.
    method ConsumeState(state: string) returns (installation: Option<int>)
      requires Valid()
      modifies this`states
      ensures Valid() && states == old(states) - {state}
      ensures installation.Some? <==> state in old(states) && old(states)[state].expiresAt >= now
      ensures installation.Some? ==>
        && installation.value == old(states)[state].installation
        && SessionsFrom(trace, state) + 1 <= Mints(trace, state)
        && EventOk(trace, Consumed(state, installation.value, now), ttl)
    {
      hide TraceOk, SessionsOpened, Mints, SessionsFrom;
      if state !in states { return None; }
      var pending := states[state];
      states := states - {state};
      installation := if pending.expiresAt < now then None else Some(pending.installation);
    }

    method CreateSession(verified: set<int>, token: string, ghost state: string)
      requires Valid() && SessionsFrom(trace, state) + (if state in states then 1 else 0) < Mints(trace, state)
      requires EventOk(trace, SessionOpened(token, state, verified, now), ttl)
      modifies this
      ensures Valid() && states == old(states) && now == old(now)
      ensures sessions == old(sessions)[token := SetupSession(verified, now + ttl)]
      ensures trace == old(trace) + [SessionOpened(token, state, verified, now)]
    {
      hide StatesMinted, SessionsOpened, TraceOk, OneTime;
      ghost var e := SessionOpened(token, state, verified, now);
      TraceGrows(trace, e, ttl);
      StatesStillMinted(states, trace, e, ttl);
      SessionOpenedFrom(states, sessions, trace, token, state, verified, now, ttl);
      trace := trace + [e];
      sessions := sessions[token := SetupSession(verified, now + ttl)];
    }

    // A live session, or none if it is unknown or has expired; an expired one is forgotten.
    method GetSession(id: string) returns (session: Option<SetupSession>)
      requires Valid()
      modifies this`sessions
      ensures Valid()
      ensures session.Some? <==> id in old(sessions) && old(sessions)[id].expiresAt >= now
      ensures session.Some? ==> session.value == old(sessions)[id] && sessions == old(sessions)
      ensures session.None? ==> sessions == old(sessions) - {id}
    {
      if id !in sessions {
        assert sessions - {id} == sessions;
        return None;
      }
      if sessions[id].expiresAt < now {
        sessions := sessions - {id};
        return None;
      }
      return Some(sessions[id]);
    }
  }

  // A state minted once yields one session at most.
  lemma OneSessionPerState(states: map<string, PendingState>, trace: seq<SetupEvent>, state: string)
    requires OneTime(states, trace) && Mints(trace, state) <= 1
    ensures SessionsFrom(trace, state) <= 1
    ensures state in states ==> SessionsFrom(trace, state) == 0
  {
    assert SessionsFrom(trace, state) + (if state in states then 1 else 0) <= Mints(trace, state);
  }

  // ---- The pages ----

  // How the validator for the chosen kind of credential answers about this secret.
  datatype Verdict = Accepts | Rejects | CheckFails

  predicate StoredAs(e: SetupEvent, id: int, c: Credential) {
    e.Stored? && e.installation == id && c == Credential(e.secret, e.authType)
  }

  // Every credential on file was stored by these pages, with the label it now carries.
  ghost predicate VaultBacked(v: Vault, trace: seq<SetupEvent>) {
    forall id | id in v :: exists i | 0 <= i < |trace| :: StoredAs(trace[i], id, v[id])
  }

  lemma StillBacked(trace: seq<SetupEvent>, v: Vault, e: SetupEvent)
    requires VaultBacked(v, trace)
    ensures VaultBacked(v, trace + [e])
  {
    forall id | id in v ensures exists i | 0 <= i < |trace + [e]| :: StoredAs((trace + [e])[i], id, v[id]) {
      var i :| 0 <= i < |trace| && StoredAs(trace[i], id, v[id]);
      assert (trace + [e])[i] == trace[i];
    }
  }

  lemma NewlyBacked(trace: seq<SetupEvent>, v: Vault, e: SetupEvent)
    requires VaultBacked(v, trace) && e.Stored?
    ensures VaultBacked(WriteAuth(v, e.installation, e.authType, e.secret).0, trace + [e])
  {
    StillBacked(trace, v, e);
    assert (trace + [e])[|trace|] == e;
  }

  // The form behind the credential stored by event `i` was admitted under a session still valid by then,
  // which event `k` had opened for a visitor who managed the installation of a state that event `m` minted
  // and that was still valid when he came back.
  predicate EarnedBy(trace: seq<SetupEvent>, i: nat, k: nat, m: nat, id: int, ttl: int)
    requires m + 1 < k && k + 2 < i < |trace|
  {
    var form, back := trace[i - 2], trace[k - 1];
    && trace[i].Stored? && form.Admitted? && form.session == trace[i].session && form.at <= trace[i].at
    && trace[k].SessionOpened? && trace[k].session == form.session && id in trace[k].verified
    && form.at <= trace[k].at + ttl
    && back.Consumed? && back.state == trace[k].state && back.installation in trace[k].verified && back.at <= trace[k].at
    && trace[m].Minted? && trace[m].state == back.state && trace[m].installation == back.installation
    && back.at <= trace[m].at + ttl
  }

  // Whatever is on file was earned: a visitor proved to manage the installation, the session counted when
  // the form arrived, and the validator had just accepted this very secret, trimmed, for this very label.
  lemma CredentialEarned(v: Vault, trace: seq<SetupEvent>, ttl: int, id: int)
    requires VaultBacked(v, trace) && TraceOk(trace, ttl) && id in v
    ensures v[id].secret == Trim(v[id].secret) && v[id].secret != ""
    ensures exists m: nat, k: nat, i: nat | m + 1 < k && k + 2 < i < |trace| ::
      && StoredAs(trace[i], id, v[id]) && trace[i - 1] == Validated(v[id].authType, v[id].secret)
      && EarnedBy(trace, i, k, m, id, ttl)
  {
    hide Trim, TraceOk, EventOk;
    var i :| 0 <= i < |trace| && StoredAs(trace[i], id, v[id]);
    StoredFacts(trace, i, ttl);
    var k := FormsSession(trace, i - 2, ttl);
    var m := StatesMint(trace, k - 1, ttl);
    assert EarnedBy(trace, i, k, m, id, ttl);
  }

  lemma StoredFacts(trace: seq<SetupEvent>, i: nat, ttl: int)
    requires TraceOk(trace, ttl) && i < |trace| && trace[i].Stored?
    ensures i >= 2 && trace[i - 1] == Validated(trace[i].authType, trace[i].secret)
    ensures trace[i].secret == Trim(trace[i].secret) && trace[i].secret != ""
    ensures trace[i - 2].Admitted? && trace[i - 2].session == trace[i].session
    ensures trace[i - 2].installation == trace[i].installation && trace[i - 2].at <= trace[i].at
  {
    hide Trim;
    assert EventOk(trace[..i], trace[i], ttl);
  }

  lemma FormsSession(trace: seq<SetupEvent>, i: nat, ttl: int) returns (k: nat)
    requires TraceOk(trace, ttl) && i < |trace| && trace[i].Admitted?
    ensures 0 < k < i && trace[k].SessionOpened? && trace[k].session == trace[i].session
    ensures trace[i].installation in trace[k].verified && trace[i].at <= trace[k].at + ttl
    ensures trace[k - 1].Consumed? && trace[k - 1].state == trace[k].state
    ensures trace[k - 1].installation in trace[k].verified && trace[k - 1].at <= trace[k].at
  {
    assert EventOk(trace[..i], trace[i], ttl);
    k :| 0 <= k < i && trace[..i][k].SessionOpened? && trace[..i][k].session == trace[i].session
      && trace[i].installation in trace[..i][k].verified && trace[i].at <= trace[..i][k].at + ttl;
    assert EventOk(trace[..k], trace[k], ttl);
  }

  lemma StatesMint(trace: seq<SetupEvent>, i: nat, ttl: int) returns (m: nat)
    requires TraceOk(trace, ttl) && i < |trace| && trace[i].Consumed?
    ensures m < i && trace[m].Minted? && trace[m].state == trace[i].state
    ensures trace[m].installation == trace[i].installation && trace[i].at <= trace[m].at + ttl
  {
    assert EventOk(trace[..i], trace[i], ttl);
    m :| 0 <= m < i && trace[..i][m].Minted? && trace[..i][m].state == trace[i].state
      && trace[..i][m].installation == trace[i].installation && trace[i].at <= trace[..i][m].at + ttl;
  }

  lemma MayOpen(trace: seq<SetupEvent>, back: SetupEvent, token: string, verified: set<int>, now: int, ttl: int)
    requires trace != [] && trace[|trace| - 1] == back && back.Consumed?
    requires back.installation in verified && back.at <= now
    ensures EventOk(trace, SessionOpened(token, back.state, verified, now), ttl)
  {
  }

  // A live session that verified an installation may have its form admitted.
  lemma MayAdmit(trace: seq<SetupEvent>, sessions: map<string, SetupSession>, session: string, id: int, now: int, ttl: int)
    requires SessionsOpened(sessions, trace, ttl) && session in sessions
    requires sessions[session].expiresAt >= now && id in sessions[session].verified
    ensures EventOk(trace, Admitted(session, id, now), ttl)
  {
    var k :| 0 <= k < |trace| && OpenedAs(trace[k], session, sessions[session], ttl);
  }

  class SetupPages {
    const sessions: SessionStore
    const allowSubscriptionAuth: bool
    var vault: Vault

    ghost predicate Valid()
      reads this, sessions
    {
      sessions.Valid() && VaultBacked(vault, sessions.trace)
    }

    constructor (sessions: SessionStore, allowSubscriptionAuth: bool)
      requires sessions.Valid()
      ensures Valid() && this.sessions == sessions && vault == map[]
    {
      this.sessions := sessions;
      this.allowSubscriptionAuth := allowSubscriptionAuth;
      vault := map[];
    }

    method HandleSetupStart(installation: Option<int>, token: string) returns (redirected: bool)
      requires Valid()
      modifies sessions
      ensures Valid() && (redirected <==> installation.Some?)
      ensures sessions.now == old(sessions.now)
      ensures redirected ==>
        && sessions.states == old(sessions.states)[token := PendingState(installation.value, sessions.now + sessions.ttl)]
        && sessions.trace == old(sessions.trace) + [Minted(token, installation.value, sessions.now)]
      ensures !redirected ==> sessions.trace == old(sessions.trace) && sessions.states == old(sessions.states)
    {
      if installation.None? { return false; }
      StillBacked(sessions.trace, vault, Minted(token, installation.value, sessions.now));
      sessions.CreateState(installation.value, token);
      return true;
    }

    // `listing` is the installations the visitor manages, or nothing if GitHub could not be asked; asking
    // takes `takes`. The state must count when the visitor comes back; the session counts from its opening.
    method HandleCallback(code: string, state: string, listing: Option<set<int>>, takes: nat, token: string)
      returns (status: nat)
      requires Valid()
      modifies sessions
      ensures Valid() && sessions.now >= old(sessions.now)
      ensures status == 200 <==>
        && code != "" && state != "" && state in old(sessions.states)
        && old(sessions.states)[state].expiresAt >= old(sessions.now)
        && listing.Some? && old(sessions.states)[state].installation in listing.value
      ensures status == 200 ==>
        && sessions.now == old(sessions.now) + takes
        && sessions.sessions == old(sessions.sessions)[token := SetupSession(listing.value, sessions.now + sessions.ttl)]
        && sessions.trace == old(sessions.trace)
             + [Consumed(state, old(sessions.states)[state].installation, old(sessions.now))]
             + [SessionOpened(token, state, listing.value, sessions.now)]
      ensures status != 200 ==> sessions.sessions == old(sessions.sessions)
      ensures status != 200 ==> forall e | e in sessions.trace && e !in old(sessions.trace) :: e.Consumed?
      ensures code != "" && state != "" ==> state !in sessions.states
    {
      hide EventOk, TraceOk, OneTime, StatesMinted, SessionsOpened, VaultBacked, Mints, SessionsFrom;
      if code == "" || state == "" { return 400; }
      var installation := sessions.ConsumeState(state);
      if installation.None? { return 400; }
      ghost var back := Consumed(state, installation.value, sessions.now);
      StillBacked(sessions.trace, vault, back);
      CountsGrow(sessions.trace, back, state);
      sessions.Witness(back);
      sessions.Pass(takes);
      if listing.None? { return 502; }
      if installation.value !in listing.value { return 403; }
      StillBacked(sessions.trace, vault, SessionOpened(token, state, listing.value, sessions.now));
      MayOpen(sessions.trace, back, token, listing.value, sessions.now, sessions.ttl);
      sessions.CreateSession(listing.value, token, state);
      return 200;
    }

    // The same checks, in the order the page makes them.
    predicate Admits(session: Option<SetupSession>, installation: Option<int>, authType: Option<AuthType>, secret: string,
                     verdict: Verdict) {
      && session.Some? && installation.Some? && installation.value in session.value.verified
      && authType.Some? && (authType.value.Subscription? ==> allowSubscriptionAuth)
      && Trim(secret) != "" && verdict.Accepts?
    }

    // The session must count when the form arrives. The validator takes `takes`, and the credential is then
    // stored whether the session still counts or not: it does exactly if that was no longer than it had left.
    method HandleKeySubmit(sessionId: string, installation: Option<int>, authType: Option<AuthType>, secret: string,
                           verdict: Verdict, takes: nat)
      returns (status: nat)
      requires Valid()
      modifies this, sessions
      ensures Valid() && sessions.now >= old(sessions.now)
      ensures var live := sessionId != "" && sessionId in old(sessions.sessions)
                          && old(sessions.sessions)[sessionId].expiresAt >= old(sessions.now);
        status == 200 <==>
          Admits(if live then Some(old(sessions.sessions)[sessionId]) else None, installation, authType, secret, verdict)
      ensures status == 200 ==>
        && vault == WriteAuth(old(vault), installation.value, authType.value, Trim(secret)).0
        && sessions.now == old(sessions.now) + takes
        && sessions.trace == old(sessions.trace) + [Admitted(sessionId, installation.value, old(sessions.now))]
             + [Validated(authType.value, Trim(secret))]
             + [Stored(sessionId, installation.value, authType.value, Trim(secret), sessions.now)]
        && sessionId in sessions.sessions
        && (sessions.sessions[sessionId].expiresAt >= sessions.now <==>
              takes <= old(sessions.sessions)[sessionId].expiresAt - old(sessions.now))
      ensures status != 200 ==> vault == old(vault)
    {
      hide Trim, EventOk, TraceOk, OneTime, StatesMinted, SessionsOpened, VaultBacked, WriteAuth;
      var session := None;
      if sessionId != "" { session := sessions.GetSession(sessionId); }
      if session.None? { return 401; }
      if installation.None? || installation.value !in session.value.verified { return 403; }
      if authType.None? { return 400; }
      if authType.value.Subscription? && !allowSubscriptionAuth { return 400; }
      var trimmed := Trim(secret);
      if trimmed == "" { return 400; }
      TrimIdempotent(secret);
      AdmitForm(sessionId, session.value, installation.value);
      sessions.Pass(takes);
      if !verdict.Accepts? { return 400; }
      StoreCredential(sessionId, installation.value, authType.value, trimmed);
      return 200;
    }

    ghost method AdmitForm(sessionId: string, session: SetupSession, id: int)
      requires Valid() && sessionId in sessions.sessions && sessions.sessions[sessionId] == session
      requires session.expiresAt >= sessions.now && id in session.verified
      modifies sessions`trace
      ensures Valid() && sessions.trace == old(sessions.trace) + [Admitted(sessionId, id, sessions.now)]
    {
      hide EventOk, TraceOk, OneTime, StatesMinted, SessionsOpened, VaultBacked;
      var form := Admitted(sessionId, id, sessions.now);
      MayAdmit(sessions.trace, sessions.sessions, sessionId, id, sessions.now, sessions.ttl);
      StillBacked(sessions.trace, vault, form);
      sessions.Witness(form);
    }

    method StoreCredential(sessionId: string, id: int, authType: AuthType, secret: string)
      requires Valid() && secret == Trim(secret) && secret != "" && sessions.trace != []
      requires var form := sessions.trace[|sessions.trace| - 1];
        form.Admitted? && form.session == sessionId && form.installation == id && form.at <= sessions.now
      modifies this, sessions`trace
      ensures Valid() && vault == WriteAuth(old(vault), id, authType, secret).0
      ensures sessions.trace == old(sessions.trace) + [Validated(authType, secret)]
                + [Stored(sessionId, id, authType, secret, sessions.now)]
    {
      hide Trim, TraceOk, OneTime, StatesMinted, SessionsOpened, VaultBacked;
      ghost var accepted := Validated(authType, secret);
      ghost var stored := Stored(sessionId, id, authType, secret, sessions.now);
      StillBacked(sessions.trace, vault, accepted);
      sessions.Witness(accepted);
      NewlyBacked(sessions.trace, vault, stored);
      sessions.Witness(stored);
      vault := Upsert(vault, id, secret);
      vault := SetLabel(vault, id, authType).0;
    }

    // Uninstalling the app forgets the credential.
    method Purge(id: int)
      requires Valid()
      modifies this
      ensures Valid() && vault == old(vault) - {id}
    {
      vault := vault - {id};
    }
  }

  // The gap is real: a visitor whose session has one tick left submits a form whose check takes two. His
  // credential is stored under a session that has expired.
  method RunLateSubmit() returns (pages: SetupPages, status: nat)
    ensures fresh(pages) && fresh(pages.sessions) && status == 200
    ensures pages.vault == map[1 := Credential("k", ApiKey)]
    ensures "t" in pages.sessions.sessions && pages.sessions.sessions["t"].expiresAt < pages.sessions.now
  {
    hide EventOk, TraceOk, OneTime, StatesMinted, SessionsOpened, VaultBacked, Trim;
    var sessions := new SessionStore(1, 0);
    pages := new SetupPages(sessions, false);
    var _ := pages.HandleSetupStart(Some(1), "s");
    var _ := pages.HandleCallback("c", "s", Some({1}), 0, "t");
    NothingToTrim();
    status := pages.HandleKeySubmit("t", Some(1), Some(ApiKey), "k", Accepts, 2);
  }

  lemma NothingToTrim()
    ensures Trim("k") == "k"
  {
    TrimStartClean("k");
    TrimEndClean("k");
  }

  // ---- Trimming ----

  predicate CleanEnd(s: string) {
    s != "" ==> !IsSpace(s[|s| - 1])
  }

  lemma {:induction false} TrimEndClean(s: string)
    ensures CleanEnd(TrimEnd(s)) && TrimEnd(s) <= s
    ensures CleanEnd(s) ==> TrimEnd(s) == s
  {
    if s != "" && IsSpace(s[|s| - 1]) { TrimEndClean(s[..|s| - 1]); }
  }

  lemma {:induction false} TrimStartClean(s: string)
    ensures TrimStart(s) != "" ==> !IsSpace(TrimStart(s)[0])
    ensures (s != "" ==> !IsSpace(s[0])) ==> TrimStart(s) == s
  {
    if s != "" && IsSpace(s[0]) { TrimStartClean(s[1..]); }
  }

  lemma TrimIdempotent(s: string)
    ensures Trim(Trim(s)) == Trim(s)
  {
    var started := TrimStart(s);
    TrimStartClean(s);
    TrimEndClean(started);
    TrimStartClean(TrimEnd(started));
    TrimEndClean(TrimEnd(started));
  }
}
