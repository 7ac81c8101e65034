/** The conversation state machine, its rows, and what a restart brings back. */
module Conversations {
  import opened GenerationWork

  datatype State = IDLE | ENGAGED | AWAITING_RESPONSE | READY
  datatype RouterState = Engaged | AwaitingNpc

  /** The conversation Minecraft says is active. */
  datatype Ref = Ref(conversationId: string, targetNpcId: string)

  datatype Turn = Turn(
    turnId: string, sessionId: string, conversationId: string, targetNpcId: string, isPlayerTurn: bool, timestampMs: int)

  datatype Session = Session(active: Option<Ref>, state: State, unconfirmed: Option<Turn>)

  /** What the caller must act on after the state moved. */
  datatype Admission = Admission(triggered: Option<Turn>, discarded: Option<Turn>)

  datatype Projection = Projection(reference: Ref, state: RouterState, startedAtMs: int, latestTurnId: Option<string>)

  type ThreadKey = (string, string)

  const FRESH := Session(None, IDLE, None)

  predicate Addresses(active: Option<Ref>, turn: Turn) {
    active == Some(Ref(turn.conversationId, turn.targetNpcId))
  }

  // ---- memory and rows -------------------------------------------------------------

  datatype Memory = Memory(
    sessions: map<string, Session>, started: map<ThreadKey, int>, latest: map<ThreadKey, string>)

  datatype SessionRow = SessionRow(
    state: State, conversationId: Option<string>, targetNpcId: Option<string>, unconfirmed: Option<Turn>)

  datatype ThreadRow = ThreadRow(startedAtMs: int, latestTurnId: Option<string>)

  datatype Rows = Rows(sessions: map<string, SessionRow>, threads: map<ThreadKey, ThreadRow>)

  function SessionAt(m: Memory, id: string): Session {
    if id in m.sessions then m.sessions[id] else FRESH
  }

  function LatestAt(m: Memory, key: ThreadKey): Option<string> {
    if key in m.latest then Some(m.latest[key]) else None
  }

  function RowOf(s: Session): SessionRow {
    if s.active.Some? then SessionRow(s.state, Some(s.active.value.conversationId), Some(s.active.value.targetNpcId), s.unconfirmed)
    else SessionRow(s.state, None, None, s.unconfirmed)
  }

  function SessionOf(row: SessionRow): Session {
    Session(
      if row.conversationId.None? || row.targetNpcId.None? then None else Some(Ref(row.conversationId.value, row.targetNpcId.value)),
      row.state, row.unconfirmed)
  }

  /** An upsert never moves the start of a thread it already holds. */
  function SaveThread(rows: Rows, key: ThreadKey, startedAtMs: int, latest: Option<string>): Rows {
    var kept := if key in rows.threads then rows.threads[key].startedAtMs else startedAtMs;
    rows.(threads := rows.threads[key := ThreadRow(kept, latest)])
  }

  function SaveSession(rows: Rows, id: string, s: Session): Rows {
    rows.(sessions := rows.sessions[id := RowOf(s)])
  }

  // ---- invariants ------------------------------------------------------------------

  ghost predicate SessionOk(id: string, s: Session, started: set<ThreadKey>) {
    && (s.state == IDLE <==> s.active.None?)
    && (s.active.Some? ==> (id, s.active.value.conversationId) in started)
    && (s.unconfirmed.Some? ==> s.unconfirmed.value.isPlayerTurn && s.unconfirmed.value.sessionId == id)
  }

  /** A session is idle exactly when nothing is active, and no projection misses its start time. */
  ghost predicate Coherent(m: Memory) {
    && (forall id :: id in m.sessions ==> SessionOk(id, m.sessions[id], m.started.Keys))
    && m.latest.Keys <= m.started.Keys
  }

  ghost predicate ThreadsAgree(m: Memory, rows: Rows) {
    && rows.threads.Keys == m.started.Keys
    && forall key :: key in m.started ==> rows.threads[key] == ThreadRow(m.started[key], LatestAt(m, key))
  }

  ghost predicate SessionsAgree(m: Memory, rows: Rows) {
    && rows.sessions.Keys <= m.sessions.Keys
    && forall id :: id in m.sessions ==>
         if id in rows.sessions then rows.sessions[id] == RowOf(m.sessions[id]) else m.sessions[id] == FRESH
  }

  /** The rows are the record of the memory. */
  ghost predicate Inv(m: Memory, rows: Rows) {
    Coherent(m) && ThreadsAgree(m, rows) && SessionsAgree(m, rows)
  }

  function Touch(m: Memory, key: ThreadKey, timestampMs: int, turn: Option<string>): Memory {
    m.(started := if key in m.started then m.started else m.started[key := timestampMs],
       latest := if turn.Some? then m.latest[key := turn.value] else m.latest)
  }

  lemma TouchKeeps(m: Memory, rows: Rows, key: ThreadKey, timestampMs: int, turn: Option<string>)
    requires Inv(m, rows)
    ensures var t := Touch(m, key, timestampMs, turn);
            Inv(t, SaveThread(rows, key, t.started[key], LatestAt(t, key)))
  {
    var t := Touch(m, key, timestampMs, turn);
    assert forall id :: id in t.sessions ==> SessionOk(id, m.sessions[id], m.started.Keys);
  }

  lemma PutKeeps(m: Memory, rows: Rows, id: string, s: Session)
    requires Inv(m, rows) && SessionOk(id, s, m.started.Keys)
    ensures Inv(m.(sessions := m.sessions[id := s]), SaveSession(rows, id, s))
  {
    var p := m.(sessions := m.sessions[id := s]);
    assert forall key :: LatestAt(p, key) == LatestAt(m, key);
  }

  // ---- what callers can observe -----------------------------------------------------

  function ProjectionAt(m: Memory, id: string): Option<Projection>
    requires SessionAt(m, id).active.Some? && SessionAt(m, id).state != IDLE ==>
               (id, SessionAt(m, id).active.value.conversationId) in m.started
  {
    var s := SessionAt(m, id);
    if s.active.None? || s.state == IDLE then None
    else
      var key := (id, s.active.value.conversationId);
      Some(Projection(s.active.value, if s.state == AWAITING_RESPONSE then AwaitingNpc else Engaged, m.started[key], LatestAt(m, key)))
  }

  ghost predicate SameAnswers(a: Memory, b: Memory)
    requires Coherent(a) && Coherent(b)
  {
    && (forall id :: SessionAt(a, id) == SessionAt(b, id))
    && (forall id :: ProjectionAt(a, id) == ProjectionAt(b, id))
    && (forall key :: LatestAt(a, key) == LatestAt(b, key))
    && a.started == b.started
  }

  /** What `restore` builds out of the rows alone. */
  function RestoredFrom(rows: Rows): Memory {
    Memory(
      map id | id in rows.sessions :: SessionOf(rows.sessions[id]),
      map key | key in rows.threads :: rows.threads[key].startedAtMs,
      map key | key in rows.threads && rows.threads[key].latestTurnId.Some? :: rows.threads[key].latestTurnId.value)
  }

  lemma RestoredThreads(m: Memory, rows: Rows)
    requires m.latest.Keys <= m.started.Keys && ThreadsAgree(m, rows)
    ensures RestoredFrom(rows).started == m.started && RestoredFrom(rows).latest == m.latest
  {
    var r := RestoredFrom(rows);
    assert r.started == m.started;
    assert r.latest.Keys == m.latest.Keys by {
      forall key ensures key in r.latest <==> key in m.latest {
        assert key in m.started ==> rows.threads[key].latestTurnId == LatestAt(m, key);
      }
    }
    forall key | key in r.latest ensures r.latest[key] == m.latest[key] {
      assert rows.threads[key].latestTurnId == LatestAt(m, key);
    }
  }

  lemma RestoredSessions(m: Memory, rows: Rows)
    requires SessionsAgree(m, rows)
    ensures forall id :: id in RestoredFrom(rows).sessions ==> id in m.sessions
    ensures forall id :: SessionAt(RestoredFrom(rows), id) == SessionAt(m, id)
  {
  }

  lemma SameProjections(a: Memory, b: Memory)
    requires Coherent(a) && Coherent(b) && a.started == b.started && a.latest == b.latest
    requires forall id :: SessionAt(a, id) == SessionAt(b, id)
    ensures SameAnswers(a, b)
  {
  }

  lemma RestoredInv(m: Memory, rows: Rows)
    requires Inv(m, rows)
    ensures Inv(RestoredFrom(rows), rows)
    ensures forall id :: SessionAt(RestoredFrom(rows), id) == SessionAt(m, id)
  {
    var r := RestoredFrom(rows);
    RestoredThreads(m, rows);
    RestoredSessions(m, rows);
    assert ThreadsAgree(r, rows) by {
      assert forall key :: LatestAt(r, key) == LatestAt(m, key);
    }
    assert SessionsAgree(r, rows) by {
      hide SessionOk;
    }
    assert Coherent(r) by {
      hide SessionOf, RowOf, ThreadsAgree, SessionsAgree;
      forall id | id in r.sessions ensures SessionOk(id, r.sessions[id], r.started.Keys) {
        assert r.sessions[id] == SessionAt(r, id) == SessionAt(m, id);
      }
    }
    hide *;
    InvOf(r, rows);
  }

  lemma InvOf(m: Memory, rows: Rows)
    requires Coherent(m) && ThreadsAgree(m, rows) && SessionsAgree(m, rows)
    ensures Inv(m, rows)
  {
    hide Coherent, ThreadsAgree, SessionsAgree;
  }

  /** A restart answers every question exactly as before it. */
  lemma RestoreReproduces(m: Memory, rows: Rows)
    requires Inv(m, rows)
    ensures Inv(RestoredFrom(rows), rows) && SameAnswers(m, RestoredFrom(rows))
  {
    RestoredThreads(m, rows);
    RestoredInv(m, rows);
    SameProjections(m, RestoredFrom(rows));
    hide *;
  }

  // ---- accounting -------------------------------------------------------------------

  /** Every player turn ever admitted to one session, and where each of them went. */
  datatype Account = Account(admitted: multiset<Turn>, triggered: multiset<Turn>, discarded: multiset<Turn>)

  function One(t: Option<Turn>): multiset<Turn> {
    if t.Some? then multiset{t.value} else multiset{}
  }

  ghost predicate Accounted(a: Account, waiting: Option<Turn>) {
    a.admitted == a.triggered + a.discarded + One(waiting)
  }

  function AccountAt(accounts: map<string, Account>, id: string): Account {
    if id in accounts then accounts[id] else Account(multiset{}, multiset{}, multiset{})
  }

  function Charge(a: Account, admitted: Option<Turn>, admission: Admission): Account {
    Account(a.admitted + One(admitted), a.triggered + One(admission.triggered), a.discarded + One(admission.discarded))
  }

  ghost predicate AllAccounted(m: Memory, accounts: map<string, Account>) {
    forall id :: Accounted(AccountAt(accounts, id), SessionAt(m, id).unconfirmed)
  }

  /** Turns waiting before and turns admitted are the turns triggered, discarded and waiting after. */
  ghost predicate Conserves(was: Option<Turn>, now: Option<Turn>, admitted: Option<Turn>, admission: Admission) {
    One(was) + One(admitted) == One(now) + One(admission.triggered) + One(admission.discarded)
  }

  /** A waiting turn is either triggered or discarded, and nothing else is. */
  predicate Settles(waiting: Option<Turn>, admission: Admission) {
    if waiting.None? then admission == Admission(None, None)
    else admission == Admission(waiting, None) || admission == Admission(None, waiting)
  }

  /** The waiting turn is armed if it addresses what is now active, and dropped otherwise. */
  function ResolveUnconfirmed(s: Session): (r: (Session, Admission))
    ensures Settles(s.unconfirmed, r.1) && r.0.unconfirmed == None && r.0.active == s.active
    ensures r.1.triggered.Some? <==> s.unconfirmed.Some? && Addresses(s.active, s.unconfirmed.value)
    ensures r.0.state == if r.1.triggered.Some? then AWAITING_RESPONSE else s.state
  {
    var rest := s.(unconfirmed := None);
    if s.unconfirmed.None? then (rest, Admission(None, None))
    else if Addresses(s.active, s.unconfirmed.value) then
      (rest.(state := AWAITING_RESPONSE), Admission(s.unconfirmed, None))
    else (rest, Admission(None, s.unconfirmed))
  }

  lemma Balance(a: Account, was: Option<Turn>, now: Option<Turn>, admitted: Option<Turn>, admission: Admission)
    requires Accounted(a, was)
    requires Conserves(was, now, admitted, admission)
    ensures Accounted(Charge(a, admitted, admission), now)
  {
    var y, z := One(admission.triggered), One(admission.discarded);
    calc {
      a.admitted + One(admitted);
      (a.triggered + a.discarded) + (One(was) + One(admitted));
      (a.triggered + a.discarded) + (One(now) + y + z);
      (a.triggered + y) + (a.discarded + z) + One(now);
    }
  }

  /** One operation settles or parks exactly the turns that came in or were waiting. */
  lemma ChargeKeeps(
      m: Memory, accounts: map<string, Account>, id: string, s: Session, admitted: Option<Turn>, admission: Admission)
    requires AllAccounted(m, accounts)
    requires Conserves(SessionAt(m, id).unconfirmed, s.unconfirmed, admitted, admission)
    ensures AllAccounted(m.(sessions := m.sessions[id := s]), accounts[id := Charge(AccountAt(accounts, id), admitted, admission)])
  {
    assert Accounted(AccountAt(accounts, id), SessionAt(m, id).unconfirmed);
    Balance(AccountAt(accounts, id), SessionAt(m, id).unconfirmed, s.unconfirmed, admitted, admission);
    hide Accounted, Charge, Conserves;
    var after := accounts[id := Charge(AccountAt(accounts, id), admitted, admission)];
    var p := m.(sessions := m.sessions[id := s]);
    assert SessionAt(p, id) == s && AccountAt(after, id) == Charge(AccountAt(accounts, id), admitted, admission);
    forall other | other != id ensures Accounted(AccountAt(after, other), SessionAt(p, other).unconfirmed) {
      assert SessionAt(p, other) == SessionAt(m, other) && AccountAt(after, other) == AccountAt(accounts, other);
      assert Accounted(AccountAt(accounts, other), SessionAt(m, other).unconfirmed);
    }
  }

  // ---- the classes -----------------------------------------------------------------

  class ConversationStore {
    var rows: Rows

    constructor ()
      ensures rows == Rows(map[], map[])
    {
      rows := Rows(map[], map[]);
    }

    method Save(id: string, s: Session)
      modifies this
      ensures rows == SaveSession(old(rows), id, s)
      ensures rows.sessions == old(rows).sessions[id := SessionRow(
        s.state,
        if s.active.Some? then Some(s.active.value.conversationId) else None,
        if s.active.Some? then Some(s.active.value.targetNpcId) else None,
        s.unconfirmed)]
    {
      rows := rows.(sessions := rows.sessions[id := RowOf(s)]);
    }

    method SaveStart(key: ThreadKey, startedAtMs: int, latest: Option<string>)
      modifies this
      ensures rows == SaveThread(old(rows), key, startedAtMs, latest)
      ensures rows.threads == old(rows).threads[key := ThreadRow(
        if key in old(rows).threads then old(rows).threads[key].startedAtMs else startedAtMs, latest)]
    {
      if key in rows.threads {
        rows := rows.(threads := rows.threads[key := rows.threads[key].(latestTurnId := latest)]);
      } else {
        rows := rows.(threads := rows.threads[key := ThreadRow(startedAtMs, latest)]);
      }
    }

    /** What cleaning a session up removes before it is forgotten. */
    method Remove(id: string)
      modifies this
      ensures rows == WithoutRows(old(rows), id)
      ensures rows.sessions == old(rows).sessions - {id}
      ensures rows.threads.Keys == (set key: ThreadKey | key in old(rows).threads && key.0 != id)
      ensures forall key :: key in rows.threads ==> rows.threads[key] == old(rows).threads[key]
    {
      rows := WithoutRows(rows, id);
    }
  }

  function WithoutRows(rows: Rows, id: string): Rows {
    Rows(rows.sessions - {id}, map key | key in rows.threads && key.0 != id :: rows.threads[key])
  }

  class ConversationManager {
    const store: ConversationStore
    var sessions: map<string, Session>
    var startedAtMs: map<ThreadKey, int>
    var latestTurnId: map<ThreadKey, string>
    ghost var accounts: map<string, Account>

    ghost function Mem(): Memory
      reads this
    {
      Memory(sessions, startedAtMs, latestTurnId)
    }

    ghost predicate Valid()
      reads this, store
    {
      Inv(Mem(), store.rows) && AllAccounted(Mem(), accounts)
    }

    constructor (store: ConversationStore)
      requires store.rows == Rows(map[], map[])
      ensures Valid() && this.store == store && sessions == map[] && accounts == map[]
    {
      this.store := store;
      sessions, startedAtMs, latestTurnId, accounts := map[], map[], map[], map[];
    }

    function SessionNow(id: string): Session
      reads this
    {
      if id in sessions then sessions[id] else FRESH
    }

    /** The snapshot is the authority: it sets the active conversation and settles the waiting turn. */
    method ObserveSnapshot(sessionId: string, reference: Option<Ref>, timestampMs: int) returns (admission: Admission)
      requires Valid()
      modifies this, store
      ensures Valid()
      ensures var was, now := old(SessionNow(sessionId)), SessionNow(sessionId);
              && now.active == reference && now.unconfirmed == None
              && (admission.triggered.Some? <==>
                    && was.unconfirmed.Some? && reference.Some?
                    && reference.value.conversationId == was.unconfirmed.value.conversationId
                    && reference.value.targetNpcId == was.unconfirmed.value.targetNpcId)
              && (admission.triggered.Some? ==> admission == Admission(was.unconfirmed, None))
              && (admission.triggered.None? ==> admission == Admission(None, was.unconfirmed))
              && now.state == (if admission.triggered.Some? then AWAITING_RESPONSE
                               else if reference.None? then IDLE
                               else if was.active != reference then ENGAGED else was.state)
      ensures accounts == old(accounts)[sessionId := Charge(AccountAt(old(accounts), sessionId), None, admission)]
      ensures OthersKept(old(sessions), sessions, sessionId)
      ensures latestTurnId == old(latestTurnId)
      ensures startedAtMs ==
                if reference.None? || (sessionId, reference.value.conversationId) in old(startedAtMs) then old(startedAtMs)
                else old(startedAtMs)[(sessionId, reference.value.conversationId) := timestampMs]
    {
      hide Inv, AllAccounted, Charge, Conserves, OthersKept, AccountAt, ResolveUnconfirmed, RowOf;
      var session := SetActive(sessionId, reference, timestampMs);
      ghost var waiting := session.unconfirmed;
      var resolved := ResolveUnconfirmed(session);
      session, admission := resolved.0, resolved.1;
      SettledIsConserved(waiting, admission);
      PutKeepsOthers(sessions, sessionId, session);
      Settle(sessionId, session, None, admission);
    }

    /** Takes over the active conversation and keeps the first start of its thread. */
    method SetActive(sessionId: string, reference: Option<Ref>, timestampMs: int) returns (session: Session)
      requires Valid()
      modifies this`startedAtMs, this`latestTurnId, store
      ensures Valid() && latestTurnId == old(latestTurnId)
      ensures startedAtMs ==
                if reference.None? || (sessionId, reference.value.conversationId) in old(startedAtMs) then old(startedAtMs)
                else old(startedAtMs)[(sessionId, reference.value.conversationId) := timestampMs]
      ensures var was := SessionNow(sessionId);
              && session.active == reference && session.unconfirmed == was.unconfirmed
              && session.state == (if reference.None? then IDLE else if was.active != reference then ENGAGED else was.state)
      ensures SessionOk(sessionId, session, startedAtMs.Keys)
    {
      session := SessionNow(sessionId);
      KnownSession(Mem(), store.rows, sessionId);
      hide Inv, AllAccounted, LatestAt, Touch;
      var previous := session.active;
      session := session.(active := reference);
      if reference.None? {
        session := session.(state := IDLE);
      } else {
        var key := (sessionId, reference.value.conversationId);
        TouchThread(key, timestampMs, None);
        if previous.None? || previous != reference || session.state == IDLE {
          session := session.(state := ENGAGED);
        }
      }
    }

    /** Keeps the first start of a thread, in memory and in its row. */
    method TouchThread(key: ThreadKey, timestampMs: int, turnId: Option<string>)
      requires Valid()
      modifies this`startedAtMs, this`latestTurnId, store
      ensures Valid()
      ensures Mem() == Touch(old(Mem()), key, timestampMs, turnId)
      ensures startedAtMs == if key in old(startedAtMs) then old(startedAtMs) else old(startedAtMs)[key := timestampMs]
      ensures latestTurnId == if turnId.Some? then old(latestTurnId)[key := turnId.value] else old(latestTurnId)
    {
      TouchKeeps(Mem(), store.rows, key, timestampMs, turnId);
      TouchAccounts(Mem(), accounts, key, timestampMs, turnId);
      hide Inv, AllAccounted;
      if turnId.Some? {
        latestTurnId := latestTurnId[key := turnId.value];
      }
      if key !in startedAtMs {
        startedAtMs := startedAtMs[key := timestampMs];
      }
      store.SaveStart(key, startedAtMs[key], if key in latestTurnId then Some(latestTurnId[key]) else None);
    }

    /** Puts one session in memory and its row, with every turn it took in accounted for. */
    method Settle(id: string, session: Session, ghost admitted: Option<Turn>, ghost admission: Admission)
      requires Valid() && SessionOk(id, session, startedAtMs.Keys)
      requires Conserves(SessionNow(id).unconfirmed, session.unconfirmed, admitted, admission)
      modifies this`sessions, this`accounts, store
      ensures Valid()
      ensures sessions == old(sessions)[id := session]
      ensures accounts == old(accounts)[id := Charge(AccountAt(old(accounts), id), admitted, admission)]
    {
      hide *;
      Opened(id);
      PutKeeps(Mem(), store.rows, id, session);
      ChargeKeeps(Mem(), accounts, id, session, admitted, admission);
      accounts := accounts[id := Charge(AccountAt(accounts, id), admitted, admission)];
      sessions := sessions[id := session];
      store.Save(id, session);
      Holds();
    }

    lemma Opened(id: string)
      requires Valid()
      ensures Inv(Mem(), store.rows) && AllAccounted(Mem(), accounts)
      ensures SessionAt(Mem(), id) == SessionNow(id)
      ensures Mem() == Memory(sessions, startedAtMs, latestTurnId)
    {
    }

    lemma Holds()
      requires Inv(Memory(sessions, startedAtMs, latestTurnId), store.rows)
      requires AllAccounted(Memory(sessions, startedAtMs, latestTurnId), accounts)
      ensures Valid()
    {
    }

    /** Records a stored turn; a player turn is triggered or takes the one waiting slot. */
    method AdmitTurn(turn: Turn) returns (admission: Admission)
      requires Valid()
      modifies this, store
      ensures Valid()
      ensures latestTurnId == old(latestTurnId)[(turn.sessionId, turn.conversationId) := turn.turnId]
      ensures startedAtMs ==
                if (turn.sessionId, turn.conversationId) in old(startedAtMs) then old(startedAtMs)
                else old(startedAtMs)[(turn.sessionId, turn.conversationId) := turn.timestampMs]
      ensures var was, now := old(SessionNow(turn.sessionId)), SessionNow(turn.sessionId);
              if !turn.isPlayerTurn then now == was && admission == Admission(None, None)
              else if was.active == Some(Ref(turn.conversationId, turn.targetNpcId)) then
                now == was.(state := AWAITING_RESPONSE) && admission == Admission(Some(turn), None)
              else now == was.(unconfirmed := Some(turn)) && admission == Admission(None, was.unconfirmed)
      ensures accounts == if !turn.isPlayerTurn then old(accounts)
              else old(accounts)[turn.sessionId := Charge(AccountAt(old(accounts), turn.sessionId), Some(turn), admission)]
      ensures OthersKept(old(sessions), sessions, turn.sessionId)
    {
      var id := turn.sessionId;
      var key := (id, turn.conversationId);
      var session := SessionNow(id);
      KnownSession(Mem(), store.rows, id);
      hide Inv, AllAccounted, Charge, Conserves, OthersKept, Touch, LatestAt, AccountAt;
      TouchThread(key, turn.timestampMs, Some(turn.turnId));
      PutKeepsOthers(sessions, id, session);
      if !turn.isPlayerTurn {
        return Admission(None, None);
      }
      if Addresses(session.active, turn) {
        session := session.(state := AWAITING_RESPONSE);
        admission := Admission(Some(turn), None);
      } else {
        admission := Admission(None, session.unconfirmed);
        session := session.(unconfirmed := Some(turn));
      }
      PutKeepsOthers(sessions, id, session);
      TakenIn(old(SessionNow(id)).unconfirmed, session.unconfirmed, turn, admission);
      Settle(id, session, Some(turn), admission);
    }

    /** A command reached Minecraft: the conversation is ready, or idle if nothing is active. */
    method NotePublished(sessionId: string)
      requires Valid()
      modifies this, store
      ensures Valid() && startedAtMs == old(startedAtMs) && latestTurnId == old(latestTurnId)
      ensures accounts == AccountsTouched(old(accounts), sessionId)
      ensures sessions == old(sessions)[sessionId :=
                old(SessionNow(sessionId)).(state := if old(SessionNow(sessionId)).active.Some? then READY else IDLE)]
    {
      var session := SessionNow(sessionId);
      KnownSession(Mem(), store.rows, sessionId);
      hide Inv, AllAccounted, Charge;
      session := session.(state := if session.active.Some? then READY else IDLE);
      NothingMoved(session.unconfirmed);
      Settle(sessionId, session, None, Admission(None, None));
    }

    /** Leaves AWAITING_RESPONSE when the armed turn produced nothing, and no other state. */
    method NoteNotGenerated(sessionId: string)
      requires Valid()
      modifies this, store
      ensures Valid() && startedAtMs == old(startedAtMs) && latestTurnId == old(latestTurnId)
      ensures SessionNow(sessionId) ==
              if old(SessionNow(sessionId)).state == AWAITING_RESPONSE then old(SessionNow(sessionId)).(state := ENGAGED)
              else old(SessionNow(sessionId))
      ensures OthersKept(old(sessions), sessions, sessionId)
    {
      var session := SessionNow(sessionId);
      KnownSession(Mem(), store.rows, sessionId);
      hide Inv, AllAccounted, Charge, Conserves;
      if session.state != AWAITING_RESPONSE {
        return;
      }
      session := session.(state := if session.active.Some? then ENGAGED else IDLE);
      NothingMoved(session.unconfirmed);
      Settle(sessionId, session, None, Admission(None, None));
    }

    /** The answer to a turn moves the conversation; any other command leaves it where it was. */
    method NoteCommandOutcome(sessionId: string, turnId: Option<string>, delivered: bool)
      requires Valid()
      modifies this, store
      ensures Valid() && startedAtMs == old(startedAtMs) && latestTurnId == old(latestTurnId)
      ensures OthersKept(old(sessions), sessions, sessionId)
      ensures var was, now := old(SessionNow(sessionId)), SessionNow(sessionId);
              && now.active == was.active && now.unconfirmed == was.unconfirmed
              && now.state == (if turnId.None? then was.state
                               else if delivered then if was.active.Some? then READY else IDLE
                               else if was.state == AWAITING_RESPONSE then ENGAGED else was.state)
    {
      hide Inv, AllAccounted, Charge;
      if turnId.None? {
        return;
      }
      if delivered {
        NotePublished(sessionId);
      } else {
        NoteNotGenerated(sessionId);
      }
    }

    /** The router-facing conversation, absent exactly when the session is idle. */
    method ProjectionNow(sessionId: string) returns (p: Option<Projection>)
      requires Valid()
      ensures p.None? <==> SessionNow(sessionId).active.None?
      ensures p.None? <==> SessionNow(sessionId).state == IDLE
      ensures p.Some? ==> (
                var key := (sessionId, p.value.reference.conversationId);
                && SessionNow(sessionId).active == Some(p.value.reference)
                && key in startedAtMs && p.value.startedAtMs == startedAtMs[key]
                && p.value.latestTurnId == LatestAt(Mem(), key)
                && (p.value.state == AwaitingNpc <==> SessionNow(sessionId).state == AWAITING_RESPONSE))
      ensures Coherent(Mem()) && p == ProjectionAt(Mem(), sessionId)
    {
      var session := SessionNow(sessionId);
      KnownSession(Mem(), store.rows, sessionId);
      if session.active.None? || session.state == IDLE {
        return None;
      }
      var key := (sessionId, session.active.value.conversationId);
      var state := match session.state case AWAITING_RESPONSE => AwaitingNpc case _ => Engaged;
      p := Some(Projection(
        session.active.value, state, startedAtMs[key], if key in latestTurnId then Some(latestTurnId[key]) else None));
    }

    /** Rebuilds memory from the rows, whatever memory held. */
    method Restore()
      modifies this
      ensures Mem() == RestoredFrom(store.rows) && accounts == old(accounts)
      ensures old(Valid()) ==> Valid() && Coherent(old(Mem())) && Coherent(Mem()) && SameAnswers(old(Mem()), Mem())
    {
      hide Inv, AllAccounted, SameAnswers, Coherent;
      sessions, startedAtMs, latestTurnId := map[], map[], map[];
      var rows := store.rows;
      var threads := rows.threads.Keys;
      while threads != {}
        invariant threads <= rows.threads.Keys && store.rows == rows && accounts == old(accounts) && sessions == map[]
        invariant startedAtMs.Keys == rows.threads.Keys - threads
        invariant forall key :: key in startedAtMs ==> startedAtMs[key] == rows.threads[key].startedAtMs
        invariant forall key :: key in rows.threads ==>
                    (key in latestTurnId <==> key !in threads && rows.threads[key].latestTurnId.Some?)
        invariant forall key :: key in latestTurnId ==>
                    key in rows.threads && Some(latestTurnId[key]) == rows.threads[key].latestTurnId
      {
        var key :| key in threads;
        startedAtMs := startedAtMs[key := rows.threads[key].startedAtMs];
        if rows.threads[key].latestTurnId.Some? {
          latestTurnId := latestTurnId[key := rows.threads[key].latestTurnId.value];
        }
        threads := threads - {key};
      }
      var ids := rows.sessions.Keys;
      while ids != {}
        invariant ids <= rows.sessions.Keys && store.rows == rows && accounts == old(accounts)
        invariant startedAtMs == RestoredFrom(rows).started && latestTurnId == RestoredFrom(rows).latest
        invariant sessions.Keys == rows.sessions.Keys - ids
        invariant forall id :: id in sessions ==> sessions[id] == SessionOf(rows.sessions[id])
      {
        var id :| id in ids;
        sessions := sessions[id := SessionOf(rows.sessions[id])];
        ids := ids - {id};
      }
      assert sessions == RestoredFrom(rows).sessions;
      if old(Valid()) {
        Resumed(old(Mem()), rows, accounts);
      }
    }

    /** Drops one session after its rows were removed, and leaves every other as it was. */
    method Forget(sessionId: string)
      requires exists rows :: Inv(Mem(), rows) && store.rows == WithoutRows(rows, sessionId)
      requires AllAccounted(Mem(), accounts)
      modifies this
      ensures Valid()
      ensures SessionNow(sessionId) == FRESH
      ensures forall key: ThreadKey :: key.0 == sessionId ==> key !in startedAtMs && key !in latestTurnId
      ensures OthersKept(old(sessions), sessions, sessionId)
      ensures forall key: ThreadKey :: key.0 != sessionId ==>
                (key in startedAtMs <==> key in old(startedAtMs))
                && (key in startedAtMs ==> startedAtMs[key] == old(startedAtMs)[key])
                && (key in latestTurnId <==> key in old(latestTurnId))
                && (key in latestTurnId ==> latestTurnId[key] == old(latestTurnId)[key])
      ensures accounts == old(accounts) - {sessionId}
    {
      ghost var rows :| Inv(Mem(), rows) && store.rows == WithoutRows(rows, sessionId);
      ForgetKeeps(Mem(), rows, accounts, sessionId);
      hide Inv, AllAccounted;
      var keys := set key | key in startedAtMs && key.0 == sessionId;
      sessions := sessions - {sessionId};
      startedAtMs := startedAtMs - keys;
      latestTurnId := latestTurnId - keys;
      accounts := accounts - {sessionId};
    }
  }

  lemma Resumed(m: Memory, rows: Rows, accounts: map<string, Account>)
    requires Inv(m, rows) && AllAccounted(m, accounts)
    ensures var r := RestoredFrom(rows);
            Inv(r, rows) && AllAccounted(r, accounts) && Coherent(m) && Coherent(r) && SameAnswers(m, r)
  {
    RestoreReproduces(m, rows);
    RestoredInv(m, rows);
    hide Coherent, SameAnswers, ThreadsAgree, SessionsAgree, Accounted, RestoredFrom, SessionAt;
    forall id ensures Accounted(AccountAt(accounts, id), SessionAt(RestoredFrom(rows), id).unconfirmed) {
      assert Accounted(AccountAt(accounts, id), SessionAt(m, id).unconfirmed);
    }
  }

  /** Cleaning a session up, as far as conversations go: rows first, then memory. */
  class SessionCleanup {
    const conversation: ConversationManager

    constructor (conversation: ConversationManager)
      ensures this.conversation == conversation
    {
      this.conversation := conversation;
    }

    method Clean(sessionId: string)
      requires conversation.Valid()
      modifies conversation, conversation.store
      ensures conversation.Valid()
      ensures conversation.SessionNow(sessionId) == FRESH
      ensures var (was, now) := (old(conversation.store.rows), conversation.store.rows);
              && now.sessions == was.sessions - {sessionId}
              && now.threads.Keys == (set key: ThreadKey | key in was.threads && key.0 != sessionId)
              && forall key :: key in now.threads ==> now.threads[key] == was.threads[key]
      ensures OthersKept(old(conversation.sessions), conversation.sessions, sessionId)
    {
      hide Inv, AllAccounted, WithoutRows, OthersKept;
      ghost var rows := conversation.store.rows;
      assert Inv(conversation.Mem(), rows);
      conversation.store.Remove(sessionId);
      conversation.Forget(sessionId);
    }
  }

  function AccountsTouched(accounts: map<string, Account>, id: string): map<string, Account> {
    accounts[id := Charge(AccountAt(accounts, id), None, Admission(None, None))]
  }

  /** Every session but one is as it was. */
  ghost predicate OthersKept(before: map<string, Session>, after: map<string, Session>, id: string) {
    before - {id} == after - {id}
  }

  lemma PutKeepsOthers(sessions: map<string, Session>, id: string, s: Session)
    ensures OthersKept(sessions, sessions[id := s], id) && OthersKept(sessions, sessions, id)
  {
  }

  lemma KnownSession(m: Memory, rows: Rows, id: string)
    requires Inv(m, rows)
    ensures SessionOk(id, SessionAt(m, id), m.started.Keys)
  {
  }

  lemma SettledIsConserved(waiting: Option<Turn>, admission: Admission)
    requires Settles(waiting, admission)
    ensures Conserves(waiting, None, None, admission)
  {
  }

  lemma NothingMoved(waiting: Option<Turn>)
    ensures Conserves(waiting, waiting, None, Admission(None, None))
  {
  }

  lemma TakenIn(was: Option<Turn>, now: Option<Turn>, turn: Turn, admission: Admission)
    requires (admission == Admission(Some(turn), None) && now == was) || (admission == Admission(None, was) && now == Some(turn))
    ensures Conserves(was, now, Some(turn), admission)
  {
  }

  lemma TouchAccounts(m: Memory, accounts: map<string, Account>, key: ThreadKey, timestampMs: int, turn: Option<string>)
    requires AllAccounted(m, accounts)
    ensures AllAccounted(Touch(m, key, timestampMs, turn), accounts)
  {
    assert forall id :: SessionAt(Touch(m, key, timestampMs, turn), id) == SessionAt(m, id);
  }

  function Forgotten(m: Memory, id: string): Memory {
    var keys := set key | key in m.started && key.0 == id;
    Memory(m.sessions - {id}, m.started - keys, m.latest - keys)
  }

  lemma ForgetCoherent(m: Memory, id: string)
    requires Coherent(m)
    ensures Coherent(Forgotten(m, id))
    ensures forall key: ThreadKey :: key.0 == id ==> key !in Forgotten(m, id).latest
  {
    var f := Forgotten(m, id);
    forall other | other in f.sessions ensures SessionOk(other, f.sessions[other], f.started.Keys) {
      assert SessionOk(other, m.sessions[other], m.started.Keys);
    }
  }

  lemma ForgetThreads(m: Memory, rows: Rows, id: string)
    requires ThreadsAgree(m, rows)
    ensures ThreadsAgree(Forgotten(m, id), WithoutRows(rows, id))
  {
    var f := Forgotten(m, id);
    forall key | key in f.started ensures WithoutRows(rows, id).threads[key] == ThreadRow(f.started[key], LatestAt(f, key)) {
      assert rows.threads[key] == ThreadRow(m.started[key], LatestAt(m, key));
    }
  }

  lemma ForgetAccounts(m: Memory, accounts: map<string, Account>, id: string)
    requires AllAccounted(m, accounts)
    ensures AllAccounted(Forgotten(m, id), accounts - {id})
  {
    forall other ensures Accounted(AccountAt(accounts - {id}, other), SessionAt(Forgotten(m, id), other).unconfirmed) {
      assert Accounted(AccountAt(accounts, other), SessionAt(m, other).unconfirmed);
    }
  }

  lemma ForgetKeeps(m: Memory, rows: Rows, accounts: map<string, Account>, id: string)
    requires Inv(m, rows) && AllAccounted(m, accounts)
    ensures Inv(Forgotten(m, id), WithoutRows(rows, id)) && AllAccounted(Forgotten(m, id), accounts - {id})
    ensures forall key: ThreadKey :: key.0 == id ==> key !in Forgotten(m, id).latest
  {
    ForgetCoherent(m, id);
    ForgetThreads(m, rows, id);
    ForgetAccounts(m, accounts, id);
    hide Coherent, ThreadsAgree, AllAccounted;
  }
}
