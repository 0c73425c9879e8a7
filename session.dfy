/** Chat sessions: an append-only history with an expiry time, kept in a
    store keyed by session id. Time is in seconds and is passed in, as is the
    generated id a new session falls back on. */
module Sessions {
  import opened Outcomes

  /** One question and its answer, stamped with the time it was recorded. */
  datatype Exchange = Exchange(question: string, answer: string, timestamp: real)

  /** How long a session lives unless told otherwise. */
  const DefaultTtlHours := 24
  const SecondsPerHour := 3600.0

  /** `session_id or str(uuid.uuid4())`: a given, non-empty id is kept;
      otherwise the generated one is used. */
  function ChosenId(sessionId: Option<string>, freshId: string): (r: string)
    ensures sessionId.Some? && sessionId.value != "" ==> r == sessionId.value
    ensures sessionId == None || sessionId == Some("") ==> r == freshId
    ensures freshId != "" ==> r != ""
  {
    match sessionId
    case Some(id) => if id != "" then id else freshId
    case None => freshId
  }

  class Session {
    const sessionId: string
    const createdAt: real
    const expiresAt: real
    var history: seq<Exchange>

    /** A session created at `now` that lives `ttlHours` hours. */
    constructor(sessionId: Option<string>, ttlHours: int, now: real, freshId: string)
      ensures this.sessionId == ChosenId(sessionId, freshId)
      ensures createdAt == now && expiresAt == now + ttlHours as real * SecondsPerHour
      ensures history == []
      ensures ttlHours >= 0 ==> !IsExpired(now)
    {
      this.sessionId := ChosenId(sessionId, freshId);
      createdAt := now;
      expiresAt := now + ttlHours as real * SecondsPerHour;
      history := [];
    }

    /** Records one exchange at the end of the history. */
    method AddMessage(question: string, answer: string, now: real)
      modifies this
      ensures history == old(history) + [Exchange(question, answer, now)]
    {
      history := history + [Exchange(question, answer, now)];
    }

    /** Expired strictly after `expiresAt`: still live at that instant. */
    predicate IsExpired(now: real)
      ensures IsExpired(now) <==> expiresAt < now
    {
      now > expiresAt
    }
  }

  /** Expiry is final: a session expired at some time stays expired at
      every later time. */
  lemma ExpiredStaysExpired(s: Session, now: real, later: real)
    requires s.IsExpired(now) && now <= later
    ensures s.IsExpired(later)
  {
  }

  class SessionManager {
    var sessions: map<string, Session>

    /** Every session is filed under its own id. */
    ghost predicate Valid()
      reads this
    {
      forall id :: id in sessions ==> sessions[id].sessionId == id
    }

    constructor()
      ensures Valid() && sessions == map[]
    {
      sessions := map[];
    }

    /** A stored session that `GetOrCreate` hands back as it is. */
    predicate Reusable(sessionId: Option<string>, now: real)
      reads this
    {
      sessionId.Some? && sessionId.value != "" && sessionId.value in sessions
      && !sessions[sessionId.value].IsExpired(now)
    }

    /** The stored session for a known, live id; otherwise a new session
        (under the given id when there is one, under `freshId` when not)
        that replaces whatever that id held. */
    method GetOrCreate(sessionId: Option<string>, now: real, freshId: string) returns (s: Session)
      requires Valid()
      modifies this
      ensures Valid()
      ensures old(sessions).Keys <= sessions.Keys
      ensures old(Reusable(sessionId, now)) ==> s == old(sessions[sessionId.value]) && sessions == old(sessions)
      ensures !old(Reusable(sessionId, now)) ==>
        && fresh(s)
        && s.sessionId == ChosenId(sessionId, freshId)
        && s.history == [] && s.createdAt == now
        && s.expiresAt == now + DefaultTtlHours as real * SecondsPerHour
        && sessions == old(sessions)[s.sessionId := s]
      ensures s.sessionId in sessions && sessions[s.sessionId] == s
    {
      if sessionId.Some? && sessionId.value != "" && sessionId.value in sessions {
        var existing := sessions[sessionId.value];
        if !existing.IsExpired(now) {
          return existing;
        }
      }
      s := new Session(sessionId, DefaultTtlHours, now, freshId);
      sessions := sessions[s.sessionId := s];
    }
  }
}
