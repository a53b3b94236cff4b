/**
 * The in-memory session store behind `/api/chat`: sessions keyed by id, each with the time it
 * was last used, the conversation so far and the last tool outputs. A session not used for
 * longer than the TTL is dropped the next time any session is looked up. Times are integer
 * microseconds; one clock reading `now` serves a whole lookup.
 */
module Sessions {
  import opened Wrappers
  import opened Aggregate
  import opened Trend

  const MicrosPerMinute := 60_000_000

  datatype Role = User | Model

  /** One history entry in the Gemini format: a role and the text of its single part. */
  datatype Message = Message(role: Role, text: string)

  /** `_ts`, `history`, `last_health`, `last_metrics` and `last_report` of a session blob. */
  datatype Session = Session(
    ts: Option<int>,
    history: seq<Message>,
    lastHealth: Option<HealthReport>,
    lastMetrics: Option<MetricsData>,
    lastReport: Option<string>)

  /** The blob a new session id starts with. */
  function Fresh(now: int): Session {
    Session(Some(now), [], None, None, None)
  }

  /** A blob without a timestamp, or last used more than `ttl` ago, is dead. */
  predicate Expired(s: Session, now: int, ttl: int) {
    s.ts.None? || now - s.ts.value > ttl
  }

  /** What `_purge_sessions` keeps: every session that has not expired, unchanged. */
  function Live(m: map<string, Session>, now: int, ttl: int): (r: map<string, Session>)
    ensures forall k :: k in r <==> k in m && !Expired(m[k], now, ttl)
    ensures forall k :: k in r ==> r[k] == m[k]
  {
    map k | k in m && !Expired(m[k], now, ttl) :: m[k]
  }

  /**
   * What `_get_session` leaves in the store: the purge, then `sid` present and stamped `now`.
   * A live session keeps its history and cached outputs; otherwise `sid` starts fresh.
   */
  function Touch(m: map<string, Session>, sid: string, now: int, ttl: int): (r: map<string, Session>)
    ensures sid in r && r[sid].ts == Some(now)
    ensures sid in m && !Expired(m[sid], now, ttl) ==> r[sid] == m[sid].(ts := Some(now))
    ensures !(sid in m && !Expired(m[sid], now, ttl)) ==> r[sid] == Fresh(now)
    ensures forall k :: k != sid ==> (k in r <==> k in m && !Expired(m[k], now, ttl))
    ensures forall k :: k != sid && k in r ==> r[k] == m[k]
  {
    var live := Live(m, now, ttl);
    var blob := if sid in live then live[sid] else Fresh(now);
    live[sid := blob.(ts := Some(now))]
  }

  /** A session used again exactly `ttl` after its last use survives; one microsecond later it does not. */
  lemma TtlBoundary(m: map<string, Session>, sid: string, t: int, ttl: int)
    requires sid in m && m[sid].ts == Some(t)
    ensures Touch(m, sid, t + ttl, ttl)[sid] == m[sid].(ts := Some(t + ttl))
    ensures Touch(m, sid, t + ttl + 1, ttl)[sid] == Fresh(t + ttl + 1)
  {
  }

  /** Two uses of one id: the history carries over iff the second comes within the TTL of the first. */
  lemma {:induction false} SecondUse(m: map<string, Session>, sid: string, t1: int, t2: int, ttl: int)
    ensures var m2 := Touch(Touch(m, sid, t1, ttl), sid, t2, ttl);
            && (t2 - t1 <= ttl ==> m2[sid].history == Touch(m, sid, t1, ttl)[sid].history)
            && (t2 - t1 > ttl ==> m2[sid] == Fresh(t2))
  {
    var m1 := Touch(m, sid, t1, ttl);
    assert m1[sid].ts == Some(t1);
  }

  /** Writing one key twice leaves only the second write. */
  lemma OverwriteKey<K, V>(m: map<K, V>, k: K, a: V, b: V)
    ensures m[k := a][k := b] == m[k := b]
  {
  }

  /** `_SESSIONS` with `SESSION_TTL_MIN` converted to microseconds. */
  class SessionStore {
    var sessions: map<string, Session>
    const ttl: int

    constructor (ttlMinutes: int)
      ensures sessions == map[] && ttl == ttlMinutes * MicrosPerMinute
    {
      sessions := map[];
      ttl := ttlMinutes * MicrosPerMinute;
    }

    /** `_purge_sessions`: collect the dead ids, then drop them one by one. */
    method Purge(now: int)
      modifies this
      ensures sessions == Live(old(sessions), now, ttl)
    {
      var dead: seq<string> := [];
      var pending := sessions.Keys;
      while pending != {}
        invariant pending <= sessions.Keys
        invariant sessions == old(sessions)
        invariant forall k :: k in dead ==> k in sessions && Expired(sessions[k], now, ttl)
        invariant forall k :: k in sessions && k !in pending && Expired(sessions[k], now, ttl) ==> k in dead
        decreases pending
      {
        var sid :| sid in pending;
        if Expired(sessions[sid], now, ttl) {
          dead := dead + [sid];
        }
        pending := pending - {sid};
      }
      var i := 0;
      while i < |dead|
        invariant 0 <= i <= |dead|
        invariant forall k :: k in sessions <==> k in old(sessions) && k !in dead[..i]
        invariant forall k :: k in sessions ==> sessions[k] == old(sessions)[k]
      {
        sessions := sessions - {dead[i]};
        i := i + 1;
      }
      assert dead[..i] == dead;
      assert sessions.Keys == Live(old(sessions), now, ttl).Keys;
    }

    /** `_get_session`: purge, create the id if it is missing, stamp it, hand it out. */
    method GetSession(sid: string, now: int) returns (s: Session)
      modifies this
      ensures sessions == Touch(old(sessions), sid, now, ttl)
      ensures s == sessions[sid]
    {
      Purge(now);
      if sid !in sessions {
        sessions := sessions[sid := Fresh(now)];
      }
      sessions := sessions[sid := sessions[sid].(ts := Some(now))];
      s := sessions[sid];
    }

    /** Writing a field of the session blob in place: only `sid`'s entry changes. */
    method Save(sid: string, s: Session)
      modifies this
      ensures sessions == old(sessions)[sid := s]
    {
      sessions := sessions[sid := s];
    }
  }
}
