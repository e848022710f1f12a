/** The session store as values: the `conversations` map and the changes the
    manager's methods make to it, with the expiry sweep. Time is an integer
    count of microseconds, the resolution of Python's `datetime`. */
module Store {
  import opened Conversation

  /** `timedelta(minutes=30)` in microseconds. */
  const ExpiryMicros := 30 * 60 * 1_000_000

  type Sessions = map<string, Session>

  /** The sweep's test `now - last_updated > expiry_time`: strictly older than 30 minutes. */
  predicate Expired(s: Session, now: int)
  {
    now - s.lastUpdated > ExpiryMicros
  }

  /** `_cleanup_expired`: the store without its expired sessions. */
  function Sweep(m: Sessions, now: int): (r: Sessions)
    ensures forall u :: u in r <==> u in m && !Expired(m[u], now)
    ensures forall u :: u in r ==> r[u] == m[u]
  {
    map u | u in m && !Expired(m[u], now) :: m[u]
  }

  function NewSession(now: int): Session
  {
    Session(now, DefaultContext, [])
  }

  /** What `get_user_context(id)` does to the store at time `now`: sweep, then
      create the session with the default context or refresh its timestamp. */
  function Touch(m: Sessions, id: string, now: int): (r: Sessions)
    ensures id in r && r[id].lastUpdated == now
    ensures id in m && !Expired(m[id], now) ==>
              r[id].context == m[id].context && r[id].history == m[id].history
    ensures !(id in m && !Expired(m[id], now)) ==>
              r[id].context == DefaultContext && r[id].history == []
    ensures forall u :: u in r ==> !Expired(r[u], now)
    ensures forall u :: u != id ==> (u in r <==> u in m && !Expired(m[u], now))
    ensures forall u :: u != id && u in r ==> r[u] == m[u]
  {
    var s := Sweep(m, now);
    if id in s then s[id := s[id].(lastUpdated := now)] else s[id := NewSession(now)]
  }

  /** A store that is already swept at `now` and whose user `id` was touched
      at `now` is left as it is by touching `id` again. */
  lemma TouchStable(m: Sessions, id: string, now: int)
    requires forall u :: u in m ==> !Expired(m[u], now)
    requires id in m && m[id].lastUpdated == now
    ensures Touch(m, id, now) == m
  {
    assert Sweep(m, now) == m;
    assert m[id := m[id].(lastUpdated := now)] == m;
  }

  /** Touching twice at the same time is touching once. */
  lemma TouchIdempotent(m: Sessions, id: string, now: int)
    ensures Touch(Touch(m, id, now), id, now) == Touch(m, id, now)
  {
    TouchStable(Touch(m, id, now), id, now);
  }

  /** `update_context(id, u)`: merge `u` into the context and refresh the
      timestamp of an existing session; an absent session is not created. */
  function Update(m: Sessions, id: string, u: Updates, now: int): (r: Sessions)
    ensures r.Keys == m.Keys
    ensures forall v :: v in m && v != id ==> r[v] == m[v]
    ensures id in m ==>
      r[id].context == Apply(m[id].context, u) && r[id].history == m[id].history && r[id].lastUpdated == now
  {
    if id in m then m[id := m[id].(context := Apply(m[id].context, u), lastUpdated := now)] else m
  }

  /** `add_to_history(id, message, is_bot)`: one entry at the end of an
      existing session's history; an absent session is not created. */
  function Append(m: Sessions, id: string, message: string, isBot: bool, now: int): (r: Sessions)
    ensures r.Keys == m.Keys
    ensures forall v :: v in m && v != id ==> r[v] == m[v]
    ensures id in m ==>
      r[id].history == m[id].history + [Entry(now, message, isBot)] &&
      r[id].context == m[id].context && r[id].lastUpdated == now
  {
    if id in m then m[id := m[id].(history := m[id].history + [Entry(now, message, isBot)], lastUpdated := now)]
    else m
  }

  /** `reset_user_context(id)`: a session with the reset context and an empty
      history, whether or not one existed. No sweep is done. */
  function Reset(m: Sessions, id: string, now: int): (r: Sessions)
    ensures r.Keys == m.Keys + {id}
    ensures forall v :: v in m && v != id ==> r[v] == m[v]
    ensures r[id].context == ResetContext && r[id].history == [] && r[id].lastUpdated == now
  {
    m[id := Session(now, ResetContext, [])]
  }

  /** The in-place append of `analyze_message`: the stored interests of
      `id` become `interests`; nothing else changes, not even the timestamp. */
  function WithInterests(m: Sessions, id: string, interests: seq<string>): (r: Sessions)
    requires id in m
    ensures r.Keys == m.Keys
    ensures forall v :: v in m && v != id ==> r[v] == m[v]
    ensures r[id] == m[id].(context := m[id].context.(interests := interests))
  {
    m[id := m[id].(context := m[id].context.(interests := interests))]
  }

  /** Writing back the interests already stored changes nothing. */
  lemma WithInterestsSame(m: Sessions, id: string)
    requires id in m
    ensures WithInterests(m, id, m[id].context.interests) == m
  {
    assert m[id].context.(interests := m[id].context.interests) == m[id].context;
  }

  /** One matching category of the interest loop, seen on the store: the
      first touches and writes the interests, every later touch changes
      nothing, and each write replaces the previous one. */
  lemma InterestWrite(m0: Sessions, id: string, now: int, touched: bool,
                      before: Sessions, prev: seq<string>, interests: seq<string>)
    requires !touched ==> before == m0 && prev == Touch(m0, id, now)[id].context.interests
    requires touched ==> before == WithInterests(Touch(m0, id, now), id, prev)
    ensures Touch(before, id, now)[id].context.interests == prev
    ensures WithInterests(Touch(before, id, now), id, interests) == WithInterests(Touch(m0, id, now), id, interests)
  {
    var m1 := Touch(m0, id, now);
    if touched {
      TouchStable(before, id, now);
    } else {
      WithInterestsSame(m1, id);
    }
  }

  function Min(a: int, b: int): int { if a <= b then a else b }

  /** Python's `h[start:]` for any integer `start`: a negative start counts
      from the end, and the result is clipped to the sequence. */
  function SliceFrom<T>(h: seq<T>, start: int): seq<T>
  {
    var k := if start < 0 then start + |h| else start;
    var k' := if k < 0 then 0 else if k > |h| then |h| else k;
    h[k'..]
  }

  /** `history[-limit:]`: for a positive limit the last `min(limit, |h|)`
      entries in their order; a limit of 0 gives the whole history, a
      negative one drops the first `-limit` entries. */
  function Recent<T>(h: seq<T>, limit: int): (r: seq<T>)
    ensures limit >= 1 ==> |r| == Min(limit, |h|) && r == h[|h| - |r|..]
    ensures limit == 0 ==> r == h
    ensures limit < 0 ==> r == h[Min(-limit, |h|)..]
  {
    SliceFrom(h, -limit)
  }

  /** After a new entry the window of `limit` is the previous window of
      `limit - 1` followed by that entry. */
  lemma RecentAfterAppend<T>(h: seq<T>, e: T, limit: int)
    requires limit >= 1
    ensures Recent(h + [e], limit) == (if limit == 1 then [] else Recent(h, limit - 1)) + [e]
  {
    var r := Recent(h + [e], limit);
    if limit > 1 {
      var q := Recent(h, limit - 1);
      assert |r| == |q| + 1;
      assert r == (h + [e])[|h| + 1 - |r|..];
      assert q == h[|h| - |q|..];
      assert (h + [e])[|h| + 1 - |r|..] == h[|h| - |q|..] + [e];
    }
  }
}
