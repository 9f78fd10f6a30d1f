// The collaboration server's session table (server/index.js): the in-memory `sessions` Map and
// what the socket handlers do to it. The sockets, rooms and broadcasts are not modelled; the
// clock is the `now` parameter and the random part of a new session id is `suffix`.
module Collab {
  import opened Wrappers
  import opened Seqs
  import opened Text
  import opened KernelTypes

  /** Sessions idle for longer than this are cleaned up: 30 minutes in milliseconds. */
  const Timeout: int := 30 * 60 * 1000

  const NotFound: string := "Session not found"

  // ---------------------------------------------------------------------------
  // Participant lists
  // ---------------------------------------------------------------------------

  /** join-session: the user is pushed unless already present. */
  function Joined(participants: seq<string>, userId: string): seq<string> {
    if userId in participants then participants else participants + [userId]
  }

  function IsNot(userId: string): string -> bool {
    (id: string) => id != userId
  }

  /** leave-session: `participants.filter(id => id !== userId)`. */
  function Left(participants: seq<string>, userId: string): seq<string> {
    Filter(participants, IsNot(userId))
  }

  /** Joining adds exactly that user, once, and keeps the list free of repeats. */
  lemma JoinedMembers(participants: seq<string>, userId: string)
    ensures forall x :: x in Joined(participants, userId) <==> x in participants || x == userId
    ensures Distinct(participants) ==> Distinct(Joined(participants, userId))
    ensures Joined(Joined(participants, userId), userId) == Joined(participants, userId)
    ensures |Joined(participants, userId)| > 0
  {
  }

  /** Leaving removes every occurrence of that user and nobody else. */
  lemma LeftMembers(participants: seq<string>, userId: string)
    ensures forall x :: x in Left(participants, userId) <==> x in participants && x != userId
    ensures Distinct(participants) ==> Distinct(Left(participants, userId))
  {
    var r := Left(participants, userId);
    forall x | x in participants && x != userId ensures x in r {
      var i :| 0 <= i < |participants| && participants[i] == x;
    }
    forall x | x in r ensures x in participants && x != userId {
      var i :| 0 <= i < |r| && r[i] == x;
    }
    if Distinct(participants) {
      FilterDistinct(participants, IsNot(userId));
    }
  }

  /** A user who was not in a session and joins it, then leaves it, leaves the list as it was. */
  lemma {:induction false} JoinThenLeave(participants: seq<string>, userId: string)
    requires userId !in participants
    ensures Left(Joined(participants, userId), userId) == participants
  {
    FilterKeepsAll(participants, IsNot(userId));
    LeftAppend(participants, [userId], userId);
  }

  lemma {:induction false} LeftAppend(a: seq<string>, b: seq<string>, userId: string)
    ensures Left(a + b, userId) == Left(a, userId) + Left(b, userId)
    decreases |a|
  {
    if |a| > 0 {
      assert (a + b)[1..] == a[1..] + b;
      LeftAppend(a[1..], b, userId);
    } else {
      assert a + b == b;
    }
  }

  // ---------------------------------------------------------------------------
  // The table as a value
  // ---------------------------------------------------------------------------

  /** Every session sits under its own id and has a non-empty list of participants without repeats. */
  ghost predicate WellFormed(sessions: map<string, CollabSession>) {
    forall k :: k in sessions ==>
      sessions[k].id == k && |sessions[k].participants| > 0 && Distinct(sessions[k].participants)
  }

  /** `now - lastActivityAt > TIMEOUT`. */
  predicate Expired(s: CollabSession, now: int) {
    now - s.lastActivityAt > Timeout
  }

  /** The table after the cleanup pass: the idle sessions are gone, all others stay as they are. */
  function Cleaned(sessions: map<string, CollabSession>, now: int): (r: map<string, CollabSession>)
    ensures forall k :: k in r <==> k in sessions && !Expired(sessions[k], now)
    ensures forall k :: k in r ==> r[k] == sessions[k]
  {
    map k | k in sessions && !Expired(sessions[k], now) :: sessions[k]
  }

  /** Cleaning keeps the table well formed, and cleaning twice at the same time changes nothing more. */
  lemma CleanedProperties(sessions: map<string, CollabSession>, now: int, later: int)
    requires now <= later
    ensures WellFormed(sessions) ==> WellFormed(Cleaned(sessions, now))
    ensures Cleaned(Cleaned(sessions, now), now) == Cleaned(sessions, now)
    ensures Cleaned(Cleaned(sessions, now), later) == Cleaned(sessions, later)
  {
    assert Cleaned(Cleaned(sessions, now), later).Keys == Cleaned(sessions, later).Keys;
  }

  /** `session-${Date.now()}-${random}`. */
  function SessionId(now: int, suffix: string): string {
    "session-" + IntToString(now) + "-" + suffix
  }

  // ---------------------------------------------------------------------------
  // The server
  // ---------------------------------------------------------------------------

  class SessionTable {
    var sessions: map<string, CollabSession>

    ghost predicate Valid()
      reads this
    {
      WellFormed(sessions)
    }

    constructor()
      ensures Valid() && sessions == map[]
    {
      sessions := map[];
    }

    /** create-session: a new active session whose only participant is its creator. */
    method CreateSession(resourceId: string, userId: string, now: int, suffix: string) returns (s: CollabSession)
      requires Valid()
      modifies this
      ensures Valid()
      ensures s.id == SessionId(now, suffix) && s.resourceId == resourceId && s.participants == [userId]
      ensures s.createdAt == now && s.lastActivityAt == now && s.isActive
      ensures sessions == old(sessions)[s.id := s]
    {
      s := CollabSession(SessionId(now, suffix), resourceId, [userId], now, now, true);
      sessions := sessions[s.id := s];
    }

    /** join-session: an unknown id is an error; otherwise the user is added once and the activity time refreshed. */
    method JoinSession(sessionId: string, userId: string, now: int) returns (r: Result<CollabSession, string>)
      requires Valid()
      modifies this
      ensures Valid()
      ensures sessionId !in old(sessions) ==> r == Err(NotFound) && sessions == old(sessions)
      ensures sessionId in old(sessions) ==>
        var s := old(sessions)[sessionId];
        var s' := s.(participants := Joined(s.participants, userId), lastActivityAt := now);
        r == Ok(s') && sessions == old(sessions)[sessionId := s']
    {
      if sessionId !in sessions {
        return Err(NotFound);
      }
      var s := sessions[sessionId];
      var participants := s.participants;
      if userId !in participants {
        participants := participants + [userId];
      }
      JoinedMembers(s.participants, userId);
      s := s.(participants := participants, lastActivityAt := now);
      sessions := sessions[sessionId := s];
      r := Ok(s);
    }

    /**
     * leave-session: an unknown id is an error; otherwise the user is removed and a session left
     * without participants is deleted. Leaving does not refresh the activity time.
     */
    method LeaveSession(sessionId: string, userId: string) returns (r: Outcome<string>)
      requires Valid()
      modifies this
      ensures Valid()
      ensures sessionId !in old(sessions) ==> r == Fail(NotFound) && sessions == old(sessions)
      ensures sessionId in old(sessions) ==>
        var s := old(sessions)[sessionId];
        var rest := Left(s.participants, userId);
        && r == Pass
        && (|rest| == 0 ==> sessions == old(sessions) - {sessionId})
        && (|rest| > 0 ==> sessions == old(sessions)[sessionId := s.(participants := rest)])
    {
      if sessionId !in sessions {
        return Fail(NotFound);
      }
      var s := sessions[sessionId];
      LeftMembers(s.participants, userId);
      s := s.(participants := Left(s.participants, userId));
      if |s.participants| == 0 {
        sessions := sessions - {sessionId};
      } else {
        sessions := sessions[sessionId := s];
      }
      r := Pass;
    }

    /** update: relayed only into an existing session, whose activity time is refreshed. */
    method Update(sessionId: string, now: int) returns (relayed: bool)
      requires Valid()
      modifies this
      ensures Valid()
      ensures relayed <==> sessionId in old(sessions)
      ensures relayed ==> sessions == old(sessions)[sessionId := old(sessions)[sessionId].(lastActivityAt := now)]
      ensures !relayed ==> sessions == old(sessions)
    {
      relayed := sessionId in sessions;
      if relayed {
        sessions := sessions[sessionId := sessions[sessionId].(lastActivityAt := now)];
      }
    }

    /** disconnect: nothing in the table changes. */
    method Disconnect()
      requires Valid()
      ensures Valid() && sessions == old(sessions)
    {
    }

    /** The interval body: every session idle for more than the timeout is deleted. */
    method Cleanup(now: int)
      requires Valid()
      modifies this
      ensures Valid() && sessions == Cleaned(old(sessions), now)
    {
      CleanedProperties(sessions, now, now);
      var todo := sessions.Keys;
      while todo != {}
        invariant todo <= old(sessions).Keys
        invariant forall k :: k in sessions <==> k in old(sessions) && (k in todo || !Expired(old(sessions)[k], now))
        invariant forall k :: k in sessions ==> sessions[k] == old(sessions)[k]
        decreases todo
      {
        var k :| k in todo;
        if now - sessions[k].lastActivityAt > Timeout {
          sessions := sessions - {k};
        }
        todo := todo - {k};
      }
      assert sessions.Keys == Cleaned(old(sessions), now).Keys;
    }
  }

  /**
   * A session joined at `joinedAt` survives a cleanup run within the timeout, holding the
   * joining user; the rest of the table is cleaned as if the join had not happened.
   */
  lemma JoinedSurvivesCleanup(sessions: map<string, CollabSession>, sessionId: string, userId: string,
                              joinedAt: int, now: int)
    requires sessionId in sessions && now - joinedAt <= Timeout
    ensures var s := sessions[sessionId];
      var s' := s.(participants := Joined(s.participants, userId), lastActivityAt := joinedAt);
      && sessionId in Cleaned(sessions[sessionId := s'], now)
      && userId in Cleaned(sessions[sessionId := s'], now)[sessionId].participants
      && Cleaned(sessions[sessionId := s'], now) == Cleaned(sessions, now)[sessionId := s']
  {
    var s := sessions[sessionId];
    var s' := s.(participants := Joined(s.participants, userId), lastActivityAt := joinedAt);
    JoinedMembers(s.participants, userId);
    assert Cleaned(sessions[sessionId := s'], now).Keys == Cleaned(sessions, now)[sessionId := s'].Keys;
  }
}
