/** The clock arithmetic of client/internal/githubapi/dispatcher.go. Times and durations are in nanoseconds. */
module ServerClock {
  import opened Text

  const SECOND := 1_000_000_000

  /** Go's time.Truncate(time.Second) */
  function FloorSecond(t: int): int {
    t - t % SECOND
  }

  /** Integer division of a Go duration by two. */
  function Half(d: int): int {
    if d >= 0 then d / 2 else -(-d / 2)
  }

  /** The offset that a Date header yields: the server's time less the midpoint of the exchange. */
  function Offset(serverTime: int, localStart: int, localEnd: int): int {
    serverTime - (localStart + Half(localEnd - localStart))
  }

  /** The fields serverClockOffset and serverClockSynced. */
  datatype Clock = Clock(offset: int, synced: bool)

  function ServerNow(clock: Clock, localNow: int): int {
    localNow + clock.offset
  }

  function ServerTimeToLocal(clock: Clock, serverTime: int): int {
    serverTime - clock.offset
  }

  /** The Date header is the server's clock, ahead by some constant, floored at an instant of the exchange. */
  ghost predicate Stamped(serverTime: int, ahead: int, at: int, localStart: int, localEnd: int) {
    localStart <= at <= localEnd && serverTime == FloorSecond(at + ahead)
  }

  lemma {:induction false} FloorBounds(t: int)
    ensures FloorSecond(t) <= t < FloorSecond(t) + 1_000_000_000 && FloorSecond(t) % 1_000_000_000 == 0
    ensures FloorSecond(FloorSecond(t)) == FloorSecond(t)
  {
    assert (t - t % SECOND) % SECOND == 0;
  }

  lemma {:induction false} FloorMonotone(a: int, b: int)
    ensures a <= b ==> FloorSecond(a) <= FloorSecond(b)
    ensures FloorSecond(a) < FloorSecond(b) ==> FloorSecond(a) + 1_000_000_000 <= FloorSecond(b)
  {
    assert FloorSecond(a) == a / SECOND * SECOND && FloorSecond(b) == b / SECOND * SECOND;
  }

  /** The error of the estimate: more than minus one second less half the round trip, at most half the round trip
      rounded up. */
  lemma {:induction false} OffsetError(serverTime: int, ahead: int, at: int, localStart: int, localEnd: int)
    requires Stamped(serverTime, ahead, at, localStart, localEnd)
    ensures var rtt, error := localEnd - localStart, Offset(serverTime, localStart, localEnd) - ahead;
            -1_000_000_000 - rtt / 2 < error <= (rtt + 1) / 2
  {
    FloorBounds(at + ahead);
  }

  /** Both ends of that interval are reached, whatever the round trip. */
  lemma {:induction false} OffsetErrorTight(localStart: int, rtt: nat)
    ensures var localEnd, late, early := localStart + rtt, -localStart - rtt, 999_999_999 - localStart;
            && Stamped(FloorSecond(localEnd + late), late, localEnd, localStart, localEnd)
            && Offset(FloorSecond(localEnd + late), localStart, localEnd) - late == (rtt + 1) / 2
            && Stamped(FloorSecond(localStart + early), early, localStart, localStart, localEnd)
            && Offset(FloorSecond(localStart + early), localStart, localEnd) - early == -1_000_000_000 - rtt / 2 + 1
  {
    assert FloorSecond(0) == 0 && FloorSecond(SECOND - 1) == 0;
  }

  lemma {:induction false} LocalInvertsServer(clock: Clock, localNow: int, serverTime: int)
    ensures ServerTimeToLocal(clock, ServerNow(clock, localNow)) == localNow
    ensures ServerNow(clock, ServerTimeToLocal(clock, serverTime)) == serverTime
  {
  }

  // ----- the run filter -----

  /** findRunForBatch passes over a run created before the dispatch was accepted, to the second. */
  predicate Passed(created: int, accepted: int) {
    FloorSecond(created) < FloorSecond(accepted)
  }

  /** With a Date header in the dispatch reply a run is passed over if and only if it was created in an earlier second
      than the header's; so none created at or after that instant is, nor any created in the same second. */
  lemma {:induction false} DatedFilter(serverTime: int, ahead: int, at: int, localStart: int, localEnd: int,
                                       created: int)
    requires Stamped(serverTime, ahead, at, localStart, localEnd)
    ensures Passed(created, serverTime) <==> created < FloorSecond(at + ahead)
    ensures Passed(FloorSecond(created), serverTime) <==> Passed(created, serverTime)
    ensures created >= at + ahead ==> !Passed(created, serverTime)
  {
    FloorBounds(at + ahead);
    FloorBounds(created);
    FloorMonotone(created, at + ahead);
    FloorMonotone(at + ahead, created);
  }

  /** A run of this server time was created at or after an acceptance at this local instant of the dispatch call. */
  ghost predicate CreatedSince(ahead: int, sent: int, got: int, accepted: int, created: int) {
    sent <= accepted <= got && created >= accepted + ahead
  }

  /** Without one the estimate stands in, from the last exchange (its Date and its two local readings) and a reading
      now. No run is lost if, for every server clock that fits the exchange and every instant of acceptance within the
      dispatch call, every run created from the acceptance on is kept. */
  ghost predicate NeverLost(date: int, localStart: int, localEnd: int, sent: int, got: int, now: int) {
    forall ahead, at, accepted, created ::
      Stamped(date, ahead, at, localStart, localEnd) && CreatedSince(ahead, sent, got, accepted, created) ==>
        !Passed(created, now + Offset(date, localStart, localEnd))
  }

  /** From readings that the client has: no run is lost if and only if the estimated second is not later than the second
      of the earliest acceptance that the exchange allows. */
  lemma {:induction false} UndatedFilter(date: int, localStart: int, localEnd: int, sent: int, got: int, now: int)
    requires localStart <= localEnd && sent <= got && FloorSecond(date) == date
    ensures NeverLost(date, localStart, localEnd, sent, got, now)
            <==> FloorSecond(now + Offset(date, localStart, localEnd)) <= FloorSecond(sent + date - localEnd)
  {
    hide FloorSecond, Offset;
    var estimate, earliest := now + Offset(date, localStart, localEnd), sent + date - localEnd;
    if NeverLost(date, localStart, localEnd, sent, got, now) {
      assert Stamped(date, date - localEnd, localEnd, localStart, localEnd);
      assert CreatedSince(date - localEnd, sent, got, sent, earliest);
      assert !Passed(earliest, estimate);
    }
    if FloorSecond(estimate) <= FloorSecond(earliest) {
      forall ahead, at, accepted, created |
        Stamped(date, ahead, at, localStart, localEnd) && CreatedSince(ahead, sent, got, accepted, created)
        ensures !Passed(created, estimate)
      {
        FloorBounds(at + ahead);
        FloorMonotone(earliest, created);
      }
    }
  }

  /** The estimate is later than the acceptance by at most the time since then plus half the round trip of the exchange
      that set the clock, and later than the earliest acceptance by exactly that. */
  lemma {:induction false} UndatedLateness(serverTime: int, ahead: int, at: int, localStart: int, localEnd: int,
                                           localNow: int, acceptedAt: int, sent: int)
    requires Stamped(serverTime, ahead, at, localStart, localEnd)
    ensures var clock, rtt := Clock(Offset(serverTime, localStart, localEnd), true), localEnd - localStart;
            ServerNow(clock, localNow) - (sent + serverTime - localEnd) == (localNow - sent) + (rtt + 1) / 2
    ensures var clock, rtt := Clock(Offset(serverTime, localStart, localEnd), true), localEnd - localStart;
            ServerNow(clock, localNow) - acceptedAt <= (localNow + ahead - acceptedAt) + (rtt + 1) / 2
  {
    OffsetError(serverTime, ahead, at, localStart, localEnd);
  }

  /** The fallback can lose a run: after a clock exchange of two seconds whose Date was stamped at its end, a run
      created at the very instant of acceptance, in the last nanosecond of a second, is passed over. */
  lemma {:induction false} UndatedLosesRun()
    ensures var clock := Clock(Offset(2 * SECOND, 0, 2 * SECOND), true); var acceptedAt := 3 * SECOND - 1;
            && Stamped(2 * SECOND, 0, 2 * SECOND, 0, 2 * SECOND)
            && Passed(acceptedAt, ServerNow(clock, acceptedAt))
            && !NeverLost(2 * SECOND, 0, 2 * SECOND, acceptedAt, acceptedAt, acceptedAt)
  {
    UndatedFilter(2 * SECOND, 0, 2 * SECOND, 3 * SECOND - 1, 3 * SECOND - 1, 3 * SECOND - 1);
  }
}
