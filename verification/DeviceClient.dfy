/**
 The CLI's polling loop, on its own and against the server's pacing.

 Client and server times are nanoseconds on one clock; the server truncates the
 time it stamps to the microsecond.  A poll that fails on the network may or
 may not have reached the server, and the client cannot tell.
 */
module DeviceClient {
  import opened Wrappers
  import opened DeviceCodes

  const NANO := 1_000_000_000
  const MICRO := 1_000
  const BUMP := 5 * NANO
  const BACKOFF_CAP := 4
  const POLL_FALLBACK := 900 * NANO

  /** Fatal: denied, expired, an invalid grant or client, an unsafe redirect, or an answer that is no token. */
  datatype Action = Done | PendingAnswer | SlowDownAnswer | Transient | Fatal

  datatype Client = Client(interval: int, backoff: int)

  function Begin(advertised: int, minSleep: int): Client {
    var interval := if advertised * NANO < minSleep then minSleep else advertised * NANO;
    Client(interval, interval)
  }

  function Min(a: int, b: int): int {
    if a < b then a else b
  }

  function Max(a: int, b: nat): (r: nat)
    ensures r == a || r == b
    ensures a <= r && b <= r
  {
    if a < b then b else a
  }

  /** The client after an answer, and how long it then sleeps. */
  function React(c: Client, a: Action): (Client, int) {
    match a
    case SlowDownAnswer => (Client(c.interval + BUMP, c.interval + BUMP), c.interval + BUMP)
    case Transient => (Client(c.interval, Min(c.backoff * 2, c.interval * BACKOFF_CAP)), c.backoff)
    case _ => (Client(c.interval, c.interval), c.interval)
  }

  function SleepAfter(c: Client, a: Action, minSleep: int): int {
    var s := React(c, a).1;
    if s < minSleep then minSleep else s
  }

  predicate Steady(c: Client, minSleep: int) {
    0 <= c.interval && minSleep <= c.interval <= c.backoff <= BACKOFF_CAP * c.interval
  }

  lemma ReactKeepsSteady(c: Client, a: Action, minSleep: int)
    requires Steady(c, minSleep)
    ensures Steady(React(c, a).0, minSleep) && c.interval <= React(c, a).0.interval
    ensures c.interval <= SleepAfter(c, a, minSleep) <= BACKOFF_CAP * React(c, a).0.interval
  {}

  // ---------------------------------------------------------------------
  // The loop
  // ---------------------------------------------------------------------

  /** One trip round the loop: the clock before the poll, when its answer was in, and what it was. */
  datatype Trip = Trip(sent: int, returned: int, action: Action)

  predicate Ends(a: Action) {
    a.Done? || a.Fatal?
  }

  function ClientAt(c: Client, trips: seq<Trip>, k: nat): Client
    requires k <= |trips|
  {
    if k == 0 then c else React(ClientAt(c, trips, k - 1), trips[k - 1].action).0
  }

  lemma {:induction false} ClientStaysSteady(c: Client, trips: seq<Trip>, k: nat, minSleep: int)
    requires Steady(c, minSleep) && k <= |trips|
    ensures Steady(ClientAt(c, trips, k), minSleep)
  {
    if 0 < k {
      ClientStaysSteady(c, trips, k - 1, minSleep);
      ReactKeepsSteady(ClientAt(c, trips, k - 1), trips[k - 1].action, minSleep);
    }
  }

  function SlowDowns(trips: seq<Trip>, k: nat): nat
    requires k <= |trips|
  {
    if k == 0 then 0 else SlowDowns(trips, k - 1) + if trips[k - 1].action.SlowDownAnswer? then 1 else 0
  }

  /** How many of the first k trips, counted back from the last, failed in a row. */
  function Streak(trips: seq<Trip>, k: nat): nat
    requires k <= |trips|
  {
    if k == 0 || !trips[k - 1].action.Transient? then 0 else Streak(trips, k - 1) + 1
  }

  /** Doubled at most twice. */
  function Doubled(interval: int, times: nat): int {
    if times == 0 then interval else if times == 1 then 2 * interval else 4 * interval
  }

  /** The interval is the first one and five seconds per slow_down. */
  lemma {:induction false} IntervalIs(c: Client, trips: seq<Trip>, k: nat)
    requires k <= |trips|
    ensures ClientAt(c, trips, k).interval == c.interval + 5_000_000_000 * SlowDowns(trips, k)
  {
    if 0 < k { IntervalIs(c, trips, k - 1); }
  }

  /** The backoff is the interval, doubled per failure in a row. */
  lemma {:induction false} BackoffIs(c: Client, trips: seq<Trip>, k: nat)
    requires c.backoff == c.interval && 0 <= c.interval && k <= |trips|
    ensures 0 <= c.interval <= ClientAt(c, trips, k).interval
    ensures ClientAt(c, trips, k).backoff == Doubled(ClientAt(c, trips, k).interval, Streak(trips, k))
  {
    if 0 < k { BackoffIs(c, trips, k - 1); }
  }

  /** The loop's two variables after k answers it has reacted to. */
  predicate PaceIs(advertised: int, minSleep: int, trips: seq<Trip>, k: nat, interval: int, backoff: int)
    requires k <= |trips|
  {
    && interval == (if advertised * NANO < minSleep then minSleep else advertised * NANO)
                   + 5_000_000_000 * SlowDowns(trips, k)
    && backoff == Doubled(interval, Streak(trips, k))
  }

  lemma ClientPace(advertised: int, minSleep: int, trips: seq<Trip>, k: nat, interval: int, backoff: int)
    requires 0 <= minSleep && k <= |trips|
    requires ClientAt(Begin(advertised, minSleep), trips, k) == Client(interval, backoff)
    ensures PaceIs(advertised, minSleep, trips, k, interval, backoff)
  {
    IntervalIs(Begin(advertised, minSleep), trips, k);
    BackoffIs(Begin(advertised, minSleep), trips, k);
  }

  lemma SleepOnce(b: Client, a: Action, minSleep: int, n: nat)
    requires b.backoff == Doubled(b.interval, n) && 0 <= minSleep <= b.interval
    ensures SleepAfter(b, a, minSleep) == if a.Transient? then Doubled(b.interval, n) else React(b, a).0.interval
    ensures a.Transient? ==> React(b, a).0.interval == b.interval
  {}

  /** It sleeps the new interval, or after the nth failure in a row once, twice or four times that. */
  lemma SleepIs(c: Client, trips: seq<Trip>, k: nat, minSleep: int)
    requires c.backoff == c.interval && 0 <= minSleep <= c.interval && 0 < k <= |trips|
    ensures SleepAfter(ClientAt(c, trips, k - 1), trips[k - 1].action, minSleep)
         == Doubled(ClientAt(c, trips, k).interval, Max(Streak(trips, k) - 1, 0))
  {
    BackoffIs(c, trips, k - 1);
    SleepOnce(ClientAt(c, trips, k - 1), trips[k - 1].action, minSleep, Streak(trips, k - 1));
  }

  /** Time passes: an answer comes after its request, and the next trip starts after the sleep. */
  ghost predicate Plausible(c: Client, trips: seq<Trip>, start: int, minSleep: int) {
    && (trips != [] ==> start <= trips[0].sent)
    && (forall k | 0 <= k < |trips| :: trips[k].sent <= trips[k].returned)
    && (forall k | 0 < k < |trips| :: Rested(c, trips, k, minSleep))
  }

  /** Trip k starts only once the sleep after the one before it is over. */
  predicate Rested(c: Client, trips: seq<Trip>, k: nat, minSleep: int)
    requires 0 < k < |trips|
  {
    trips[k - 1].returned + SleepAfter(ClientAt(c, trips, k - 1), trips[k - 1].action, minSleep) <= trips[k].sent
  }

  function Deadline(expiresIn: int, pollDeadline: int): (d: int)
    ensures 0 < d
    ensures pollDeadline > 0 ==> d == pollDeadline
    ensures pollDeadline <= 0 < expiresIn ==> d == expiresIn * 1_000_000_000
    ensures pollDeadline <= 0 && expiresIn <= 0 ==> d == 900_000_000_000
  {
    var d := if pollDeadline > 0 then pollDeadline else expiresIn * NANO;
    if d <= 0 then POLL_FALLBACK else d
  }

  datatype Exit = GotToken | Failed | Cancelled | DeadlineExceeded | StillPolling

  lemma TripsAreSpaced(c: Client, trips: seq<Trip>, start: int, minSleep: int, k: nat)
    requires Steady(c, minSleep) && 0 <= minSleep && Plausible(c, trips, start, minSleep) && k < |trips|
    ensures trips[k].sent - start >= k * minSleep
  {
    if 0 < k {
      TripsAreSpaced(c, trips, start, minSleep, k - 1);
      ClientStaysSteady(c, trips, k - 1, minSleep);
      ReactKeepsSteady(ClientAt(c, trips, k - 1), trips[k - 1].action, minSleep);
      assert Rested(c, trips, k, minSleep);
      assert (k - 1) * minSleep + minSleep == k * minSleep;
    }
  }

  /**
   The loop over what the clock and the server will do; the caller cancels, if
   ever, before trip `cancelAt` starts, asleep or not.  It stops at the first
   token or fatal answer, at a cancellation, or before the first poll at or
   past the deadline; with a positive floor on sleeps it therefore polls at
   most deadline / minSleep + 1 times.
   */
  method PollLoop(advertised: int, expiresIn: int, pollDeadline: int, minSleep: int, start: int, trips: seq<Trip>,
                  cancelAt: Option<nat>)
    returns (exit: Exit, polls: nat, interval: int, backoff: int)
    requires 0 <= minSleep
    requires Plausible(Begin(advertised, minSleep), trips, start, minSleep)
    ensures polls <= |trips|
    ensures forall k | 0 <= k < polls ::
              && trips[k].sent - start < Deadline(expiresIn, pollDeadline) && (Ends(trips[k].action) ==> k + 1 == polls)
              && cancelAt != Some(k)
    ensures exit.GotToken? <==> 0 < polls && trips[polls - 1].action.Done?
    ensures exit.Failed? <==> 0 < polls && trips[polls - 1].action.Fatal?
    ensures exit.Cancelled? ==> cancelAt == Some(polls)
    ensures exit.DeadlineExceeded? ==> polls < |trips| && trips[polls].sent - start >= Deadline(expiresIn, pollDeadline)
    ensures exit.StillPolling? ==> polls == |trips| && cancelAt != Some(polls)
    ensures minSleep <= interval <= backoff <= BACKOFF_CAP * interval
    ensures var heard := if exit.GotToken? || exit.Failed? then polls - 1 else polls;
            PaceIs(advertised, minSleep, trips, heard, interval, backoff)
    ensures 0 < polls ==> (polls - 1) * minSleep < Deadline(expiresIn, pollDeadline)
  {
    interval := advertised * NANO;
    if interval < minSleep {
      interval := minSleep;
    }
    var deadline := expiresIn * NANO;
    if pollDeadline > 0 {
      deadline := pollDeadline;
    }
    if deadline <= 0 {
      deadline := POLL_FALLBACK;
    }
    backoff := interval;
    polls := 0;
    ghost var c := Begin(advertised, minSleep);
    while true
      invariant polls <= |trips| && deadline == Deadline(expiresIn, pollDeadline)
      invariant Client(interval, backoff) == ClientAt(c, trips, polls) && Steady(Client(interval, backoff), minSleep)
      invariant forall k | 0 <= k < polls ::
                  trips[k].sent - start < deadline && !Ends(trips[k].action) && cancelAt != Some(k)
      invariant 0 < polls ==> (polls - 1) * minSleep < deadline
      decreases |trips| - polls
    {
      ClientPace(advertised, minSleep, trips, polls, interval, backoff);
      if cancelAt == Some(polls) {
        return Cancelled, polls, interval, backoff;
      }
      if polls == |trips| {
        return StillPolling, polls, interval, backoff;
      }
      var trip := trips[polls];
      if trip.sent - start >= deadline {
        return DeadlineExceeded, polls, interval, backoff;
      }
      TripsAreSpaced(c, trips, start, minSleep, polls);
      ReactKeepsSteady(Client(interval, backoff), trip.action, minSleep);
      polls := polls + 1;
      match trip.action {
        case Done => return GotToken, polls, interval, backoff;
        case Fatal => return Failed, polls, interval, backoff;
        case PendingAnswer => backoff := interval;
        case SlowDownAnswer =>
          interval := interval + BUMP;
          backoff := interval;
        case Transient =>
          backoff := backoff * 2;
          var maxBackoff := interval * BACKOFF_CAP;
          if backoff > maxBackoff {
            backoff := maxBackoff;
          }
      }
    }
  }

  // ---------------------------------------------------------------------
  // Against the server
  // ---------------------------------------------------------------------

  /** The pacing half of a device-code row. */
  datatype Pace = Pace(last: Option<int>, interval: int)

  /** A trip together with the instant, if any, at which the server read its clock for it. */
  datatype Meeting = Meeting(trip: Trip, reached: Option<int>)

  function Stamp(instant: int): int {
    instant / MICRO
  }

  predicate Slowed(p: Pace, m: Meeting) {
    m.reached.Some? && TooFast(p.last, p.interval, Stamp(m.reached.value))
  }

  function Met(p: Pace, m: Meeting): Pace {
    if m.reached.None? then p
    else Pace(Some(Stamp(m.reached.value)), if Slowed(p, m) then p.interval + SLOW_DOWN else p.interval)
  }

  function PaceAt(p: Pace, ms: seq<Meeting>, k: nat): Pace
    requires k <= |ms|
  {
    if k == 0 then p else Met(PaceAt(p, ms, k - 1), ms[k - 1])
  }

  function Trips(ms: seq<Meeting>): seq<Trip> {
    seq(|ms|, i requires 0 <= i < |ms| => ms[i].trip)
  }

  /** The server reads its clock while the request is under way, and says slow_down only when it means it. */
  predicate Honest(p: Pace, ms: seq<Meeting>) {
    forall k | 0 <= k < |ms| ::
      && (ms[k].reached.Some? ==> ms[k].trip.sent <= ms[k].reached.value <= ms[k].trip.returned)
      && (ms[k].trip.action.SlowDownAnswer? ==> Slowed(PaceAt(p, ms, k), ms[k]))
  }

  /** The client waits at least the stored interval, and the stored stamp is not after its last answer. */
  ghost predicate Leads(c: Client, p: Pace, ms: seq<Meeting>, k: nat, minSleep: int)
    requires k <= |ms|
  {
    var pace := PaceAt(p, ms, k);
    && Steady(ClientAt(c, Trips(ms), k), minSleep)
    && pace.interval == p.interval && p.interval * NANO <= ClientAt(c, Trips(ms), k).interval
    && (pace.last.Some? ==> 0 < k && pace.last.value <= Stamp(ms[k - 1].trip.returned))
  }

  lemma TruncationKeepsGaps(a: int, b: int, seconds: int)
    requires a + seconds * NANO <= b
    ensures Stamp(a) + seconds * SECOND <= Stamp(b)
  {}

  lemma StampMonotone(a: int, b: int)
    requires a <= b
    ensures Stamp(a) <= Stamp(b)
  {}

  lemma NotSlowed(c: Client, p: Pace, ms: seq<Meeting>, k: nat, start: int, minSleep: int)
    requires 0 <= minSleep && Plausible(c, Trips(ms), start, minSleep) && Honest(p, ms)
    requires k < |ms| && Leads(c, p, ms, k, minSleep) && (0 < k ==> Leads(c, p, ms, k - 1, minSleep))
    ensures !Slowed(PaceAt(p, ms, k), ms[k])
  {
    var pace := PaceAt(p, ms, k);
    if ms[k].reached.Some? && pace.last.Some? {
      var trips := Trips(ms);
      var before := ClientAt(c, trips, k - 1);
      assert Rested(c, trips, k, minSleep);
      ReactKeepsSteady(before, trips[k - 1].action, minSleep);
      TruncationKeepsGaps(ms[k - 1].trip.returned, ms[k].reached.value, p.interval);
    }
  }

  /** One meeting further: the pace keeps its interval, the client keeps at least that, the stamp is in the past. */
  lemma LeadsOn(c: Client, p: Pace, ms: seq<Meeting>, k: nat, start: int, minSleep: int)
    requires 0 <= minSleep && Plausible(c, Trips(ms), start, minSleep) && Honest(p, ms)
    requires k < |ms| && Leads(c, p, ms, k, minSleep) && !Slowed(PaceAt(p, ms, k), ms[k])
    ensures Leads(c, p, ms, k + 1, minSleep)
  {
    var trips := Trips(ms);
    ReactKeepsSteady(ClientAt(c, trips, k), trips[k].action, minSleep);
    assert trips[k].sent <= trips[k].returned;
    if ms[k].reached.Some? {
      StampMonotone(ms[k].reached.value, ms[k].trip.returned);
    } else if 0 < k {
      assert Rested(c, trips, k, minSleep);
      StampMonotone(ms[k - 1].trip.returned, ms[k].trip.returned);
    }
  }

  predicate Undisturbed(p: Pace, ms: seq<Meeting>, i: nat)
    requires i < |ms|
  {
    !Slowed(PaceAt(p, ms, i), ms[i]) && !ms[i].trip.action.SlowDownAnswer?
  }

  lemma {:induction false} LeadsAlways(c: Client, p: Pace, ms: seq<Meeting>, k: nat, start: int, minSleep: int)
    requires 0 <= minSleep && Steady(c, minSleep) && p.last.None? && p.interval * NANO <= c.interval
    requires Plausible(c, Trips(ms), start, minSleep) && Honest(p, ms) && k <= |ms|
    ensures Leads(c, p, ms, k, minSleep)
    ensures 0 < k ==> Undisturbed(p, ms, k - 1)
    decreases k
  {
    if 0 < k {
      LeadsAlways(c, p, ms, k - 1, start, minSleep);
      if 1 < k { LeadsAlways(c, p, ms, k - 2, start, minSleep); }
      NotSlowed(c, p, ms, k - 1, start, minSleep);
      LeadsOn(c, p, ms, k - 1, start, minSleep);
    }
  }

  /**
   A lone client that starts from the advertised interval is never slowed
   down: every poll that reaches the server, the ones whose answers were lost
   included, is well paced, and the stored interval never moves.
   */
  lemma {:induction false} NeverSlowedDown(advertised: int, ms: seq<Meeting>, start: int, minSleep: int)
    requires 0 <= minSleep && Plausible(Begin(advertised, minSleep), Trips(ms), start, minSleep)
      && Honest(Pace(None, advertised), ms)
    ensures forall i | 0 <= i < |ms| :: Undisturbed(Pace(None, advertised), ms, i)
    ensures PaceAt(Pace(None, advertised), ms, |ms|).interval == advertised
  {
    var c, p := Begin(advertised, minSleep), Pace(None, advertised);
    assert Steady(c, minSleep);
    forall i | 0 <= i < |ms| ensures Undisturbed(p, ms, i) {
      LeadsAlways(c, p, ms, i + 1, start, minSleep);
    }
    LeadsAlways(c, p, ms, |ms|, start, minSleep);
  }
}
