/** The device_codes table as an object, and the device grant that drives it, one request at a time. */
module DeviceStore {
  import opened Wrappers
  import opened DeviceCodes

  type Code = nat

  datatype Outcome =
    | InvalidGrant
    | InvalidClient
    | SlowDown
    | ExpiredToken
    | AccessDenied
    | AuthorizationPending
    | LegacyGrant
    | NoPermissions
    | Issue(id: Identity)

  /** A poll at `now` comes sooner after the last than the row's interval allows. */
  predicate Hasty(r: Row, now: int) {
    r.lastPolled.Some? && now < r.lastPolled.value + r.interval * SECOND
  }

  /** Nobody has denied the code, and it has not expired. */
  predicate Open(r: Row, now: int) {
    now <= r.expiresAt && r.deniedAt.None?
  }

  /** Whom the code was approved for; empty on a row from before subjects were recorded. */
  function Subject(r: Row): string {
    if r.identity.Some? then r.identity.value.subject else ""
  }

  /** The outcome of a poll, by its client, of a row it finds. */
  predicate Fits(r: Row, now: int, permitted: bool, out: Outcome) {
    var due := !Hasty(r, now) && Open(r, now) && r.approvedAt.Some?;
    && (out == SlowDown <==> Hasty(r, now))
    && (out == ExpiredToken <==> !Hasty(r, now) && r.expiresAt < now)
    && (out == AccessDenied <==> !Hasty(r, now) && now <= r.expiresAt && r.deniedAt.Some?)
    && (out == AuthorizationPending <==> !Hasty(r, now) && Open(r, now) && r.approvedAt.None?)
    && (out == LegacyGrant <==> due && Subject(r) == "")
    && (out == NoPermissions <==> due && Subject(r) != "" && !permitted)
    && (out.Issue? <==> due && Subject(r) != "" && permitted)
    && (out.Issue? ==> r.identity == Some(out.id))
  }

  class Devices {
    var rows: map<Code, Row>

    constructor ()
      ensures rows == map[]
    {
      rows := map[];
    }

    method PollDeviceCode(c: Code, now: int) returns (slow: Option<bool>)
      modifies this
      ensures slow.None? <==> c !in old(rows)
      ensures slow.None? ==> rows == old(rows)
      ensures slow.Some? ==>
                var r := old(rows)[c];
                && (slow.value <==> Hasty(r, now))
                && rows == old(rows)[c := r.(lastPolled := Some(now),
                     interval := if Hasty(r, now) then r.interval + 5 else r.interval)]
    {
      if c !in rows {
        return None;
      }
      var r := rows[c];
      var tooFast := r.lastPolled.Some? && now - r.lastPolled.value < r.interval * SECOND;
      var bump := if tooFast then SLOW_DOWN else 0;
      rows := rows[c := r.(lastPolled := Some(now), interval := r.interval + bump)];
      slow := Some(tooFast);
    }

    /** ApproveDeviceCode and DenyDeviceCode: one conditional update. */
    method DecideDeviceCode(c: Code, verdict: Verdict, now: int) returns (decided: bool)
      modifies this
      ensures decided <==> c in old(rows) && Pending(old(rows)[c]) && now < old(rows)[c].expiresAt
      ensures rows == if decided then old(rows)[c := Decided(old(rows)[c], Decision(verdict, now))] else old(rows)
      ensures decided ==> !Pending(rows[c])
    {
      decided := false;
      if c in rows {
        var r := rows[c];
        if r.approvedAt.None? && r.deniedAt.None? && r.expiresAt > now {
          match verdict {
            case Approve(id) => rows := rows[c := r.(approvedAt := Some(now), identity := Some(id))];
            case Deny => rows := rows[c := r.(deniedAt := Some(now))];
          }
          decided := true;
        }
      }
    }

    method ConsumeDeviceCode(c: Code) returns (r: Option<Row>)
      modifies this
      ensures rows == old(rows) - {c}
      ensures r == if c in old(rows) then Some(old(rows)[c]) else None
    {
      if c !in rows {
        assert rows - {c} == rows;
        return None;
      }
      r := Some(rows[c]);
      rows := rows - {c};
    }

    /**
     The whole grant, in the order the errors are decided: a client that does
     not authenticate learns nothing of the code; a poll that is too fast is
     slow_down whatever else is true of it, and changes nothing but its pace;
     any terminal answer deletes the row; a pending code keeps it.
     */
    method DeviceCodeGrant(c: Code, client: nat, authentic: bool, permitted: bool, now: int) returns (out: Outcome)
      modifies this
      ensures !authentic ==> out == InvalidClient && rows == old(rows)
      ensures authentic && c !in old(rows) ==> out == InvalidGrant && rows == old(rows)
      ensures authentic && c in old(rows) && client != old(rows)[c].client ==> out == InvalidClient && rows == old(rows)
      ensures authentic && c in old(rows) && client == old(rows)[c].client ==>
                Fits(old(rows)[c], now, permitted, out)
      ensures authentic && c in old(rows) && client == old(rows)[c].client ==>
                var r := old(rows)[c];
                match out
                case SlowDown => rows == old(rows)[c := r.(lastPolled := Some(now), interval := r.interval + 5)]
                case AuthorizationPending => rows == old(rows)[c := r.(lastPolled := Some(now))]
                case _ => rows == old(rows) - {c}
    {
      if !authentic {
        return InvalidClient;
      }
      if c !in rows {
        return InvalidGrant;
      }
      var dc := rows[c];
      if client != dc.client {
        return InvalidClient;
      }
      var slow := PollDeviceCode(c, now);
      if slow.value {
        return SlowDown;
      }
      if now > dc.expiresAt {
        var _ := ConsumeDeviceCode(c);
        assert rows == old(rows) - {c};
        return ExpiredToken;
      }
      if dc.deniedAt.Some? {
        var _ := ConsumeDeviceCode(c);
        assert rows == old(rows) - {c};
        return AccessDenied;
      }
      if dc.approvedAt.None? {
        return AuthorizationPending;
      }
      var final := ConsumeDeviceCode(c);
      assert rows == old(rows) - {c};
      if final.value.identity.None? || final.value.identity.value.subject == "" {
        return LegacyGrant;
      }
      if !permitted {
        return NoPermissions;
      }
      out := Issue(final.value.identity.value);
    }
  }

  // ---------------------------------------------------------------------
  // The grant is the machine's request, run without a pause
  // ---------------------------------------------------------------------

  function PollSteps(r: Row, p: Pid, now: int, locked: bool): seq<Step> {
    if locked then [PollLocked(p)]
    else if Hasty(r, now) then [PollRead(p), PollBump(p)]
    else [PollRead(p), PollSwap(p)]
  }

  function AnswerSteps(r: Row, p: Pid, now: int, permitted: bool): seq<Step> {
    if Hasty(r, now) then []
    else if !Open(r, now) then [Answer(p), Close(p)]
    else if r.approvedAt.Some? then [Answer(p), Claim(p, permitted)]
    else [Answer(p)]
  }

  /** What a request that nobody interrupts does: `locked` as Postgres records its poll, otherwise as SQLite does. */
  function Steps(r: Row, p: Pid, client: nat, now: int, permitted: bool, locked: bool): seq<Step> {
    [LookUp(p, client, now)] + (PollSteps(r, p, now, locked) + AnswerSteps(r, p, now, permitted))
  }

  lemma {:induction false} RunsJoin(w: World, a: seq<Step>, b: seq<Step>)
    requires IsRun(w, a) && IsRun(Run(w, a), b)
    ensures IsRun(w, a + b) && Run(w, a + b) == Run(Run(w, a), b)
    decreases |a|
  {
    if a == [] {
      assert a + b == b;
    } else {
      assert (a + b)[1..] == a[1..] + b;
      RunsJoin(Next(w, a[0]), a[1..], b);
    }
  }

  lemma RunOne(w: World, a: Step)
    requires Enabled(w, a)
    ensures IsRun(w, [a]) && Run(w, [a]) == Next(w, a)
  {
    assert [a][1..] == [];
  }

  lemma RunTwo(w: World, a: Step, b: Step)
    requires Enabled(w, a) && Enabled(Next(w, a), b)
    ensures IsRun(w, [a, b]) && Run(w, [a, b]) == Next(Next(w, a), b)
  {
    RunOne(w, a);
    RunOne(Next(w, a), b);
    assert [a] + [b] == [a, b];
    RunsJoin(w, [a], [b]);
  }

  /** Either way of polling leaves the row and the request alike. */
  lemma PollRuns(w: World, p: Pid, r: Row, now: int, locked: bool)
    requires w.row == Some(r) && p in w.grants && w.grants[p] == Polling(r, now)
    ensures IsRun(w, PollSteps(r, p, now, locked))
    ensures
      var n := Run(w, PollSteps(r, p, now, locked));
      && n.row == Some(r.(lastPolled := Some(now), interval := if Hasty(r, now) then r.interval + 5 else r.interval))
      && n.mints == w.mints && n.grants == if Hasty(r, now) then w.grants - {p} else w.grants[p := Paced(r, now)]
  {
    if locked {
      RunOne(w, PollLocked(p));
    } else {
      var v := Next(w, PollRead(p));
      RunTwo(w, PollRead(p), if Hasty(r, now) then PollBump(p) else PollSwap(p));
      assert v.grants - {p} == w.grants - {p};
    }
  }

  lemma AnswerRuns(w: World, p: Pid, r: Row, now: int, permitted: bool)
    requires w.row.Some? && w.row.value.identity == r.identity && !Hasty(r, now)
      && p in w.grants && w.grants[p] == Paced(r, now)
    ensures IsRun(w, AnswerSteps(r, p, now, permitted))
    ensures
      var n := Run(w, AnswerSteps(r, p, now, permitted));
      && n.grants == w.grants - {p}
      && n.row == (if Open(r, now) && r.approvedAt.None? then w.row else None)
      && n.mints == w.mints
         + if Open(r, now) && r.approvedAt.Some? && Subject(r) != "" && permitted
           then [Mint(now, r.identity.value)] else []
  {
    var v := Next(w, Answer(p));
    assert v.grants - {p} == w.grants - {p};
    if !Open(r, now) {
      RunTwo(w, Answer(p), Close(p));
    } else if r.approvedAt.Some? {
      RunTwo(w, Answer(p), Claim(p, permitted));
    } else {
      RunOne(w, Answer(p));
    }
  }

  /**
   Whatever outcome meets what the grant promises, the machine's request, run
   from start to end with nothing in between, mints exactly if it is an issue,
   and then that identity at that time; and it leaves or deletes the row alike.
   */
  lemma GrantIsTheMachine(w: World, p: Pid, now: int, permitted: bool, locked: bool, out: Outcome)
    requires w.row.Some? && p !in w.grants && Fits(w.row.value, now, permitted, out)
    ensures
      var r := w.row.value;
      var acts := Steps(r, p, r.client, now, permitted, locked);
      && IsRun(w, acts)
      && Run(w, acts).mints == w.mints + (if out.Issue? then [Mint(now, out.id)] else [])
      && Run(w, acts).grants == w.grants
      && Run(w, acts).row ==
         match out
         case SlowDown => Some(r.(lastPolled := Some(now), interval := r.interval + 5))
         case AuthorizationPending => Some(r.(lastPolled := Some(now)))
         case _ => None
  {
    var r := w.row.value;
    var polls, answers := PollSteps(r, p, now, locked), AnswerSteps(r, p, now, permitted);
    var start := LookUp(p, r.client, now);
    RunOne(w, start);
    var v := Next(w, start);
    assert v.grants - {p} == w.grants;
    PollRuns(v, p, r, now, locked);
    var n := Run(v, polls);
    if !Hasty(r, now) {
      assert n.grants - {p} == w.grants;
      AnswerRuns(n, p, r, now, permitted);
    } else {
      assert IsRun(n, []) && Run(n, []) == n;
    }
    RunsJoin(v, polls, answers);
    RunsJoin(w, [start], polls + answers);
  }

  /** The row a decision leaves: exactly a pending, unexpired one is stamped, and approved for whom it was. */
  predicate Decides(was: Option<Row>, verdict: Verdict, now: int, n: Option<Row>) {
    if was.Some? && was.value.approvedAt.None? && was.value.deniedAt.None? && now < was.value.expiresAt then
      match verdict
      case Approve(id) => n == Some(was.value.(approvedAt := Some(now), identity := Some(id)))
      case Deny => n == Some(was.value.(deniedAt := Some(now)))
    else n == was
  }

  /** The one conditional update of the Postgres store. */
  lemma DecisionIsTheMachine(w: World, verdict: Verdict, now: int)
    ensures Decides(w.row, verdict, now, Next(w, Decide(verdict, now)).row)
    ensures Next(w, Decide(verdict, now)).decisions
         == w.decisions + if Next(w, Decide(verdict, now)).row == w.row then [] else [Decision(verdict, now)]
  {}

  /** The SQLite store's check and then update, uninterrupted, come to the same. */
  lemma CheckThenApplyDecides(w: World, q: Pid, verdict: Verdict, now: int)
    requires q !in w.deciders && w.row.Some? && now < w.row.value.expiresAt
    ensures IsRun(w, [DecideCheck(q, verdict, now), DecideApply(q)])
    ensures Run(w, [DecideCheck(q, verdict, now), DecideApply(q)]) == Next(w, Decide(verdict, now))
  {
    RunTwo(w, DecideCheck(q, verdict, now), DecideApply(q));
    assert w.deciders[q := Decision(verdict, now)] - {q} == w.deciders;
  }
}
