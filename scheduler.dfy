/** The daily and weekly digests: which users the scheduled runs write to, what each digest
    carries, and how a failure ends a run. The cron timing is not modelled; the client's
    presence, the user rows the run reads and the outcome of each send are inputs. */
module Scheduler {
  import opened Ledger
  import opened Reports

  /** The two scheduled runs. */
  datatype Run = DailyRun | WeeklyRun

  /** The columns of a `getAllUsersTotals` row that the runs look at. */
  datatype UserRow = UserRow(phone: string, notifyDaily: bool, notifyWeekly: bool)

  /** Whether the row's user has asked for this run's digest. */
  predicate Wants(run: Run, row: UserRow) {
    match run
    case DailyRun => row.notifyDaily
    case WeeklyRun => row.notifyWeekly
  }

  /** The values a digest prints. */
  datatype Digest =
    | DailyDigest(net: real, expense: real, leaveBalance: real)
    | WeeklyDigest(salary: real, expense: real, net: real, goal: GoalStatus, leaveBalance: real)

  datatype Notification = Notification(chatId: string, digest: Digest)

  /** The digest of one user, from the all-time totals, the goal and the leave bank. */
  function DigestOf(s: Store, run: Run, phone: string): (d: Digest)
    reads s
  {
    var t := TotalsOf(s.entries, phone, Everything);
    match run
    case DailyRun => DailyDigest(Net(t), t.expense, LeaveBankOf(s.entries, phone).balance)
    case WeeklyRun => WeeklyDigest(t.salary, t.expense, Net(t), GoalStatusOf(s.Goal(phone), Net(t)),
                                   LeaveBankOf(s.entries, phone).balance)
  }

  /** The digest's net balance is salary plus the overtime priced at salary/220 per hour,
      minus expenses; the weekly goal line compares that net with the goal. */
  lemma DigestNet(s: Store, run: Run, phone: string)
    ensures var t := TotalsOf(s.entries, phone, Everything);
            var d := DigestOf(s, run, phone);
            && d.net * 220.0 == t.salary * (220.0 + t.overtimeHours) - t.expense * 220.0
            && d.expense == t.expense
            && (run.WeeklyRun? ==> (d.goal.Reached? <==> s.Goal(phone) > 0.0 && d.net >= s.Goal(phone)))
            && (run.WeeklyRun? ==> (d.goal.NoGoal? <==> s.Goal(phone) <= 0.0))
            && (run.WeeklyRun? && d.goal.Short? ==> d.net + d.goal.missing == s.Goal(phone))
  {
  }

  /** The chat id the scheduler writes to: the phone with `@c.us` appended. */
  function ChatOf(row: UserRow): string {
    row.phone + "@c.us"
  }

  /** The rows of users who asked for the run, in the order read. */
  function OptedIn(run: Run, rows: seq<UserRow>): (r: seq<UserRow>)
    ensures |r| <= |rows|
    ensures forall i :: 0 <= i < |r| ==> r[i] in rows && Wants(run, r[i])
    ensures forall x :: x in r <==> x in rows && Wants(run, x)
  {
    if rows == [] then []
    else if Wants(run, rows[0]) then [rows[0]] + OptedIn(run, rows[1..])
    else OptedIn(run, rows[1..])
  }

  /** The digests of the given rows, one each, in order. */
  function Messages(s: Store, run: Run, rows: seq<UserRow>): (r: seq<Notification>)
    reads s
    ensures |r| == |rows|
    ensures forall i :: 0 <= i < |r| ==> r[i] == Notification(ChatOf(rows[i]), DigestOf(s, run, rows[i].phone))
  {
    if rows == [] then [] else [Notification(ChatOf(rows[0]), DigestOf(s, run, rows[0].phone))] + Messages(s, run, rows[1..])
  }

  /** What every opted-in user would receive if no send failed. */
  function Broadcast(s: Store, run: Run, rows: seq<UserRow>): seq<Notification>
    reads s
  {
    Messages(s, run, OptedIn(run, rows))
  }

  /** What a run delivers when `outcomes[i]` says whether the work for row `i` succeeds: rows
      that did not opt in are skipped, and the first failure ends the run (one `try` wraps
      the whole loop). */
  function Delivered(s: Store, run: Run, rows: seq<UserRow>, outcomes: seq<bool>): seq<Notification>
    requires |outcomes| >= |rows|
    reads s
  {
    if rows == [] then []
    else if !Wants(run, rows[0]) then Delivered(s, run, rows[1..], outcomes[1..])
    else if !outcomes[0] then []
    else [Notification(ChatOf(rows[0]), DigestOf(s, run, rows[0].phone))] + Delivered(s, run, rows[1..], outcomes[1..])
  }

  /** A run delivers a prefix of the broadcast: only opted-in users, in the order read. */
  lemma {:induction false} DeliveredIsPrefix(s: Store, run: Run, rows: seq<UserRow>, outcomes: seq<bool>)
    requires |outcomes| >= |rows|
    ensures var d := Delivered(s, run, rows, outcomes);
            |d| <= |Broadcast(s, run, rows)| && d == Broadcast(s, run, rows)[..|d|]
  {
    if rows != [] {
      DeliveredIsPrefix(s, run, rows[1..], outcomes[1..]);
    }
  }

  /** With no failure every opted-in user receives exactly one digest. */
  lemma {:induction false} NoFailureReachesAll(s: Store, run: Run, rows: seq<UserRow>, outcomes: seq<bool>)
    requires |outcomes| >= |rows|
    requires forall i :: 0 <= i < |rows| ==> outcomes[i]
    ensures Delivered(s, run, rows, outcomes) == Broadcast(s, run, rows)
  {
    if rows != [] {
      NoFailureReachesAll(s, run, rows[1..], outcomes[1..]);
    }
  }

  /** A failure for an opted-in user ends the run: no row after it is served. */
  lemma {:induction false} FailureEndsRun(s: Store, run: Run, rows: seq<UserRow>, outcomes: seq<bool>, i: nat)
    requires |outcomes| >= |rows| && i < |rows|
    requires Wants(run, rows[i]) && !outcomes[i]
    ensures Delivered(s, run, rows, outcomes) == Delivered(s, run, rows[..i], outcomes[..i])
  {
    if i == 0 {
    } else {
      assert rows[1..][..i - 1] == rows[..i][1..];
      assert outcomes[1..][..i - 1] == outcomes[..i][1..];
      FailureEndsRun(s, run, rows[1..], outcomes[1..], i - 1);
    }
  }

  /** `sendDailyNotifications` / `sendWeeklyNotifications`: nothing without a client;
      otherwise the loop over the rows, sending to those who opted in, until the first
      failure. */
  method Notify(s: Store, run: Run, hasClient: bool, rows: seq<UserRow>, outcomes: seq<bool>)
    returns (sent: seq<Notification>)
    requires |outcomes| >= |rows|
    ensures !hasClient ==> sent == []
    ensures hasClient ==> sent == Delivered(s, run, rows, outcomes)
  {
    sent := [];
    if !hasClient {
      return;
    }
    var i := 0;
    while i < |rows|
      invariant i <= |rows|
      invariant Delivered(s, run, rows, outcomes) == sent + Delivered(s, run, rows[i..], outcomes[i..])
    {
      assert rows[i..][1..] == rows[i + 1..];
      assert outcomes[i..][1..] == outcomes[i + 1..];
      var row := rows[i];
      if Wants(run, row) {
        if !outcomes[i] {
          return;
        }
        sent := sent + [Notification(ChatOf(row), DigestOf(s, run, row.phone))];
      }
      i := i + 1;
    }
  }
}
