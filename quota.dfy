/**
 * The per-user daily quota of the confession bot, as a function of the
 * `user_stats` table: one row per user id holding the username given at the
 * first submission, the number of submissions counted on the day of
 * `lastReset`, and the number counted in all.
 */
module Quota {

  type UserId = int

  /** A calendar date as the bot stores it ('YYYY-MM-DD'); only ever compared for equality. */
  type Date = string

  /** The daily maximum the bot passes in, and the literal it always reports back as the maximum. */
  const DefaultMax := 6
  const ReportedMax := 6

  /** One row of `user_stats`. */
  datatype UserStats = UserStats(username: string, countToday: int, totalConfessions: int, lastReset: Date)

  type Table = map<UserId, UserStats>

  /** The triple returned to the caller: (allowed, count, maximum). */
  datatype Verdict = Verdict(allowed: bool, count: int, max: int)

  /** A verdict together with the table after the call. */
  datatype Decision = Decision(verdict: Verdict, stats: Table)

  /** Every row counts at least the submission that created it, and no more today than in all. */
  predicate WellFormed(stats: Table)
  {
    forall u :: u in stats ==> 1 <= stats[u].countToday <= stats[u].totalConfessions
  }

  /** The user has no submission counted on `today` yet: a new user, or a row last reset on another day. */
  predicate FreshDay(stats: Table, userId: UserId, today: Date)
  {
    userId !in stats || stats[userId].lastReset != today
  }

  /**
   * One call of the quota check for `userId` on `today`: a new user is inserted,
   * a row from another day is reset, a row at the limit is refused without any
   * write, and any other row is incremented. Only the caller's row can change.
   */
  function Decide(stats: Table, userId: UserId, username: string, maxConfessions: int, today: Date): (r: Decision)
    ensures r.verdict.max == ReportedMax
    ensures r.verdict.allowed <==> FreshDay(stats, userId, today) || stats[userId].countToday < maxConfessions
    ensures !r.verdict.allowed ==> r.stats == stats && r.verdict.count == stats[userId].countToday
    ensures r.verdict.allowed ==> r.verdict.count == if FreshDay(stats, userId, today) then 1 else stats[userId].countToday + 1
    ensures r.verdict.allowed ==> r.stats == stats[userId := UserStats(
              if userId in stats then stats[userId].username else username,
              r.verdict.count,
              if userId in stats then stats[userId].totalConfessions + 1 else 1,
              today)]
    ensures r.stats.Keys == stats.Keys + {userId}
    ensures forall u :: u in stats && u != userId ==> r.stats[u] == stats[u]
    ensures WellFormed(stats) ==> WellFormed(r.stats)
  {
    if userId !in stats then
      Decision(Verdict(true, 1, ReportedMax), stats[userId := UserStats(username, 1, 1, today)])
    else
      var row := stats[userId];
      if row.lastReset != today then
        Decision(Verdict(true, 1, ReportedMax),
                 stats[userId := row.(countToday := 1, lastReset := today, totalConfessions := row.totalConfessions + 1)])
      else if row.countToday >= maxConfessions then
        Decision(Verdict(false, row.countToday, ReportedMax), stats)
      else
        var newCount := row.countToday + 1;
        Decision(Verdict(true, newCount, ReportedMax),
                 stats[userId := row.(countToday := newCount, totalConfessions := row.totalConfessions + 1)])
  }

  // ---------------------------------------------------------------------------
  // Repeated submissions by one user on one day.

  /** The table after `n` successive calls by the same user on the same day. */
  function After(stats: Table, userId: UserId, username: string, maxConfessions: int, today: Date, n: nat): Table
  {
    if n == 0 then stats
    else Decide(After(stats, userId, username, maxConfessions, today, n - 1), userId, username, maxConfessions, today).stats
  }

  /** The verdict of the call made after `n` earlier ones by the same user on the same day. */
  function Attempt(stats: Table, userId: UserId, username: string, maxConfessions: int, today: Date, n: nat): Verdict
  {
    Decide(After(stats, userId, username, maxConfessions, today, n), userId, username, maxConfessions, today).verdict
  }

  /**
   * A user already counted `c` times today, with `c` within the maximum, is
   * allowed `max - c` more calls and refused every call after those; the
   * counter rises by one per allowed call and then stays at the maximum.
   */
  lemma {:induction false} SameDayAttempts(stats: Table, userId: UserId, username: string, maxConfessions: int, today: Date, n: nat)
    requires userId in stats && stats[userId].lastReset == today
    requires 0 <= stats[userId].countToday <= maxConfessions
    ensures var after := After(stats, userId, username, maxConfessions, today, n);
            var c := stats[userId].countToday;
            && userId in after && after[userId].lastReset == today
            && after[userId].username == stats[userId].username
            && after[userId].countToday == (if c + n <= maxConfessions then c + n else maxConfessions)
            && after[userId].totalConfessions == stats[userId].totalConfessions + after[userId].countToday - c
    ensures var c := stats[userId].countToday;
            var v := Attempt(stats, userId, username, maxConfessions, today, n);
            && (v.allowed <==> c + n < maxConfessions)
            && v.count == (if c + n < maxConfessions then c + n + 1 else maxConfessions)
  {
    if n > 0 {
      SameDayAttempts(stats, userId, username, maxConfessions, today, n - 1);
    }
  }

  /** After `n + 1` calls starting on a fresh day, the row is today's and counts `min(n + 1, max)`. */
  lemma {:induction false} AfterFreshDay(stats: Table, userId: UserId, username: string, maxConfessions: int, today: Date, n: nat)
    requires FreshDay(stats, userId, today)
    requires maxConfessions >= 1
    ensures var after := After(stats, userId, username, maxConfessions, today, n + 1);
            && userId in after && after[userId].lastReset == today
            && after[userId].countToday == (if n < maxConfessions then n + 1 else maxConfessions)
  {
    if n == 0 {
      assert After(stats, userId, username, maxConfessions, today, 0) == stats;
    } else {
      AfterFreshDay(stats, userId, username, maxConfessions, today, n - 1);
    }
  }

  /**
   * On a user's first call of a day (or first call ever), with a maximum of at
   * least one, the first `max` calls are allowed and numbered 1 to `max`, and
   * every later call that day is refused reporting `max`.
   */
  lemma {:induction false} DailyAllowance(stats: Table, userId: UserId, username: string, maxConfessions: int, today: Date, n: nat)
    requires FreshDay(stats, userId, today)
    requires maxConfessions >= 1
    ensures var v := Attempt(stats, userId, username, maxConfessions, today, n);
            && (v.allowed <==> n < maxConfessions)
            && v.count == (if n < maxConfessions then n + 1 else maxConfessions)
  {
    if n == 0 {
      assert After(stats, userId, username, maxConfessions, today, 0) == stats;
    } else {
      AfterFreshDay(stats, userId, username, maxConfessions, today, n - 1);
    }
  }
}
