/**
 * The `confessions` log: every accepted submission as one immutable row, and
 * the two counts the bot reports (all rows, and rows sent on a given day).
 */
module Recorder {
  import opened Quota

  /** `confession_type`: 'texto' or 'foto'. */
  datatype Kind = Text | Photo

  /** The server clock at the moment of a call: a date ('YYYY-MM-DD') and a time ('HH:MM:SS'). */
  datatype Clock = Clock(date: Date, time: string)

  /** One row of `confessions`; the auto-increment id is the row's position in the log. */
  datatype Confession = Confession(userId: UserId, text: string, kind: Kind, dateSent: Date, timeSent: string)

  type Log = seq<Confession>

  /** `SELECT COUNT(*) FROM confessions WHERE date_sent = day`. */
  function CountOn(log: Log, day: Date): (n: nat)
    ensures n <= |log|
    ensures n == |log| <==> forall i :: 0 <= i < |log| ==> log[i].dateSent == day
  {
    if log == [] then 0
    else (if log[0].dateSent == day then 1 else 0) + CountOn(log[1..], day)
  }

  /** The dates of the rows, in order. */
  function Dates(log: Log): (ds: seq<Date>)
    ensures |ds| == |log| && forall i :: 0 <= i < |log| ==> ds[i] == log[i].dateSent
  {
    seq(|log|, i requires 0 <= i < |log| => log[i].dateSent)
  }

  /** The count of a day is the number of times that day occurs among the rows' dates. */
  lemma {:induction false} CountOnIsMultiplicity(log: Log, day: Date)
    ensures CountOn(log, day) == multiset(Dates(log))[day]
  {
    if log != [] {
      CountOnIsMultiplicity(log[1..], day);
      assert Dates(log) == [log[0].dateSent] + Dates(log[1..]);
    }
  }

  /** Counting a log cut in two adds the counts of the parts. */
  lemma {:induction false} CountOnConcat(a: Log, b: Log, day: Date)
    ensures CountOn(a + b, day) == CountOn(a, day) + CountOn(b, day)
  {
    if a == [] {
      assert a + b == b;
    } else {
      assert (a + b)[1..] == a[1..] + b;
      CountOnConcat(a[1..], b, day);
    }
  }

  /** Appending one row adds one to its own day's count and nothing to any other day's. */
  lemma CountOnAppend(log: Log, c: Confession, day: Date)
    ensures CountOn(log + [c], day) == CountOn(log, day) + (if c.dateSent == day then 1 else 0)
  {
    CountOnConcat(log, [c], day);
  }

  /** Three rows sent today and two sent on another day: three counted today, two on the other day. */
  lemma MixedDays(today: Date, yesterday: Date, t: Confession, y: Confession)
    requires today != yesterday && t.dateSent == today && y.dateSent == yesterday
    ensures CountOn([y, y, t, t, t], today) == 3
    ensures CountOn([y, y, t, t, t], yesterday) == 2
  {
    assert [y, y, t, t, t] == [y, y] + [t, t, t];
    CountOnConcat([y, y], [t, t, t], today);
    CountOnConcat([y, y], [t, t, t], yesterday);
  }
}
