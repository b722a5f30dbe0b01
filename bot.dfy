/**
 * The confession handler of the bot: which messages are dropped, the daily
 * quota consumed next, the content rules applied after it, and the row saved
 * only when everything has passed. The two database tables are the fields of
 * `ConfessionBot`; replies and channel posts are reduced to an `Outcome`.
 */
module Bot {
  import opened Wrappers
  import opened Words
  import opened Validation
  import opened Quota
  import opened Recorder

  /** The two reply-keyboard labels the bot offers. */
  const SendLabel := "📝 Enviar Confesión"
  const SupportLabel := "📞 Contacto Soporte"

  /** The name recorded for a user without a username. */
  const DefaultUsername := "Sin_username"

  /** The text saved for a photo without a caption (never used: such photos are refused). */
  const PhotoFallback := "Foto sin texto"

  /** What the handler reads from an incoming message. */
  datatype Message = Message(
    userId: UserId,
    username: Option<string>,
    isBot: bool,
    text: Option<string>,
    hasPhoto: bool,
    caption: Option<string>)

  /** How the handling of one message ends, in place of the reply it sends. */
  datatype Outcome =
    | Ignored                        // a bot, a command or the "send" keyboard label: no reply
    | SupportShown                   // the "support" keyboard label: the support message
    | LimitReached(count: int)       // the daily quota refused the submission
    | Rejected(kind: Kind, check: Check) // the content rules refused it
    | NoContent                      // neither text nor photo: nothing is replied or saved
    | Published(kind: Kind, count: int) // saved; the channel post and the success reply follow

  /** The outcome of one message together with both tables afterwards. */
  datatype Step = Step(outcome: Outcome, stats: Table, log: Log)

  /** Python truthiness of `message.text`: present and non-empty. */
  predicate HasText(msg: Message)
  {
    msg.text.Some? && msg.text.value != []
  }

  predicate IsCommand(msg: Message)
  {
    HasText(msg) && msg.text.value[0] == '/'
  }

  /** `message.from_user.username or "Sin_username"`. */
  function UsernameOf(msg: Message): string
  {
    if msg.username.Some? && msg.username.value != [] then msg.username.value else DefaultUsername
  }

  /** `message.caption if message.caption else ""`. */
  function CaptionOf(msg: Message): string
  {
    if msg.caption.Some? then msg.caption.value else ""
  }

  /** The messages answered before the quota is looked at, and how. */
  function Prefilter(msg: Message): Option<Outcome>
  {
    if msg.isBot then Some(Ignored)
    else if IsCommand(msg) then Some(Ignored)
    else if msg.text == Some(SupportLabel) then Some(SupportShown)
    else if msg.text == Some(SendLabel) then Some(Ignored)
    else None
  }

  /** The kind of a submission and the verdict of the content rules on it; None without text or photo. */
  function Content(msg: Message): Option<(Kind, Check)>
  {
    if HasText(msg) then Some((Text, ValidateText(msg.text.value)))
    else if msg.hasPhoto then Some((Photo, ValidatePhoto(CaptionOf(msg))))
    else None
  }

  /** The quota decision the handler asks for: the default maximum, on the clock's date. */
  function QuotaFor(stats: Table, msg: Message, now: Clock): Decision
  {
    Decide(stats, msg.userId, UsernameOf(msg), DefaultMax, now.date)
  }

  /** The row saved for an accepted submission: the text, or the photo's caption. */
  function RowFor(msg: Message, now: Clock): Confession
  {
    if HasText(msg) then Confession(msg.userId, msg.text.value, Text, now.date, now.time)
    else Confession(msg.userId, CaptionOf(msg), Photo, now.date, now.time)
  }

  /**
   * The handling of one message against both tables. Dropped messages touch
   * nothing; every other message consumes quota first, so a submission the
   * content rules refuse has still used a slot; a row is appended exactly when
   * the quota and the content rules both let the submission through.
   */
  function Handle(stats: Table, log: Log, msg: Message, now: Clock): (r: Step)
    ensures Prefilter(msg).Some? ==> r == Step(Prefilter(msg).value, stats, log)
    ensures Prefilter(msg).None? ==> r.stats == QuotaFor(stats, msg, now).stats
    ensures r.outcome.LimitReached? <==> Prefilter(msg).None? && !QuotaFor(stats, msg, now).verdict.allowed
    ensures r.outcome.LimitReached? ==> r.stats == stats && r.outcome.count == stats[msg.userId].countToday
    ensures r.outcome.Published? <==>
              && Prefilter(msg).None?
              && QuotaFor(stats, msg, now).verdict.allowed
              && Content(msg).Some? && Content(msg).value.1.Valid?
    ensures r.outcome.Published? ==> r.log == log + [RowFor(msg, now)]
    ensures r.outcome.Published? ==> RowFor(msg, now).text != [] && WordCount(RowFor(msg, now).text) >= MinWords
    ensures r.outcome.Published? ==> r.outcome.count == QuotaFor(stats, msg, now).verdict.count
    ensures !r.outcome.Published? ==> r.log == log
    ensures r.outcome.Rejected? ==> Content(msg) == Some((r.outcome.kind, r.outcome.check)) && !r.outcome.check.Valid?
    ensures Prefilter(msg).None? && QuotaFor(stats, msg, now).verdict.allowed && Content(msg).Some? && !Content(msg).value.1.Valid?
            ==> r.outcome == Rejected(Content(msg).value.0, Content(msg).value.1)
    ensures Prefilter(msg).None? && QuotaFor(stats, msg, now).verdict.allowed && Content(msg).None? ==> r.outcome == NoContent
    ensures WellFormed(stats) ==> WellFormed(r.stats)
  {
    match Prefilter(msg)
    case Some(o) => Step(o, stats, log)
    case None =>
      var d := QuotaFor(stats, msg, now);
      if !d.verdict.allowed then Step(LimitReached(d.verdict.count), d.stats, log)
      else
        match Content(msg)
        case None => Step(NoContent, d.stats, log)
        case Some((kind, check)) =>
          if check.Valid? then Step(Published(kind, d.verdict.count), d.stats, log + [RowFor(msg, now)])
          else Step(Rejected(kind, check), d.stats, log)
  }

  /** An accepted photo is saved with its own caption, which has at least 25 words. */
  lemma PhotoSavesCaption(stats: Table, log: Log, msg: Message, now: Clock)
    requires Handle(stats, log, msg, now).outcome.Published?
    requires Handle(stats, log, msg, now).outcome.kind == Photo
    ensures msg.caption.Some?
    ensures Handle(stats, log, msg, now).log == log + [Confession(msg.userId, msg.caption.value, Photo, now.date, now.time)]
    ensures WordCount(msg.caption.value) >= MinWords
  {
  }

  /**
   * A user with five submissions counted today who sends a text the content
   * rules refuse has used the sixth slot: the next submission that day is
   * refused by the quota, however good it is.
   */
  lemma RejectedContentUsesSlot(stats: Table, log: Log, short: Message, good: Message, now: Clock)
    requires short.userId in stats && stats[short.userId].lastReset == now.date && stats[short.userId].countToday == 5
    requires Prefilter(short).None? && HasText(short) && WordCount(short.text.value) < MinWords
    requires Prefilter(good).None? && good.userId == short.userId
    ensures var first := Handle(stats, log, short, now);
            && first.outcome == Rejected(Text, TooShort(WordCount(short.text.value)))
            && first.log == log
            && first.stats[short.userId].countToday == 6
            && Handle(first.stats, first.log, good, now).outcome == LimitReached(6)
  {
  }

  /**
   * The database of the bot: the `user_stats` table keyed by user id and the
   * `confessions` table in insertion order.
   */
  class ConfessionBot {
    var userStats: Table
    var confessions: Log

    ghost predicate Valid()
      reads this
    {
      WellFormed(userStats)
    }

    /** A first start on a new database file: both tables are created empty. */
    constructor ()
      ensures Valid()
      ensures userStats == map[] && confessions == []
    {
      userStats := map[];
      confessions := [];
    }

    /** A start on an existing database file: both tables keep their rows. */
    constructor Open(stats: Table, log: Log)
      requires WellFormed(stats)
      ensures Valid()
      ensures userStats == stats && confessions == log
    {
      userStats := stats;
      confessions := log;
    }

    /** `check_daily_limit`: decide and record one submission attempt of `userId` on `today`. */
    method CheckDailyLimit(userId: UserId, username: string, maxConfessions: int, today: Date)
      returns (allowed: bool, count: int, max: int)
      requires Valid()
      modifies this`userStats
      ensures Valid()
      ensures Verdict(allowed, count, max) == Decide(old(userStats), userId, username, maxConfessions, today).verdict
      ensures userStats == Decide(old(userStats), userId, username, maxConfessions, today).stats
    {
      if userId !in userStats {
        userStats := userStats[userId := UserStats(username, 1, 1, today)];
        return true, 1, ReportedMax;
      }
      var row := userStats[userId];
      if row.lastReset != today {
        userStats := userStats[userId := row.(countToday := 1, lastReset := today,
                                              totalConfessions := row.totalConfessions + 1)];
        return true, 1, ReportedMax;
      }
      if row.countToday >= maxConfessions {
        return false, row.countToday, ReportedMax;
      }
      var newCount := row.countToday + 1;
      userStats := userStats[userId := row.(countToday := newCount,
                                            totalConfessions := row.totalConfessions + 1)];
      return true, newCount, ReportedMax;
    }

    /** `save_confession`: append one row stamped with the clock. */
    method SaveConfession(userId: UserId, text: string, kind: Kind, now: Clock)
      modifies this`confessions
      ensures confessions == old(confessions) + [Confession(userId, text, kind, now.date, now.time)]
      ensures TotalConfessions() == old(TotalConfessions()) + 1
      ensures forall day :: TodayConfessions(day) == old(TodayConfessions(day)) + (if day == now.date then 1 else 0)
    {
      ghost var before := confessions;
      confessions := confessions + [Confession(userId, text, kind, now.date, now.time)];
      forall day ensures CountOn(confessions, day) == CountOn(before, day) + (if day == now.date then 1 else 0) {
        CountOnAppend(before, Confession(userId, text, kind, now.date, now.time), day);
      }
    }

    /** `get_total_confessions`: the number of rows, which no day's count exceeds. */
    function TotalConfessions(): (n: nat)
      reads this
      ensures forall day :: CountOn(confessions, day) <= n
    {
      |confessions|
    }

    /** `get_today_confessions`: the number of rows sent on `today`. */
    function TodayConfessions(today: Date): (n: nat)
      reads this
      ensures n == multiset(Dates(confessions))[today]
    {
      CountOnIsMultiplicity(confessions, today);
      CountOn(confessions, today)
    }

    /** `manejar_confesion`: handle one incoming text or photo message. */
    method HandleConfession(msg: Message, now: Clock) returns (outcome: Outcome)
      requires Valid()
      modifies this
      ensures Valid()
      ensures Step(outcome, userStats, confessions) == Handle(old(userStats), old(confessions), msg, now)
    {
      var username := if msg.username.Some? && msg.username.value != [] then msg.username.value else DefaultUsername;

      if msg.isBot {
        return Ignored;
      }
      if msg.text.Some? && msg.text.value != [] && msg.text.value[0] == '/' {
        return Ignored;
      }
      if msg.text == Some(SendLabel) || msg.text == Some(SupportLabel) {
        if msg.text == Some(SupportLabel) {
          return SupportShown;
        }
        return Ignored;
      }

      var allowed, count, max := CheckDailyLimit(msg.userId, username, DefaultMax, now.date);
      if !allowed {
        return LimitReached(count);
      }

      if msg.text.Some? && msg.text.value != [] {
        var text := msg.text.value;
        var check := ValidateText(text);
        if !check.Valid? {
          return Rejected(Text, check);
        }
        SaveConfession(msg.userId, text, Text, now);
        return Published(Text, count);
      } else if msg.hasPhoto {
        var caption := if msg.caption.Some? then msg.caption.value else "";
        var check := ValidatePhoto(caption);
        if !check.Valid? {
          return Rejected(Photo, check);
        }
        SaveConfession(msg.userId, if caption != [] then caption else PhotoFallback, Photo, now);
        return Published(Photo, count);
      }
      return NoContent;
    }
  }
}
