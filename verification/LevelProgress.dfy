/**
 Trust-level progress: the snapshot the forum plugin serializes and the portal validates
 (level_progress_serializer.rb, internal/identity/level_progress.go).
 */
module LevelProgress {
  import opened Common

  datatype Mode = Automatic | Manual | Locked | NoPromotion | OtherMode(text: string)
  datatype Scope = AccountLifetime | RollingPeriod | AllTime | OtherScope(text: string)
  datatype Operator = AtLeast | AtMost | Equals | OtherOperator(text: string)
  datatype Unit = Count | Days | Minutes | OtherUnit(text: string)

  datatype LevelInfo = LevelInfo(id: int, key: string, title: string)

  datatype Requirement = Requirement(
    key: string, title: string, scope: Scope, periodDays: Option<int>, current: int, target: int,
    operator: Operator, unit: Unit, met: bool)

  datatype Condition = Condition(key: string, title: string, met: bool)

  datatype Snapshot = Snapshot(
    schemaVersion: int, discourseId: int, current: LevelInfo, next: Option<LevelInfo>, mode: Mode,
    requirementsMet: Option<bool>, requirements: seq<Requirement>, blocking: seq<Condition>)

  const SCHEMA_VERSION := 1
  const TOP_LEVEL := 4
  const MAX_REQUIREMENTS := 64

  // ---------------------------------------------------------------- the portal's validator

  predicate ValidInfo(i: LevelInfo) {
    i.id >= 0 && !Blank(i.key) && !Blank(i.title)
  }

  predicate ValidRequirement(r: Requirement) {
    && !Blank(r.key) && !Blank(r.title) && !r.scope.OtherScope? && !r.operator.OtherOperator? && !r.unit.OtherUnit?
    && r.current >= 0 && r.target >= 0 && (r.periodDays.Some? ==> r.periodDays.value >= 0)
  }

  predicate ValidCondition(c: Condition) {
    !Blank(c.key) && !Blank(c.title)
  }

  /** Which promotion modes go with which level. */
  predicate ModeFits(level: int, mode: Mode) {
    if level == TOP_LEVEL then mode.NoPromotion?
    else if level == TOP_LEVEL - 1 then mode.Manual? || mode.Locked?
    else mode.Automatic? || mode.Locked?
  }

  /** A snapshot the portal accepts for a user. */
  predicate Valid(s: Snapshot, id: int) {
    && s.schemaVersion == SCHEMA_VERSION && s.discourseId == id
    && ValidInfo(s.current) && s.current.id <= TOP_LEVEL && ModeFits(s.current.id, s.mode)
    && (s.requirementsMet.Some? <==> s.mode.Automatic?)
    && |s.requirements| <= MAX_REQUIREMENTS
    && (forall i :: 0 <= i < |s.requirements| ==> ValidRequirement(s.requirements[i]))
    && (forall i :: 0 <= i < |s.blocking| ==> ValidCondition(s.blocking[i]))
    && (if s.current.id == TOP_LEVEL then s.next.None?
        else s.next.Some? && s.next.value.id == s.current.id + 1 && ValidInfo(s.next.value))
  }

  method ValidateFor(s: Snapshot, id: int) returns (ok: bool)
    ensures ok <==> Valid(s, id)
  {
    hide Blank;
    if s.schemaVersion != SCHEMA_VERSION || s.discourseId != id || !ValidInfo(s.current) {
      return false;
    }
    if s.current.id < 0 || s.current.id > TOP_LEVEL || s.mode.OtherMode? {
      return false;
    }
    match s.mode {
      case Automatic =>
        if s.requirementsMet.None? {
          return false;
        }
      case _ =>
        if s.requirementsMet.Some? {
          return false;
        }
    }
    if |s.requirements| > MAX_REQUIREMENTS {
      return false;
    }
    for i := 0 to |s.requirements|
      invariant forall k :: 0 <= k < i ==> ValidRequirement(s.requirements[k])
    {
      if !ValidRequirement(s.requirements[i]) {
        return false;
      }
    }
    for i := 0 to |s.blocking|
      invariant forall k :: 0 <= k < i ==> ValidCondition(s.blocking[k])
    {
      if !ValidCondition(s.blocking[i]) {
        return false;
      }
    }
    if s.current.id == TOP_LEVEL {
      return s.next.None? && s.mode.NoPromotion?;
    }
    if s.next.None? || s.next.value.id != s.current.id + 1 {
      return false;
    }
    if s.current.id == 3 {
      if !s.mode.Manual? && !s.mode.Locked? {
        return false;
      }
    } else if !s.mode.Automatic? && !s.mode.Locked? {
      return false;
    }
    ok := ValidInfo(s.next.value);
  }

  predicate Named(key: string, title: string) {
    !Blank(key) && !Blank(title)
  }

  /** The whole of what the portal demands of a snapshot. */
  lemma ValidExactly(s: Snapshot, id: int)
    ensures Valid(s, id) <==>
              && s.schemaVersion == 1 && s.discourseId == id && 0 <= s.current.id <= 4
                 && Named(s.current.key, s.current.title)
              && (s.mode.Automatic? <==> s.requirementsMet != None)
              && (s.current.id <= 2 ==> s.mode in {Automatic, Locked})
              && (s.current.id == 3 ==> s.mode in {Manual, Locked})
              && (s.current.id == 4 ==> s.mode == NoPromotion && s.next == None)
              && (s.current.id <= 3 ==>
                    s.next.Some? && s.next.value.id == s.current.id + 1 && Named(s.next.value.key, s.next.value.title))
              && |s.requirements| <= 64
              && (forall r :: r in s.requirements ==>
                                && Named(r.key, r.title) && r.scope in {AccountLifetime, RollingPeriod, AllTime}
                                && r.operator in {AtLeast, AtMost, Equals} && r.unit in {Count, Days, Minutes}
                                && r.current >= 0 && r.target >= 0 && (r.periodDays.Some? ==> r.periodDays.value >= 0))
              && forall c :: c in s.blocking ==> Named(c.key, c.title)
  {
    hide Blank;
    assert (forall i :: 0 <= i < |s.requirements| ==> ValidRequirement(s.requirements[i]))
      <==> forall r :: r in s.requirements ==> ValidRequirement(r);
    assert (forall i :: 0 <= i < |s.blocking| ==> ValidCondition(s.blocking[i]))
      <==> forall c :: c in s.blocking ==> ValidCondition(c);
  }

  // ---------------------------------------------------------------- the plugin's serializer

  /** The fixed keys of requirements and blocking conditions. */
  datatype Key =
    | TopicsEntered | PostsRead | TimeReadMinutes | AccountAgeMinutes | DaysVisited | LikesReceived | LikesGiven
    | NumTopicsRepliedTo | TopicsViewed | TopicsViewedAllTime | PostsReadAllTime | NumLikesGiven | NumLikesReceived
    | NumLikesReceivedDays | NumLikesReceivedUsers | NumFlaggedPosts | NumFlaggedByUsers
    | NotManuallyLocked | NotSilenced | NotSuspended | NoRecentPenalties

  function KeyText(k: Key): string {
    match k
    case TopicsEntered => "topics_entered"
    case PostsRead => "posts_read"
    case TimeReadMinutes => "time_read_minutes"
    case AccountAgeMinutes => "account_age_minutes"
    case DaysVisited => "days_visited"
    case LikesReceived => "likes_received"
    case LikesGiven => "likes_given"
    case NumTopicsRepliedTo => "num_topics_replied_to"
    case TopicsViewed => "topics_viewed"
    case TopicsViewedAllTime => "topics_viewed_all_time"
    case PostsReadAllTime => "posts_read_all_time"
    case NumLikesGiven => "num_likes_given"
    case NumLikesReceived => "num_likes_received"
    case NumLikesReceivedDays => "num_likes_received_days"
    case NumLikesReceivedUsers => "num_likes_received_users"
    case NumFlaggedPosts => "num_flagged_posts"
    case NumFlaggedByUsers => "num_flagged_by_users"
    case NotManuallyLocked => "not_manually_locked"
    case NotSilenced => "not_silenced"
    case NotSuspended => "not_suspended"
    case NoRecentPenalties => "no_recent_penalties"
  }

  /** Lifetime counters; `timeRead` and `age` are in seconds. */
  datatype Stats = Stats(
    topicsEntered: int, postsRead: int, timeRead: int, age: int, daysVisited: int,
    likesReceived: int, likesGiven: int, topicReplies: int)

  /** The site's thresholds for levels 1 and 2. */
  datatype Thresholds = Thresholds(
    topics1: int, posts1: int, minutes1: int,
    topics2: int, posts2: int, minutes2: int, days2: int, likesReceived2: int, likesGiven2: int, replies2: int)

  /** The figures of the level 3 rule: what the user has, and what the rule asks. */
  datatype Figures = Figures(
    daysVisited: int, repliedTo: int, viewed: int, read: int, viewedAllTime: int, readAllTime: int,
    likesGiven: int, likesReceived: int, likesReceivedDays: int, likesReceivedUsers: int,
    flaggedPosts: int, flaggedByUsers: int)

  datatype Member = Member(
    id: int, trustLevel: int, locked: bool, silenced: bool, suspended: bool, penalties: int,
    stats: Stats, thresholds: Thresholds, period: int, has: Figures, asks: Figures)

  /** The texts the forum supplies: level keys and the translated labels. */
  datatype Texts = Texts(levelKey: int -> string, levelLabel: int -> string, title: Key -> string)

  function Compare(current: int, target: int, operator: Operator): bool {
    match operator
    case AtMost => current <= target
    case Equals => current == target
    case _ => current >= target
  }

  function Required(t: Texts, k: Key, scope: Scope, period: Option<int>, current: int, target: int, op: Operator,
                    unit: Unit): Requirement {
    Requirement(KeyText(k), t.title(k), scope, period, current, target, op, unit, Compare(current, target, op))
  }

  function Lifetime(t: Texts, k: Key, current: int, target: int, unit: Unit): Requirement {
    Required(t, k, AccountLifetime, None, current, target, AtLeast, unit)
  }

  function Rolling(t: Texts, m: Member, k: Key, current: int, target: int, op: Operator, unit: Unit): Requirement {
    Required(t, k, RollingPeriod, Some(m.period), current, target, op, unit)
  }

  function Always(t: Texts, k: Key, current: int, target: int): Requirement {
    Required(t, k, AllTime, None, current, target, AtLeast, Count)
  }

  function Level1(t: Texts, m: Member): seq<Requirement> {
    var s, ask := m.stats, m.thresholds;
    [Lifetime(t, TopicsEntered, s.topicsEntered, ask.topics1, Count),
     Lifetime(t, PostsRead, s.postsRead, ask.posts1, Count),
     Lifetime(t, TimeReadMinutes, s.timeRead / 60, ask.minutes1, Minutes),
     Lifetime(t, AccountAgeMinutes, s.age / 60, ask.minutes1, Minutes)]
  }

  function Level2(t: Texts, m: Member): seq<Requirement> {
    var s, ask := m.stats, m.thresholds;
    [Lifetime(t, TopicsEntered, s.topicsEntered, ask.topics2, Count),
     Lifetime(t, PostsRead, s.postsRead, ask.posts2, Count),
     Lifetime(t, TimeReadMinutes, s.timeRead / 60, ask.minutes2, Minutes),
     Lifetime(t, AccountAgeMinutes, s.age / 60, ask.minutes2, Minutes),
     Lifetime(t, DaysVisited, s.daysVisited, ask.days2, Days),
     Lifetime(t, LikesReceived, s.likesReceived, ask.likesReceived2, Count),
     Lifetime(t, LikesGiven, s.likesGiven, ask.likesGiven2, Count),
     Lifetime(t, NumTopicsRepliedTo, s.topicReplies, ask.replies2, Count)]
  }

  function Level3(t: Texts, m: Member): seq<Requirement> {
    var has, ask := m.has, m.asks;
    [Rolling(t, m, DaysVisited, has.daysVisited, ask.daysVisited, AtLeast, Days),
     Rolling(t, m, NumTopicsRepliedTo, has.repliedTo, ask.repliedTo, AtLeast, Count),
     Rolling(t, m, TopicsViewed, has.viewed, ask.viewed, AtLeast, Count),
     Rolling(t, m, PostsRead, has.read, ask.read, AtLeast, Count),
     Always(t, TopicsViewedAllTime, has.viewedAllTime, ask.viewedAllTime),
     Always(t, PostsReadAllTime, has.readAllTime, ask.readAllTime),
     Rolling(t, m, NumLikesGiven, has.likesGiven, ask.likesGiven, AtLeast, Count),
     Rolling(t, m, NumLikesReceived, has.likesReceived, ask.likesReceived, AtLeast, Count),
     Rolling(t, m, NumLikesReceivedDays, has.likesReceivedDays, ask.likesReceivedDays, AtLeast, Days),
     Rolling(t, m, NumLikesReceivedUsers, has.likesReceivedUsers, ask.likesReceivedUsers, AtLeast, Count),
     Rolling(t, m, NumFlaggedPosts, has.flaggedPosts, ask.flaggedPosts, AtMost, Count),
     Rolling(t, m, NumFlaggedByUsers, has.flaggedByUsers, ask.flaggedByUsers, AtMost, Count)]
  }

  function Blocker(t: Texts, k: Key, met: bool): Condition {
    Condition(KeyText(k), t.title(k), met)
  }

  function NextLevel(m: Member): Option<int> {
    if m.trustLevel >= TOP_LEVEL then None else Some(m.trustLevel + 1)
  }

  function PromotionMode(m: Member): Mode {
    if m.trustLevel >= TOP_LEVEL then NoPromotion
    else if m.locked then Locked
    else if NextLevel(m) == Some(TOP_LEVEL) then Manual
    else Automatic
  }

  function Requirements(t: Texts, m: Member): seq<Requirement> {
    match NextLevel(m)
    case Some(1) => Level1(t, m)
    case Some(2) => Level2(t, m)
    case Some(3) => Level3(t, m)
    case _ => []
  }

  function BlockingConditions(t: Texts, m: Member): seq<Condition> {
    (if m.locked && m.trustLevel < TOP_LEVEL then [Blocker(t, NotManuallyLocked, false)] else [])
    + (if NextLevel(m) == Some(3) then
         [Blocker(t, NotSilenced, !m.silenced), Blocker(t, NotSuspended, !m.suspended),
          Blocker(t, NoRecentPenalties, m.penalties == 0)]
       else [])
  }

  function InfoOf(t: Texts, level: int): LevelInfo {
    LevelInfo(level, t.levelKey(level), t.levelLabel(level))
  }

  function Serialized(t: Texts, m: Member): Snapshot {
    var next, mode, reqs, blocking := NextLevel(m), PromotionMode(m), Requirements(t, m), BlockingConditions(t, m);
    Snapshot(SCHEMA_VERSION, m.id, InfoOf(t, m.trustLevel),
             if next.Some? then Some(InfoOf(t, next.value)) else None, mode,
             if mode.Automatic?
             then Some((forall i :: 0 <= i < |reqs| ==> reqs[i].met)
                       && (forall i :: 0 <= i < |blocking| ==> blocking[i].met))
             else None,
             reqs, blocking)
  }

  // ---------------------------------------------------------------- the snapshot, row by row

  function AtLeastRow(key: string, title: string, scope: Scope, period: Option<int>, has: int, asked: int,
                      unit: Unit): Requirement {
    Requirement(key, title, scope, period, has, asked, AtLeast, unit, has >= asked)
  }

  function AtMostRow(key: string, title: string, scope: Scope, period: Option<int>, has: int, asked: int,
                     unit: Unit): Requirement {
    Requirement(key, title, scope, period, has, asked, AtMost, unit, has <= asked)
  }

  lemma Level1Rows(t: Texts, m: Member)
    ensures var s, a := m.stats, m.thresholds;
            Level1(t, m) == [
              AtLeastRow("topics_entered", t.title(TopicsEntered), AccountLifetime, None, s.topicsEntered, a.topics1,
                         Count),
              AtLeastRow("posts_read", t.title(PostsRead), AccountLifetime, None, s.postsRead, a.posts1, Count),
              AtLeastRow("time_read_minutes", t.title(TimeReadMinutes), AccountLifetime, None, s.timeRead / 60,
                         a.minutes1, Minutes),
              AtLeastRow("account_age_minutes", t.title(AccountAgeMinutes), AccountLifetime, None, s.age / 60,
                         a.minutes1, Minutes)]
  {
  }

  lemma Level2Rows(t: Texts, m: Member)
    ensures var s, a := m.stats, m.thresholds;
            Level2(t, m) == [
              AtLeastRow("topics_entered", t.title(TopicsEntered), AccountLifetime, None, s.topicsEntered, a.topics2,
                         Count),
              AtLeastRow("posts_read", t.title(PostsRead), AccountLifetime, None, s.postsRead, a.posts2, Count),
              AtLeastRow("time_read_minutes", t.title(TimeReadMinutes), AccountLifetime, None, s.timeRead / 60,
                         a.minutes2, Minutes),
              AtLeastRow("account_age_minutes", t.title(AccountAgeMinutes), AccountLifetime, None, s.age / 60,
                         a.minutes2, Minutes),
              AtLeastRow("days_visited", t.title(DaysVisited), AccountLifetime, None, s.daysVisited, a.days2, Days),
              AtLeastRow("likes_received", t.title(LikesReceived), AccountLifetime, None, s.likesReceived,
                         a.likesReceived2, Count),
              AtLeastRow("likes_given", t.title(LikesGiven), AccountLifetime, None, s.likesGiven, a.likesGiven2, Count),
              AtLeastRow("num_topics_replied_to", t.title(NumTopicsRepliedTo), AccountLifetime, None, s.topicReplies,
                         a.replies2, Count)]
  {
  }

  lemma Level3Keyed(t: Texts, m: Member)
    ensures var h, a, p := m.has, m.asks, Some(m.period);
            Level3(t, m) == [
              AtLeastRow(KeyText(DaysVisited), t.title(DaysVisited), RollingPeriod, p, h.daysVisited, a.daysVisited,
                         Days),
              AtLeastRow(KeyText(NumTopicsRepliedTo), t.title(NumTopicsRepliedTo), RollingPeriod, p, h.repliedTo,
                         a.repliedTo, Count),
              AtLeastRow(KeyText(TopicsViewed), t.title(TopicsViewed), RollingPeriod, p, h.viewed, a.viewed, Count),
              AtLeastRow(KeyText(PostsRead), t.title(PostsRead), RollingPeriod, p, h.read, a.read, Count),
              AtLeastRow(KeyText(TopicsViewedAllTime), t.title(TopicsViewedAllTime), AllTime, None, h.viewedAllTime,
                         a.viewedAllTime, Count),
              AtLeastRow(KeyText(PostsReadAllTime), t.title(PostsReadAllTime), AllTime, None, h.readAllTime,
                         a.readAllTime, Count),
              AtLeastRow(KeyText(NumLikesGiven), t.title(NumLikesGiven), RollingPeriod, p, h.likesGiven, a.likesGiven,
                         Count),
              AtLeastRow(KeyText(NumLikesReceived), t.title(NumLikesReceived), RollingPeriod, p, h.likesReceived,
                         a.likesReceived, Count),
              AtLeastRow(KeyText(NumLikesReceivedDays), t.title(NumLikesReceivedDays), RollingPeriod, p,
                         h.likesReceivedDays, a.likesReceivedDays, Days),
              AtLeastRow(KeyText(NumLikesReceivedUsers), t.title(NumLikesReceivedUsers), RollingPeriod, p,
                         h.likesReceivedUsers, a.likesReceivedUsers, Count),
              AtMostRow(KeyText(NumFlaggedPosts), t.title(NumFlaggedPosts), RollingPeriod, p, h.flaggedPosts,
                        a.flaggedPosts, Count),
              AtMostRow(KeyText(NumFlaggedByUsers), t.title(NumFlaggedByUsers), RollingPeriod, p, h.flaggedByUsers,
                        a.flaggedByUsers, Count)]
  {
    hide KeyText;
  }

  lemma Level3Keys()
    ensures KeyText(DaysVisited) == "days_visited"
    ensures KeyText(NumTopicsRepliedTo) == "num_topics_replied_to"
    ensures KeyText(TopicsViewed) == "topics_viewed"
    ensures KeyText(PostsRead) == "posts_read"
    ensures KeyText(TopicsViewedAllTime) == "topics_viewed_all_time"
    ensures KeyText(PostsReadAllTime) == "posts_read_all_time"
    ensures KeyText(NumLikesGiven) == "num_likes_given"
    ensures KeyText(NumLikesReceived) == "num_likes_received"
    ensures KeyText(NumLikesReceivedDays) == "num_likes_received_days"
    ensures KeyText(NumLikesReceivedUsers) == "num_likes_received_users"
    ensures KeyText(NumFlaggedPosts) == "num_flagged_posts"
    ensures KeyText(NumFlaggedByUsers) == "num_flagged_by_users"
  {
  }

  lemma Level3Rows(t: Texts, m: Member)
    ensures var h, a, p := m.has, m.asks, Some(m.period);
            Level3(t, m) == [
              AtLeastRow("days_visited", t.title(DaysVisited), RollingPeriod, p, h.daysVisited, a.daysVisited, Days),
              AtLeastRow("num_topics_replied_to", t.title(NumTopicsRepliedTo), RollingPeriod, p, h.repliedTo,
                         a.repliedTo, Count),
              AtLeastRow("topics_viewed", t.title(TopicsViewed), RollingPeriod, p, h.viewed, a.viewed, Count),
              AtLeastRow("posts_read", t.title(PostsRead), RollingPeriod, p, h.read, a.read, Count),
              AtLeastRow("topics_viewed_all_time", t.title(TopicsViewedAllTime), AllTime, None, h.viewedAllTime,
                         a.viewedAllTime, Count),
              AtLeastRow("posts_read_all_time", t.title(PostsReadAllTime), AllTime, None, h.readAllTime, a.readAllTime,
                         Count),
              AtLeastRow("num_likes_given", t.title(NumLikesGiven), RollingPeriod, p, h.likesGiven, a.likesGiven,
                         Count),
              AtLeastRow("num_likes_received", t.title(NumLikesReceived), RollingPeriod, p, h.likesReceived,
                         a.likesReceived, Count),
              AtLeastRow("num_likes_received_days", t.title(NumLikesReceivedDays), RollingPeriod, p,
                         h.likesReceivedDays, a.likesReceivedDays, Days),
              AtLeastRow("num_likes_received_users", t.title(NumLikesReceivedUsers), RollingPeriod, p,
                         h.likesReceivedUsers, a.likesReceivedUsers, Count),
              AtMostRow("num_flagged_posts", t.title(NumFlaggedPosts), RollingPeriod, p, h.flaggedPosts,
                        a.flaggedPosts, Count),
              AtMostRow("num_flagged_by_users", t.title(NumFlaggedByUsers), RollingPeriod, p, h.flaggedByUsers,
                        a.flaggedByUsers, Count)]
  {
    Level3Keyed(t, m);
    Level3Keys();
    hide KeyText, AtLeastRow, AtMostRow, Level3;
  }

  /** Which rows, conditions, levels and mode the snapshot of a member shows. */
  lemma SerializedExactly(t: Texts, m: Member)
    requires 0 <= m.trustLevel <= 4
    ensures var s, level := Serialized(t, m), m.trustLevel;
            && s.schemaVersion == 1 && s.discourseId == m.id
            && s.current == LevelInfo(level, t.levelKey(level), t.levelLabel(level))
            && s.next == (if level == 4 then None else Some(LevelInfo(level + 1, t.levelKey(level + 1),
                                                                      t.levelLabel(level + 1))))
            && s.mode == (if level == 4 then NoPromotion else if m.locked then Locked else if level == 3 then Manual
                          else Automatic)
            && s.requirements == (if level == 0 then Level1(t, m) else if level == 1 then Level2(t, m)
                                  else if level == 2 then Level3(t, m) else [])
            && s.blocking ==
               (if m.locked && level < 4 then [Condition("not_manually_locked", t.title(NotManuallyLocked), false)]
                else [])
               + (if level == 2 then
                    [Condition("not_silenced", t.title(NotSilenced), !m.silenced),
                     Condition("not_suspended", t.title(NotSuspended), !m.suspended),
                     Condition("no_recent_penalties", t.title(NoRecentPenalties), m.penalties == 0)]
                  else [])
  {
    hide Level1, Level2, Level3;
  }

  // ---------------------------------------------------------------- the two sides agree

  lemma NotBlank(s: string)
    requires s != "" && !IsSpace(s[0])
    ensures !Blank(s)
  {
    assert TrimLeft(s) == s;
    KeepsFirst(s);
  }

  lemma {:induction false} KeepsFirst(s: string)
    requires s != "" && !IsSpace(s[0])
    ensures TrimRight(s) != ""
  {
    if IsSpace(s[|s| - 1]) {
      KeepsFirst(s[..|s| - 1]);
    }
  }

  lemma KeyNotBlank(k: Key)
    ensures !Blank(KeyText(k))
  {
    assert KeyText(k) != "" && 'a' <= KeyText(k)[0] <= 'z';
    hide KeyText, Blank;
    NotBlank(KeyText(k));
  }

  /** No text the forum supplies is blank. */
  ghost predicate Labelled(t: Texts) {
    && (forall k :: !Blank(t.title(k)))
    && forall level :: 0 <= level <= TOP_LEVEL ==> !Blank(t.levelKey(level)) && !Blank(t.levelLabel(level))
  }

  /** Every figure a snapshot for this member shows is non-negative. */
  predicate Countable(m: Member) {
    var s, a, h, r := m.stats, m.thresholds, m.has, m.asks;
    match m.trustLevel
    case 0 =>
      && s.topicsEntered >= 0 && s.postsRead >= 0 && s.timeRead >= 0 && s.age >= 0
      && a.topics1 >= 0 && a.posts1 >= 0 && a.minutes1 >= 0
    case 1 =>
      && s.topicsEntered >= 0 && s.postsRead >= 0 && s.timeRead >= 0 && s.age >= 0 && s.daysVisited >= 0
      && s.likesReceived >= 0 && s.likesGiven >= 0 && s.topicReplies >= 0
      && a.topics2 >= 0 && a.posts2 >= 0 && a.minutes2 >= 0 && a.days2 >= 0
      && a.likesReceived2 >= 0 && a.likesGiven2 >= 0 && a.replies2 >= 0
    case 2 => NonNegative(h) && NonNegative(r) && m.period >= 0
    case _ => true
  }

  predicate NonNegative(f: Figures) {
    && f.daysVisited >= 0 && f.repliedTo >= 0 && f.viewed >= 0 && f.read >= 0
    && f.viewedAllTime >= 0 && f.readAllTime >= 0
    && f.likesGiven >= 0 && f.likesReceived >= 0 && f.likesReceivedDays >= 0 && f.likesReceivedUsers >= 0
    && f.flaggedPosts >= 0 && f.flaggedByUsers >= 0
  }

  predicate Sound(r: Requirement) {
    r.current >= 0 && r.target >= 0 && (r.periodDays.Some? ==> r.periodDays.value >= 0)
  }

  /** Requirements built by the serializer fail validation only over their figures. */
  lemma RequiredValid(t: Texts, k: Key, scope: Scope, period: Option<int>, current: int, target: int, op: Operator,
                      unit: Unit)
    requires Labelled(t) && !scope.OtherScope? && !op.OtherOperator? && !unit.OtherUnit?
    ensures var r := Required(t, k, scope, period, current, target, op, unit);
            ValidRequirement(r) <==> Sound(r)
  {
    hide Blank, KeyText;
    KeyNotBlank(k);
  }

  ghost predicate AllValid(reqs: seq<Requirement>) {
    forall i :: 0 <= i < |reqs| ==> ValidRequirement(reqs[i])
  }

  lemma Level1Valid(t: Texts, m: Member)
    requires Labelled(t) && m.trustLevel == 0
    ensures AllValid(Level1(t, m)) <==> Countable(m)
  {
    hide Blank, KeyText, Labelled;
    forall k: Key, current: int, target: int, unit: Unit | !unit.OtherUnit?
      ensures ValidRequirement(Lifetime(t, k, current, target, unit)) <==> current >= 0 && target >= 0
    {
      RequiredValid(t, k, AccountLifetime, None, current, target, AtLeast, unit);
    }
    hide ValidRequirement, Lifetime;
    var r := Level1(t, m);
    assert AllValid(r) <==>
             ValidRequirement(r[0]) && ValidRequirement(r[1]) && ValidRequirement(r[2]) && ValidRequirement(r[3]);
  }

  lemma Level2Valid(t: Texts, m: Member)
    requires Labelled(t) && m.trustLevel == 1
    ensures AllValid(Level2(t, m)) <==> Countable(m)
  {
    hide Blank, KeyText, Labelled;
    forall k: Key, current: int, target: int, unit: Unit | !unit.OtherUnit?
      ensures ValidRequirement(Lifetime(t, k, current, target, unit)) <==> current >= 0 && target >= 0
    {
      RequiredValid(t, k, AccountLifetime, None, current, target, AtLeast, unit);
    }
    hide ValidRequirement, Lifetime;
    var r := Level2(t, m);
    assert AllValid(r) <==>
             && ValidRequirement(r[0]) && ValidRequirement(r[1]) && ValidRequirement(r[2]) && ValidRequirement(r[3])
             && ValidRequirement(r[4]) && ValidRequirement(r[5]) && ValidRequirement(r[6]) && ValidRequirement(r[7]);
  }

  lemma Level3Valid(t: Texts, m: Member)
    requires Labelled(t) && m.trustLevel == 2
    ensures AllValid(Level3(t, m)) <==> Countable(m)
  {
    hide Blank, KeyText, Labelled;
    forall k: Key, current: int, target: int, op: Operator, unit: Unit | !unit.OtherUnit? && !op.OtherOperator?
      ensures ValidRequirement(Rolling(t, m, k, current, target, op, unit))
              <==> current >= 0 && target >= 0 && m.period >= 0
    {
      RequiredValid(t, k, RollingPeriod, Some(m.period), current, target, op, unit);
    }
    forall k: Key, current: int, target: int
      ensures ValidRequirement(Always(t, k, current, target)) <==> current >= 0 && target >= 0
    {
      RequiredValid(t, k, AllTime, None, current, target, AtLeast, Count);
    }
    hide ValidRequirement, Rolling, Always;
    var r := Level3(t, m);
    assert AllValid(r) <==>
             && ValidRequirement(r[0]) && ValidRequirement(r[1]) && ValidRequirement(r[2]) && ValidRequirement(r[3])
             && ValidRequirement(r[4]) && ValidRequirement(r[5]) && ValidRequirement(r[6]) && ValidRequirement(r[7])
             && ValidRequirement(r[8]) && ValidRequirement(r[9]) && ValidRequirement(r[10]) && ValidRequirement(r[11]);
  }

  lemma BlockersValid(t: Texts, m: Member)
    requires Labelled(t)
    ensures forall i :: 0 <= i < |BlockingConditions(t, m)| ==> ValidCondition(BlockingConditions(t, m)[i])
  {
    hide Blank, KeyText;
    KeyNotBlank(NotManuallyLocked);
    KeyNotBlank(NotSilenced);
    KeyNotBlank(NotSuspended);
    KeyNotBlank(NoRecentPenalties);
  }

  /**
   The portal accepts what the plugin serializes exactly for levels 0 to 4 with non-negative figures, locked or not.
   */
  lemma SerializedAccepted(t: Texts, m: Member)
    requires Labelled(t)
    ensures Valid(Serialized(t, m), m.id) <==> 0 <= m.trustLevel <= TOP_LEVEL && Countable(m)
  {
    hide Blank, KeyText;
    BlockersValid(t, m);
    hide BlockingConditions, Level1, Level2, Level3, ValidRequirement, ValidCondition;
    if m.trustLevel == 0 {
      Level1Valid(t, m);
    } else if m.trustLevel == 1 {
      Level2Valid(t, m);
    } else if m.trustLevel == 2 {
      Level3Valid(t, m);
    }
    SizeOf(t, m);
    assert AllValid(Requirements(t, m)) <==> Countable(m);
  }

  lemma SizeOf(t: Texts, m: Member)
    ensures |Level1(t, m)| == 4 && |Level2(t, m)| == 8 && |Level3(t, m)| == 12
  {
    hide Lifetime, Rolling, Always;
  }

  // ---------------------------------------------------------------- what requirements_met means

  /** The forum's promotion rule for the next level, over the member's raw figures. */
  predicate Qualifies(m: Member) {
    var s, a, h, r := m.stats, m.thresholds, m.has, m.asks;
    match m.trustLevel
    case 0 =>
      && s.topicsEntered >= a.topics1 && s.postsRead >= a.posts1
      && s.timeRead >= 60 * a.minutes1 && s.age >= 60 * a.minutes1
    case 1 =>
      && s.topicsEntered >= a.topics2 && s.postsRead >= a.posts2
      && s.timeRead >= 60 * a.minutes2 && s.age >= 60 * a.minutes2
      && s.daysVisited >= a.days2 && s.topicReplies >= a.replies2
      && s.likesReceived >= a.likesReceived2 && s.likesGiven >= a.likesGiven2
    case _ =>
      && h.daysVisited >= r.daysVisited && h.repliedTo >= r.repliedTo && h.viewed >= r.viewed && h.read >= r.read
      && h.viewedAllTime >= r.viewedAllTime && h.readAllTime >= r.readAllTime
      && h.likesGiven >= r.likesGiven && h.likesReceived >= r.likesReceived
      && h.likesReceivedDays >= r.likesReceivedDays && h.likesReceivedUsers >= r.likesReceivedUsers
      && h.flaggedPosts <= r.flaggedPosts && h.flaggedByUsers <= r.flaggedByUsers
      && !m.silenced && !m.suspended && m.penalties == 0
  }

  ghost predicate AllMet(reqs: seq<Requirement>) {
    forall i :: 0 <= i < |reqs| ==> reqs[i].met
  }

  lemma Level1Met(t: Texts, m: Member)
    requires m.trustLevel == 0
    ensures AllMet(Level1(t, m)) <==> Qualifies(m)
  {
    hide KeyText;
    var r := Level1(t, m);
    assert AllMet(r) <==> r[0].met && r[1].met && r[2].met && r[3].met;
  }

  lemma Level2Met(t: Texts, m: Member)
    requires m.trustLevel == 1
    ensures AllMet(Level2(t, m)) <==> Qualifies(m)
  {
    hide KeyText;
    var r := Level2(t, m);
    assert AllMet(r) <==> r[0].met && r[1].met && r[2].met && r[3].met && r[4].met && r[5].met && r[6].met && r[7].met;
  }

  lemma Level3Met(t: Texts, m: Member)
    requires m.trustLevel == 2
    ensures AllMet(Level3(t, m)) && !m.silenced && !m.suspended && m.penalties == 0 <==> Qualifies(m)
  {
    hide KeyText;
    var r := Level3(t, m);
    assert AllMet(r) <==>
             && r[0].met && r[1].met && r[2].met && r[3].met && r[4].met && r[5].met
             && r[6].met && r[7].met && r[8].met && r[9].met && r[10].met && r[11].met;
  }

  lemma BlockersMet(t: Texts, m: Member)
    requires 0 <= m.trustLevel < TOP_LEVEL && !m.locked
    ensures (forall i :: 0 <= i < |BlockingConditions(t, m)| ==> BlockingConditions(t, m)[i].met)
            <==> (m.trustLevel == 2 ==> !m.silenced && !m.suspended && m.penalties == 0)
  {
    hide KeyText;
    var b := BlockingConditions(t, m);
    if m.trustLevel == 2 {
      assert b[0].met == !m.silenced && b[1].met == !m.suspended && b[2].met == (m.penalties == 0) && |b| == 3;
    }
  }

  /** requirements_met is present exactly in automatic mode, and is then the promotion rule itself. */
  lemma MetMeansQualified(t: Texts, m: Member)
    requires 0 <= m.trustLevel <= TOP_LEVEL
    ensures Serialized(t, m).requirementsMet == if m.trustLevel <= 2 && !m.locked then Some(Qualifies(m)) else None
  {
    if m.trustLevel <= 2 && !m.locked {
      BlockersMet(t, m);
      hide BlockingConditions, Level1, Level2, Level3;
      if m.trustLevel == 0 {
        Level1Met(t, m);
      } else if m.trustLevel == 1 {
        Level2Met(t, m);
      } else {
        Level3Met(t, m);
      }
      hide Qualifies;
      assert AllMet(Requirements(t, m)) <==> forall i :: 0 <= i < |Requirements(t, m)| ==> Requirements(t, m)[i].met;
    }
  }
}
