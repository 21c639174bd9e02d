/**
 * The document store behind the system: email logs, category and urgency corrections, sender
 * rules, one statistics document per day and the stored taxonomy, as maps keyed by document id.
 * The write helpers change the store in place and swallow or rethrow failures as the source does;
 * the store's availability at each write is a parameter (`Availability`).
 */
module DbService {
  import opened Wrappers
  import opened Js
  import opened Text
  import opened Seqs
  import Categories

  /** A calendar day (the UTC date `toISOString().split('T')[0]` names), counted in days. */
  type Day = int
  /** An instant, as the store's timestamps order them. */
  type Time = int

  datatype EmailLog = EmailLog(
    id: string, sender: string, subject: string, category: string, timestamp: Time,
    isUrgent: JsValue, snippet: Option<string>, reasoning: Option<string>)

  datatype EmailCorrection = EmailCorrection(
    id: JsValue, sender: JsValue, subject: JsValue, snippet: JsValue,
    wrongCategory: JsValue, correctCategory: string, timestamp: Time)

  datatype UrgencyCorrection = UrgencyCorrection(
    id: JsValue, sender: JsValue, subject: JsValue, snippet: JsValue,
    wasUrgent: JsValue, shouldBeUrgent: JsValue, timestamp: Time)

  /** A stored rule; its `sender` is whatever the request carried, checked only for truthiness. */
  datatype SenderRule = SenderRule(id: string, sender: JsValue, category: string, createdAt: Time)

  /**
   * The statistics document of one day. `totalProcessed` is absent (`None`) until the first
   * increment; an absent category or sender counter is not a key of its map.
   */
  datatype DailyStats = DailyStats(
    lastUpdated: Time, totalProcessed: Option<nat>, categories: map<string, nat>, senders: map<string, nat>)

  /** Whether the store accepts the first and the second write of a two-write helper. */
  datatype Availability = Up | DownAtFirstWrite | DownAtSecondWrite

  /** `collection.doc(id)` accepts a non-empty string naming a document of that collection. */
  predicate IsDocId(v: JsValue) {
    v.Str? && v.s != "" && '/' !in v.s
  }

  /** A segment `update()` accepts in a dotted field path. */
  predicate IsFieldName(s: string) {
    s != "" && forall c | c in s :: c !in ".~*/[]"
  }

  /** The key a sender is counted under: every '.' replaced by '_'. */
  function SenderKey(sender: string): (k: string)
    ensures |k| == |sender| && '.' !in k
  {
    ReplaceAllRemoves(sender, '.', '_');
    ReplaceAll(sender, '.', '_')
  }

  /** `set({ lastUpdated: now }, { merge: true })` on the day's document. */
  function Touch(stats: map<Day, DailyStats>, day: Day, now: Time): DailyStats {
    if day in stats then stats[day].(lastUpdated := now) else DailyStats(now, None, map[], map[])
  }

  function CountOr0(m: map<string, nat>, k: string): nat {
    if k in m then m[k] else 0
  }

  /** The three `FieldValue.increment(1)` of one processed email; an absent field counts from 0. */
  function Bump(doc: DailyStats, category: string, senderKey: string): (d: DailyStats)
    ensures d.lastUpdated == doc.lastUpdated
    ensures d.totalProcessed == Some(doc.totalProcessed.GetOr(0) + 1)
    ensures d.categories.Keys == doc.categories.Keys + {category}
    ensures d.senders.Keys == doc.senders.Keys + {senderKey}
    ensures d.categories[category] == CountOr0(doc.categories, category) + 1
    ensures d.senders[senderKey] == CountOr0(doc.senders, senderKey) + 1
    ensures forall c :: c in doc.categories && c != category ==> d.categories[c] == doc.categories[c]
    ensures forall s :: s in doc.senders && s != senderKey ==> d.senders[s] == doc.senders[s]
  {
    doc.(totalProcessed := Some(doc.totalProcessed.GetOr(0) + 1),
         categories := doc.categories[category := CountOr0(doc.categories, category) + 1],
         senders := doc.senders[senderKey := CountOr0(doc.senders, senderKey) + 1])
  }

  /**
   * The statistics after one `logEmailProcessing`: an id that names no document or an outage at the
   * first write leaves them; otherwise today's document is created or touched, and, unless the
   * second write fails or the store rejects a field path, its three counters are incremented.
   */
  function StatsAfterLog(stats: map<Day, DailyStats>, data: EmailLog, today: Day, now: Time,
                         availability: Availability): map<Day, DailyStats> {
    if !IsDocId(Str(data.id)) || availability == DownAtFirstWrite then stats
    else if availability == DownAtSecondWrite || !IsFieldName(data.category) || !IsFieldName(SenderKey(data.sender))
    then stats[today := Touch(stats, today, now)]
    else stats[today := Bump(Touch(stats, today, now), data.category, SenderKey(data.sender))]
  }

  /**
   * Logging an email changes no day but today, and counts it at most once: today's total grows by
   * one or not at all, and only together with the category and sender counters.
   */
  lemma LogOnlyTouchesToday(stats: map<Day, DailyStats>, data: EmailLog, today: Day, now: Time,
                            availability: Availability)
    ensures var s' := StatsAfterLog(stats, data, today, now, availability);
            var before := if today in stats then stats[today].totalProcessed else None;
            && s'.Keys <= stats.Keys + {today}
            && (forall d | d in stats && d != today :: s'[d] == stats[d])
            && (today in s' ==> s'[today].totalProcessed == before || s'[today].totalProcessed == Some(before.GetOr(0) + 1))
            && (today in s' && s'[today].totalProcessed == Some(before.GetOr(0) + 1) ==>
                  && s'[today].categories[data.category] == CountOr0(Touch(stats, today, now).categories, data.category) + 1
                  && s'[today].senders[SenderKey(data.sender)]
                     == CountOr0(Touch(stats, today, now).senders, SenderKey(data.sender)) + 1)
  {
  }

  /**
   * With the store up and a valid id, category and sender key, the email is counted: today's
   * total, its category and its sender key (which holds no '.') each grow by exactly one.
   */
  lemma LogCountsOnce(stats: map<Day, DailyStats>, data: EmailLog, today: Day, now: Time)
    requires IsDocId(Str(data.id)) && IsFieldName(data.category) && IsFieldName(SenderKey(data.sender))
    ensures var s' := StatsAfterLog(stats, data, today, now, Up);
            var old' := if today in stats then stats[today] else DailyStats(now, None, map[], map[]);
            && s'.Keys == stats.Keys + {today}
            && s'[today].lastUpdated == now
            && s'[today].totalProcessed == Some(old'.totalProcessed.GetOr(0) + 1)
            && s'[today].categories[data.category] == CountOr0(old'.categories, data.category) + 1
            && s'[today].senders[SenderKey(data.sender)] == CountOr0(old'.senders, SenderKey(data.sender)) + 1
            && '.' !in SenderKey(data.sender)
  {
  }

  /**
   * When the increment fails after the merge created today's document, the day has a document
   * without a total: the history reports it as absent, not as 0.
   */
  lemma FailedIncrementLeavesNoTotal(stats: map<Day, DailyStats>, data: EmailLog, today: Day, now: Time)
    requires IsDocId(Str(data.id)) && today !in stats
    ensures var s' := StatsAfterLog(stats, data, today, now, DownAtSecondWrite);
            && today in s' && s'[today] == DailyStats(now, None, map[], map[])
            && DayEntry(today, Some(s'[today])).TotalProcessed().None?
  {
  }

  /** One day of a statistics history: the day and its document, if it exists. */
  datatype DayEntry = DayEntry(date: Day, doc: Option<DailyStats>) {
    /**
     * The entry's `totalProcessed`: 0 for a day without a document, and absent for a document
     * that was created but never incremented.
     */
    function TotalProcessed(): Option<nat> {
      if doc.Some? then doc.value.totalProcessed else Some(0)
    }
  }

  /** What `getStats` resolves to: `null`, today's document, or a day-by-day history. */
  datatype StatsResult = NoStats | TodayStats(doc: DailyStats) | History(days: seq<DayEntry>)

  /** Every collection of the store but the statistics is as it was. */
  twostate predicate OnlyStatsChanged(s: Firestore)
    reads s
  {
    && s.logs == old(s.logs) && s.corrections == old(s.corrections)
    && s.urgencyCorrections == old(s.urgencyCorrections) && s.rules == old(s.rules)
    && s.storedCategories == old(s.storedCategories)
  }

  /** `collection.doc(id).set(doc)`, the first write of a correction: nothing when it throws. */
  function Recorded<T>(m: map<string, T>, id: JsValue, doc: T, availability: Availability): map<string, T> {
    if IsDocId(id) && availability != DownAtFirstWrite then m[id.s := doc] else m
  }

  /**
   * The second write of a category correction, `update({ category })` on the log with the same id:
   * it happens only after the first succeeded, and `update` of a missing document throws.
   */
  function LogsAfterCorrection(logs: map<string, EmailLog>, data: EmailCorrection, availability: Availability)
    : map<string, EmailLog>
  {
    if IsDocId(data.id) && availability == Up && data.id.s in logs
    then logs[data.id.s := logs[data.id.s].(category := data.correctCategory)]
    else logs
  }

  /** The second write of an urgency correction: `update({ isUrgent: shouldBeUrgent })`. */
  function LogsAfterUrgencyCorrection(logs: map<string, EmailLog>, data: UrgencyCorrection, availability: Availability)
    : map<string, EmailLog>
  {
    if IsDocId(data.id) && availability == Up && data.id.s in logs
    then logs[data.id.s := logs[data.id.s].(isUrgent := data.shouldBeUrgent)]
    else logs
  }

  /**
   * A category correction never creates a log, changes at most the log with the correction's id
   * and there only the category, to the corrected one, and changes it only once the correction
   * itself is stored.
   */
  lemma CorrectionRelabelsOneLog(logs: map<string, EmailLog>, corrections: map<string, EmailCorrection>,
                                 data: EmailCorrection, availability: Availability)
    ensures var logs' := LogsAfterCorrection(logs, data, availability);
            && logs'.Keys == logs.Keys
            && (forall k | k in logs && (!data.id.Str? || k != data.id.s) :: logs'[k] == logs[k])
            && (logs' != logs ==> data.id.Str? && logs'[data.id.s] == logs[data.id.s].(category := data.correctCategory)
                                  && Recorded(corrections, data.id, data, availability)[data.id.s] == data)
  {
  }

  /** The urgency analogue: at most the log with the correction's id changes, and only its flag. */
  lemma UrgencyCorrectionFlagsOneLog(logs: map<string, EmailLog>, corrections: map<string, UrgencyCorrection>,
                                     data: UrgencyCorrection, availability: Availability)
    ensures var logs' := LogsAfterUrgencyCorrection(logs, data, availability);
            && logs'.Keys == logs.Keys
            && (forall k | k in logs && (!data.id.Str? || k != data.id.s) :: logs'[k] == logs[k])
            && (logs' != logs ==> data.id.Str? && logs'[data.id.s] == logs[data.id.s].(isUrgent := data.shouldBeUrgent)
                                  && Recorded(corrections, data.id, data, availability)[data.id.s] == data)
  {
  }

  /**
   * The first write stores the document under its id exactly when the id names a document and the
   * store is up, and leaves every other document alone.
   */
  lemma RecordedUnderId<T>(m: map<string, T>, id: JsValue, doc: T, availability: Availability)
    ensures var m' := Recorded(m, id, doc, availability);
            && (!IsDocId(id) || availability == DownAtFirstWrite ==> m' == m)
            && (IsDocId(id) && availability != DownAtFirstWrite ==> m'.Keys == m.Keys + {id.s} && m'[id.s] == doc)
            && forall k | k in m && (!id.Str? || k != id.s) :: k in m' && m'[k] == m[k]
  {
  }

  class Firestore {
    var logs: map<string, EmailLog>
    var corrections: map<string, EmailCorrection>
    var urgencyCorrections: map<string, UrgencyCorrection>
    var rules: map<string, SenderRule>
    var stats: map<Day, DailyStats>
    /** The `categories` field of the settings document, when the document has a truthy one. */
    var storedCategories: Option<seq<string>>

    constructor ()
      ensures logs == map[] && corrections == map[] && urgencyCorrections == map[]
      ensures rules == map[] && stats == map[] && storedCategories == None
    {
      logs, corrections, urgencyCorrections := map[], map[], map[];
      rules, stats, storedCategories := map[], map[], None;
    }

    function Entry(day: Day): (e: DayEntry)
      reads this
      ensures e.date == day && (e.doc.Some? <==> day in stats)
      ensures day in stats ==> e.doc.value == stats[day]
      ensures e.TotalProcessed() == if day in stats then stats[day].totalProcessed else Some(0)
    {
      DayEntry(day, if day in stats then Some(stats[day]) else None)
    }

    /**
     * Records one processed email. The log document is only staged in a write batch that is never
     * committed, so the logs collection never changes; today's statistics document is created or
     * touched and then its three counters are incremented. Every failure is swallowed: an id that
     * names no document stops everything, a store outage at the first or second write stops
     * there, and so does an increment whose field path the store rejects.
     */
    method LogEmailProcessing(data: EmailLog, today: Day, now: Time, availability: Availability)
      modifies this
      ensures OnlyStatsChanged(this)
      ensures stats == StatsAfterLog(old(stats), data, today, now, availability)
    {
      if !IsDocId(Str(data.id)) {
        return;
      }
      // batch.set(logRef, data) is staged here; the batch is never committed.
      if availability == DownAtFirstWrite {
        return;
      }
      stats := stats[today := Touch(stats, today, now)];
      var key := SenderKey(data.sender);
      if availability == DownAtSecondWrite || !IsFieldName(data.category) || !IsFieldName(key) {
        return;
      }
      stats := stats[today := Bump(stats[today], data.category, key)];
    }

    /**
     * Stores the correction under its id (a repeat overwrites) and sets the category of the log
     * with that id, if there is one. Failures are swallowed.
     */
    method AddCorrection(data: EmailCorrection, availability: Availability)
      modifies this
      ensures urgencyCorrections == old(urgencyCorrections) && rules == old(rules)
      ensures stats == old(stats) && storedCategories == old(storedCategories)
      ensures corrections == Recorded(old(corrections), data.id, data, availability)
      ensures logs == LogsAfterCorrection(old(logs), data, availability)
    {
      if !IsDocId(data.id) || availability == DownAtFirstWrite {
        return;
      }
      var id := data.id.s;
      corrections := corrections[id := data];
      if availability == DownAtSecondWrite || id !in logs {
        return;
      }
      logs := logs[id := logs[id].(category := data.correctCategory)];
    }

    /** The urgency analogue of AddCorrection: it sets only the log's `isUrgent`. */
    method AddUrgencyCorrection(data: UrgencyCorrection, availability: Availability)
      modifies this
      ensures corrections == old(corrections) && rules == old(rules)
      ensures stats == old(stats) && storedCategories == old(storedCategories)
      ensures urgencyCorrections == Recorded(old(urgencyCorrections), data.id, data, availability)
      ensures logs == LogsAfterUrgencyCorrection(old(logs), data, availability)
    {
      if !IsDocId(data.id) || availability == DownAtFirstWrite {
        return;
      }
      var id := data.id.s;
      urgencyCorrections := urgencyCorrections[id := data];
      if availability == DownAtSecondWrite || id !in logs {
        return;
      }
      logs := logs[id := logs[id].(isUrgent := data.shouldBeUrgent)];
    }

    /**
     * Stores a rule under the id the store generates (`newId`) and returns that id; a store
     * failure is rethrown.
     */
    method AddSenderRule(sender: JsValue, category: string, createdAt: Time, newId: string, up: bool)
      returns (r: Result<string, string>)
      modifies this`rules
      ensures up ==> r == Ok(newId) && rules == old(rules)[newId := SenderRule(newId, sender, category, createdAt)]
      ensures !up ==> r.Err? && rules == old(rules)
    {
      if !up {
        return Err("Failed to add rule");
      }
      rules := rules[newId := SenderRule(newId, sender, category, createdAt)];
      r := Ok(newId);
    }

    /** Deletes the rule with that id (deleting a missing document succeeds); failures are rethrown. */
    method DeleteSenderRule(id: string, up: bool) returns (r: Result<(), string>)
      modifies this`rules
      ensures r.Ok? <==> up && IsDocId(Str(id))
      ensures r.Ok? ==> rules == old(rules) - {id}
      ensures r.Err? ==> rules == old(rules)
    {
      if !up || !IsDocId(Str(id)) {
        return Err("Failed to delete rule");
      }
      rules := rules - {id};
      r := Ok(());
    }

    /**
     * `getStats(days)`. For `days == 1`, today's document or `null`. Otherwise one entry per day
     * for the `max(days, 0)` days ending today, oldest first, each with that day's document.
     * Any read failure yields `null`.
     */
    method GetStats(days: int, today: Day, up: bool) returns (r: StatsResult)
      ensures !up ==> r == NoStats
      ensures up && days == 1 ==> r == (if today in stats then TodayStats(stats[today]) else NoStats)
      ensures up && days != 1 ==> r.History? && |r.days| == (if days < 0 then 0 else days)
      ensures up && days != 1 ==> forall k :: 0 <= k < |r.days| ==>
        r.days[k] == Entry(today - (|r.days| - 1 - k))
      ensures up && days > 1 ==> r.days[|r.days| - 1].date == today
    {
      if !up {
        return NoStats;
      }
      if days == 1 {
        return if today in stats then TodayStats(stats[today]) else NoStats;
      }
      var newestFirst: seq<DayEntry> := [];
      var i := 0;
      while i < days
        invariant 0 <= i && (days >= 0 ==> i <= days) && (days < 0 ==> i == 0)
        invariant |newestFirst| == i
        invariant forall k :: 0 <= k < i ==> newestFirst[k] == Entry(today - k)
      {
        newestFirst := newestFirst + [Entry(today - i)];
        i := i + 1;
      }
      r := History(Reversed(newestFirst));
    }

    /** The stored taxonomy when the settings document has one, else a copy of the static list. */
    function GetStoredCategories(up: bool): (r: seq<string>)
      reads this
      ensures up && storedCategories.Some? ==> r == storedCategories.value
      ensures !up || storedCategories.None? ==> r == Categories.EmailCategories
    {
      if up && storedCategories.Some? then storedCategories.value else Categories.EmailCategories
    }

    /** Replaces the stored taxonomy; a failure is rethrown and changes nothing. */
    method SaveStoredCategories(categories: seq<string>, up: bool) returns (r: Result<(), string>)
      modifies this`storedCategories
      ensures up ==> r.Ok? && storedCategories == Some(categories)
      ensures !up ==> r.Err? && storedCategories == old(storedCategories)
    {
      if !up {
        return Err("Error saving categories");
      }
      storedCategories := Some(categories);
      r := Ok(());
    }
  }

  /** The optional filter of `getRecentLogs`. */
  datatype LogFilter = LogFilter(search: Option<string>, category: Option<string>)

  /** The category condition applies only for a non-empty category other than 'All'. */
  predicate FiltersCategory(filter: Option<LogFilter>) {
    filter.Some? && filter.value.category.Some? && filter.value.category.value != ""
    && filter.value.category.value != "All"
  }

  predicate FiltersSearch(filter: Option<LogFilter>) {
    filter.Some? && filter.value.search.Some? && filter.value.search.value != ""
  }

  predicate MatchesSearch(log: EmailLog, search: string) {
    var needle := ToLower(search);
    Includes(ToLower(log.subject), needle) || Includes(ToLower(log.sender), needle)
  }

  /** The page the store query returns: newest first, narrowed by category, at most `limit`. */
  function QueryPage(newestFirst: seq<EmailLog>, limit: nat, filter: Option<LogFilter>): seq<EmailLog> {
    var candidates :=
      if FiltersCategory(filter)
      then Filter(newestFirst, (log: EmailLog) => log.category == filter.value.category.value)
      else newestFirst;
    Take(candidates, limit)
  }

  /**
   * `getRecentLogs(limit, filter)` over the logs collection as the store lists it, newest first.
   * The limit applies before the search, so the result never exceeds it; a read failure yields [].
   */
  function GetRecentLogs(newestFirst: seq<EmailLog>, limit: nat, filter: Option<LogFilter>, up: bool)
    : (r: seq<EmailLog>)
    ensures !up ==> r == []
    ensures |r| <= limit
    ensures forall log :: log in r ==> log in newestFirst
    ensures FiltersCategory(filter) ==> forall log :: log in r ==> log.category == filter.value.category.value
    ensures FiltersSearch(filter) ==> forall log :: log in r ==> MatchesSearch(log, filter.value.search.value)
    ensures up && FiltersSearch(filter) ==> forall log :: log in QueryPage(newestFirst, limit, filter) ==>
      (log in r <==> MatchesSearch(log, filter.value.search.value))
    ensures up && !FiltersSearch(filter) ==> r == QueryPage(newestFirst, limit, filter)
    ensures up ==> Subsequence(r, QueryPage(newestFirst, limit, filter))
    ensures up && FiltersSearch(filter) ==> forall log | MatchesSearch(log, filter.value.search.value) ::
      multiset(r)[log] == multiset(QueryPage(newestFirst, limit, filter))[log]
  {
    if !up then []
    else
      var page := QueryPage(newestFirst, limit, filter);
      if FiltersSearch(filter)
      then
        FilterKeepsOccurrences(page, (log: EmailLog) => MatchesSearch(log, filter.value.search.value));
        Filter(page, (log: EmailLog) => MatchesSearch(log, filter.value.search.value))
      else SubsequenceOfItself(page); page
  }
}
