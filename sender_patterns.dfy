/**
 * The rule-suggestion miner of the store (`findSenderPatterns`): over the newest logs it counts,
 * per lower-cased sender, how often each category occurs, picks the dominant category with a
 * strict `>` (so the first category in insertion order wins a tie), and suggests a rule when the
 * sender occurs often enough and the dominant share reaches the threshold, unless a stored rule
 * already names that sender.
 */
module SenderPatterns {
  import opened Wrappers
  import opened Js
  import opened Text
  import opened Records
  import opened Seqs
  import opened DbService

  /** The miner reads at most this many logs, newest first. */
  const WindowSize: nat := 500

  datatype Suggestion = Suggestion(sender: string, category: string, confidence: real, count: nat)

  function SenderOf(log: EmailLog): string {
    ToLower(log.sender)
  }

  /** How many logs have lower-cased sender `s`. */
  function CountSender(logs: seq<EmailLog>, s: string): nat {
    if logs == [] then 0
    else CountSender(logs[..|logs| - 1], s) + (if SenderOf(logs[|logs| - 1]) == s then 1 else 0)
  }

  /** How many logs have lower-cased sender `s` and category `c`. */
  function CountPair(logs: seq<EmailLog>, s: string, c: string): nat {
    if logs == [] then 0
    else CountPair(logs[..|logs| - 1], s, c)
         + (if SenderOf(logs[|logs| - 1]) == s && logs[|logs| - 1].category == c then 1 else 0)
  }

  lemma {:induction false} CountPairBound(logs: seq<EmailLog>, s: string, c: string)
    ensures CountPair(logs, s, c) <= CountSender(logs, s)
  {
    if logs != [] {
      CountPairBound(logs[..|logs| - 1], s, c);
    }
  }

  lemma {:induction false} CountSenderWitness(logs: seq<EmailLog>, s: string)
    requires CountSender(logs, s) > 0
    ensures exists i | 0 <= i < |logs| :: SenderOf(logs[i]) == s
  {
    var n := |logs|;
    if SenderOf(logs[n - 1]) != s {
      CountSenderWitness(logs[..n - 1], s);
      var i :| 0 <= i < n - 1 && SenderOf(logs[..n - 1][i]) == s;
      assert SenderOf(logs[i]) == s;
    }
  }

  /** The position of the first log with lower-cased sender `s` and category `c`, or `|logs|`. */
  function FirstAt(logs: seq<EmailLog>, s: string, c: string): nat {
    if logs == [] then 0
    else
      var n := |logs|;
      var f := FirstAt(logs[..n - 1], s, c);
      if f < n - 1 then f
      else if SenderOf(logs[n - 1]) == s && logs[n - 1].category == c then n - 1
      else n
  }

  lemma {:induction false} FirstAtCount(logs: seq<EmailLog>, s: string, c: string)
    ensures FirstAt(logs, s, c) <= |logs|
    ensures FirstAt(logs, s, c) < |logs| <==> CountPair(logs, s, c) > 0
  {
    if logs != [] {
      FirstAtCount(logs[..|logs| - 1], s, c);
    }
  }

  lemma FirstAtSnoc(p: seq<EmailLog>, log: EmailLog, s: string, c: string)
    ensures FirstAt(p + [log], s, c)
            == if FirstAt(p, s, c) < |p| then FirstAt(p, s, c)
               else if SenderOf(log) == s && log.category == c then |p|
               else |p| + 1
  {
    assert (p + [log])[..|p|] == p;
    FirstAtCount(p, s, c);
  }

  /** `senderStats`: per sender, in insertion order, the count of each category. */
  type Tally = Record<Record<nat>>

  /** One step of the first `forEach`. */
  function AddLog(t: Tally, log: EmailLog): Tally {
    var s := SenderOf(log);
    Put(t, s, Increment(Get(t, s).GetOr([]), log.category))
  }

  function TallyOf(logs: seq<EmailLog>): Tally {
    if logs == [] then [] else AddLog(TallyOf(logs[..|logs| - 1]), logs[|logs| - 1])
  }

  /** The category counts of sender `s` are those of the logs. */
  ghost predicate InnerMatches(inner: Record<nat>, logs: seq<EmailLog>, s: string) {
    && UniqueKeys(inner) && Positive(inner)
    && Sum(inner) == CountSender(logs, s)
    && (forall c :: Get(inner, c).GetOr(0) == CountPair(logs, s, c))
    && InnerOrdered(inner, logs, s)
  }

  /** The categories of sender `s` are in the order of their first log. */
  ghost predicate InnerOrdered(inner: Record<nat>, logs: seq<EmailLog>, s: string) {
    forall a, b | 0 <= a < b < |inner| :: FirstAt(logs, s, inner[a].0) < FirstAt(logs, s, inner[b].0)
  }

  /** A category already counted for `s` keeps its first position when a log is appended. */
  lemma KeysKeepFirst(inner: Record<nat>, p: seq<EmailLog>, log: EmailLog, s: string)
    requires InnerMatches(inner, p, s)
    ensures forall a | 0 <= a < |inner| :: FirstAt(p + [log], s, inner[a].0) == FirstAt(p, s, inner[a].0) < |p|
  {
    forall a | 0 <= a < |inner| ensures FirstAt(p + [log], s, inner[a].0) == FirstAt(p, s, inner[a].0) < |p| {
      GetAt(inner, a);
      FirstAtCount(p, s, inner[a].0);
      FirstAtSnoc(p, log, s, inner[a].0);
    }
  }

  /** The tally holds exactly the senders of the logs, each with its category counts. */
  ghost predicate TallyMatches(t: Tally, logs: seq<EmailLog>) {
    && UniqueKeys(t)
    && (forall s :: Get(t, s).Some? <==> CountSender(logs, s) > 0)
    && (forall s :: Get(t, s).Some? ==> InnerMatches(Get(t, s).value, logs, s))
  }

  lemma CountsSnoc(p: seq<EmailLog>, log: EmailLog, s: string, c: string)
    ensures CountSender(p + [log], s) == CountSender(p, s) + (if SenderOf(log) == s then 1 else 0)
    ensures CountPair(p + [log], s, c) == CountPair(p, s, c) + (if SenderOf(log) == s && log.category == c then 1 else 0)
  {
    assert (p + [log])[..|p|] == p;
  }

  /** The sender of the new log: its counts grow by one in the log's category. */
  lemma {:induction false} IncrementMatches(inner: Record<nat>, p: seq<EmailLog>, log: EmailLog)
    requires InnerMatches(inner, p, SenderOf(log))
    ensures InnerMatches(Increment(inner, log.category), p + [log], SenderOf(log))
  {
    var s, c := SenderOf(log), log.category;
    var inner' := Increment(inner, c);
    SumIncrement(inner, c);
    CountsSnoc(p, log, s, c);
    forall c' ensures Get(inner', c').GetOr(0) == CountPair(p + [log], s, c') {
      CountsSnoc(p, log, s, c');
    }
    KeysKeepFirst(inner, p, log, s);
    if !HasKey(inner, c) {
      assert Get(inner, c).None?;
      FirstAtCount(p, s, c);
      FirstAtSnoc(p, log, s, c);
      assert inner'[|inner|].0 == c;
    }
  }

  /** A sender the tally has not seen yet starts from an empty record. */
  lemma {:induction false} EmptyMatches(p: seq<EmailLog>, s: string)
    requires CountSender(p, s) == 0
    ensures InnerMatches([], p, s)
  {
    forall c ensures Get([], c).GetOr(0) == CountPair(p, s, c) {
      CountPairBound(p, s, c);
    }
  }

  /** Any other sender keeps its counts. */
  lemma {:induction false} OtherMatches(inner: Record<nat>, p: seq<EmailLog>, log: EmailLog, s: string)
    requires s != SenderOf(log) && InnerMatches(inner, p, s)
    ensures InnerMatches(inner, p + [log], s)
  {
    forall c ensures Get(inner, c).GetOr(0) == CountPair(p + [log], s, c) {
      CountsSnoc(p, log, s, c);
    }
    CountsSnoc(p, log, s, "");
    KeysKeepFirst(inner, p, log, s);
  }

  /** The entries of the senders other than the new log's are unchanged and still match. */
  lemma {:induction false} AddLogOthers(t: Tally, p: seq<EmailLog>, log: EmailLog, s': string)
    requires TallyMatches(t, p) && s' != SenderOf(log)
    ensures Get(AddLog(t, log), s') == Get(t, s')
    ensures Get(t, s').Some? <==> CountSender(p + [log], s') > 0
    ensures Get(t, s').Some? ==> InnerMatches(Get(t, s').value, p + [log], s')
  {
    CountsSnoc(p, log, s', "");
    if Get(t, s').Some? {
      OtherMatches(Get(t, s').value, p, log, s');
    }
  }

  lemma {:induction false} AddLogMatches(t: Tally, p: seq<EmailLog>, log: EmailLog)
    requires TallyMatches(t, p)
    ensures TallyMatches(AddLog(t, log), p + [log])
  {
    var s := SenderOf(log);
    var inner := Get(t, s).GetOr([]);
    if Get(t, s).None? {
      EmptyMatches(p, s);
    }
    IncrementMatches(inner, p, log);
    var t' := AddLog(t, log);
    assert Get(t', s) == Some(Increment(inner, log.category));
    CountsSnoc(p, log, s, "");
    forall s' | s' != s
      ensures Get(t', s').Some? <==> CountSender(p + [log], s') > 0
      ensures Get(t', s').Some? ==> InnerMatches(Get(t', s').value, p + [log], s')
    {
      AddLogOthers(t, p, log, s');
    }
  }

  lemma {:induction false} TallyOfMatches(logs: seq<EmailLog>)
    ensures TallyMatches(TallyOf(logs), logs)
  {
    if logs != [] {
      var n := |logs|;
      var p, log := logs[..n - 1], logs[n - 1];
      assert logs == p + [log];
      assert TallyOf(logs) == AddLog(TallyOf(p), log);
      TallyOfMatches(p);
      AddLogMatches(TallyOf(p), p, log);
    }
  }

  /**
   * The dominant category of one sender, scanning in insertion order and replacing the current
   * choice only on a strictly greater count: the first category that reaches the maximum.
   */
  function Dominant(inner: Record<nat>): (d: (string, nat))
    ensures forall j :: 0 <= j < |inner| ==> inner[j].1 <= d.1
    ensures d.1 == 0 ==> d == ("", 0)
    ensures d.1 > 0 ==> exists j | 0 <= j < |inner| :: inner[j] == d && forall k | 0 <= k < j :: inner[k].1 < d.1
  {
    if inner == [] then ("", 0)
    else
      var d := Dominant(inner[..|inner| - 1]);
      var e := inner[|inner| - 1];
      if e.1 > d.1 then e else d
  }

  /** What one entry of the second `forEach` contributes: no suggestion or one. */
  function SuggestionFor(entry: (string, Record<nat>), minOccurrences: int, threshold: real): seq<Suggestion> {
    var total := Sum(entry.1);
    if total < minOccurrences || total == 0 then []   // 0 / 0 is NaN, and NaN >= threshold is false
    else
      var d := Dominant(entry.1);
      var confidence := d.1 as real / total as real;
      if confidence >= threshold then [Suggestion(entry.0, d.0, confidence, total)] else []
  }

  function SuggestAll(t: Tally, minOccurrences: int, threshold: real): seq<Suggestion> {
    if t == [] then []
    else SuggestAll(t[..|t| - 1], minOccurrences, threshold) + SuggestionFor(t[|t| - 1], minOccurrences, threshold)
  }

  /**
   * `existingRules.map(r => r.sender.toLowerCase())`: `None` when some rule's sender is not a
   * string, where `toLowerCase` throws.
   */
  function ExistingSenders(rules: seq<SenderRule>): (r: Option<set<string>>)
    ensures r.None? <==> exists rule | rule in rules :: !rule.sender.Str?
    ensures r.Some? ==> r.value == set rule | rule in rules :: ToLower(rule.sender.s)
  {
    if exists rule | rule in rules :: !rule.sender.Str? then None
    else Some(set rule | rule in rules :: ToLower(rule.sender.s))
  }

  /** The logs the miner reads: the newest `WindowSize` of them. */
  function Window(newestFirst: seq<EmailLog>): (w: seq<EmailLog>)
    ensures |w| == Min(WindowSize, |newestFirst|) && w == newestFirst[..|w|]
  {
    Take(newestFirst, WindowSize)
  }

  /**
   * The whole of `findSenderPatterns`. A failed log read yields []; a failed rule listing reads
   * as no rules (the lister swallows it); a rule whose sender is not a string throws inside the
   * try, which also yields [].
   */
  function Suggestions(newestFirst: seq<EmailLog>, logsUp: bool, listedRules: Result<seq<SenderRule>, string>,
                       minOccurrences: int, threshold: real): (r: seq<Suggestion>)
    ensures !logsUp ==> r == []
    ensures listedRules.Ok? && (exists rule | rule in listedRules.value :: !rule.sender.Str?) ==> r == []
  {
    if !logsUp then []
    else
      var all := SuggestAll(TallyOf(Window(newestFirst)), minOccurrences, threshold);
      var rules := if listedRules.Ok? then listedRules.value else [];
      match ExistingSenders(rules)
      case None => []
      case Some(existing) => Filter(all, (sg: Suggestion) => sg.sender !in existing)
  }

  /** The dominant category of a sender with logs is a category of maximal count among its logs. */
  lemma {:induction false} DominantCounts(inner: Record<nat>, logs: seq<EmailLog>, s: string)
    requires InnerMatches(inner, logs, s) && CountSender(logs, s) > 0
    ensures var d := Dominant(inner);
            && 0 < d.1 <= CountSender(logs, s)
            && CountPair(logs, s, d.0) == d.1
            && (forall c :: CountPair(logs, s, c) <= d.1)
            && forall c | CountPair(logs, s, c) == d.1 :: FirstAt(logs, s, d.0) <= FirstAt(logs, s, c)
  {
    var d := Dominant(inner);
    assert inner != [];
    assert inner[0].1 >= 1;
    var j :| 0 <= j < |inner| && inner[j] == d && forall k | 0 <= k < j :: inner[k].1 < d.1;
    GetAt(inner, j);
    CountPairBound(logs, s, d.0);
    DominantMaximal(inner, logs, s, d);
    DominantEarliest(inner, logs, s, j);
  }

  lemma DominantMaximal(inner: Record<nat>, logs: seq<EmailLog>, s: string, d: (string, nat))
    requires InnerMatches(inner, logs, s)
    requires forall j :: 0 <= j < |inner| ==> inner[j].1 <= d.1
    ensures forall c :: CountPair(logs, s, c) <= d.1
  {
    forall c ensures CountPair(logs, s, c) <= d.1 {
      var i := IndexOf(inner, c);
      if i >= 0 {
        assert inner[i].1 <= d.1;
      }
    }
  }

  lemma DominantEarliest(inner: Record<nat>, logs: seq<EmailLog>, s: string, j: int)
    requires InnerMatches(inner, logs, s)
    requires 0 <= j < |inner| && inner[j].1 > 0 && forall k | 0 <= k < j :: inner[k].1 < inner[j].1
    ensures forall c | CountPair(logs, s, c) == inner[j].1 :: FirstAt(logs, s, inner[j].0) <= FirstAt(logs, s, c)
  {
    forall c | CountPair(logs, s, c) == inner[j].1 ensures FirstAt(logs, s, inner[j].0) <= FirstAt(logs, s, c) {
      var i := IndexOf(inner, c);
      assert i >= 0 && inner[i].1 == inner[j].1;
      assert j <= i;
    }
  }

  lemma RatioBounds(a: nat, b: nat)
    requires 0 < a <= b
    ensures 0.0 < a as real / b as real <= 1.0
  {
    assert a as real <= b as real;
  }

  /** A suggestion made for a sender's entry, in terms of the logs' counts. */
  lemma SuggestionForSound(inner: Record<nat>, logs: seq<EmailLog>, s: string,
                           minOccurrences: int, threshold: real, sg: Suggestion)
    requires InnerMatches(inner, logs, s)
    requires sg in SuggestionFor((s, inner), minOccurrences, threshold)
    ensures var total := CountSender(logs, s);
            && sg.sender == s && sg.count == total && 0 < total && minOccurrences <= total
            && (forall c :: CountPair(logs, s, c) <= CountPair(logs, s, sg.category))
            && (forall c | CountPair(logs, s, c) == CountPair(logs, s, sg.category)
                  :: FirstAt(logs, s, sg.category) <= FirstAt(logs, s, c))
            && sg.confidence == CountPair(logs, s, sg.category) as real / total as real
            && 0.0 < sg.confidence <= 1.0 && sg.confidence >= threshold
  {
    var total := CountSender(logs, s);
    var d := Dominant(inner);
    assert total > 0 && sg == Suggestion(s, d.0, d.1 as real / total as real, total);
    DominantCounts(inner, logs, s);
    RatioBounds(d.1, total);
  }

  /** A sender whose logs are frequent and dominated enough gets its suggestion. */
  lemma SuggestionForComplete(inner: Record<nat>, logs: seq<EmailLog>, s: string,
                              minOccurrences: int, threshold: real, c: string)
    requires InnerMatches(inner, logs, s)
    requires 0 < CountSender(logs, s) && minOccurrences <= CountSender(logs, s)
    requires forall c' :: CountPair(logs, s, c') <= CountPair(logs, s, c)
    requires CountPair(logs, s, c) as real / CountSender(logs, s) as real >= threshold
    ensures |SuggestionFor((s, inner), minOccurrences, threshold)| == 1
  {
    DominantCounts(inner, logs, s);
  }

  lemma {:induction false} SuggestAllMembers(t: Tally, minOccurrences: int, threshold: real, sg: Suggestion)
    requires sg in SuggestAll(t, minOccurrences, threshold)
    ensures exists i | 0 <= i < |t| :: sg in SuggestionFor(t[i], minOccurrences, threshold)
  {
    var n := |t|;
    if sg !in SuggestionFor(t[n - 1], minOccurrences, threshold) {
      SuggestAllMembers(t[..n - 1], minOccurrences, threshold, sg);
      var i :| 0 <= i < n - 1 && sg in SuggestionFor(t[..n - 1][i], minOccurrences, threshold);
      assert t[..n - 1][i] == t[i];
    }
  }

  lemma {:induction false} SuggestAllIncludes(t: Tally, minOccurrences: int, threshold: real, i: int)
    requires 0 <= i < |t|
    ensures forall sg | sg in SuggestionFor(t[i], minOccurrences, threshold) :: sg in SuggestAll(t, minOccurrences, threshold)
  {
    var n := |t|;
    if i < n - 1 {
      SuggestAllIncludes(t[..n - 1], minOccurrences, threshold, i);
      assert t[..n - 1][i] == t[i];
    }
  }

  /** The sender of each entry of the tally occurs in no other entry. */
  lemma {:induction false} SuggestAllSenders(t: Tally, minOccurrences: int, threshold: real)
    requires UniqueKeys(t)
    ensures forall a, b | 0 <= a < b < |SuggestAll(t, minOccurrences, threshold)|
              :: SuggestAll(t, minOccurrences, threshold)[a].sender != SuggestAll(t, minOccurrences, threshold)[b].sender
  {
    if t != [] {
      var n := |t|;
      var p := t[..n - 1];
      SuggestAllSenders(p, minOccurrences, threshold);
      var r, last := SuggestAll(p, minOccurrences, threshold), SuggestionFor(t[n - 1], minOccurrences, threshold);
      forall sg | sg in r ensures sg.sender != t[n - 1].0 {
        SuggestAllMembers(p, minOccurrences, threshold, sg);
      }
      assert forall a | 0 <= a < |r| :: r[a] in r;
    }
  }

  /**
   * Every suggestion is for a lower-cased sender of the window: its count is that sender's number of
   * logs there and at least `minOccurrences`, its category has the largest count among them (the
   * earliest in the window among those that tie), its
   * confidence is that count over the total, in (0, 1] and at least the threshold, and no listed
   * rule names the sender.
   */
  lemma SuggestionsSound(newestFirst: seq<EmailLog>, listedRules: Result<seq<SenderRule>, string>,
                         minOccurrences: int, threshold: real, sg: Suggestion)
    requires sg in Suggestions(newestFirst, true, listedRules, minOccurrences, threshold)
    ensures var w := Window(newestFirst);
            var total := CountSender(w, sg.sender);
            && (exists i | 0 <= i < |w| :: SenderOf(w[i]) == sg.sender)
            && sg.count == total && 0 < total && minOccurrences <= total
            && (forall c :: CountPair(w, sg.sender, c) <= CountPair(w, sg.sender, sg.category))
            && (forall c | CountPair(w, sg.sender, c) == CountPair(w, sg.sender, sg.category)
                  :: FirstAt(w, sg.sender, sg.category) <= FirstAt(w, sg.sender, c))
            && sg.confidence == CountPair(w, sg.sender, sg.category) as real / total as real
            && 0.0 < sg.confidence <= 1.0 && sg.confidence >= threshold
            && (listedRules.Ok? ==>
                  forall rule | rule in listedRules.value :: rule.sender.Str? && ToLower(rule.sender.s) != sg.sender)
  {
    var w := Window(newestFirst);
    var t := TallyOf(w);
    TallyOfMatches(w);
    var all := SuggestAll(t, minOccurrences, threshold);
    var rules := if listedRules.Ok? then listedRules.value else [];
    var existing := ExistingSenders(rules).value;
    assert sg in all && sg.sender !in existing;
    SuggestAllMembers(t, minOccurrences, threshold, sg);
    var i :| 0 <= i < |t| && sg in SuggestionFor(t[i], minOccurrences, threshold);
    GetAt(t, i);
    SuggestionForSound(t[i].1, w, t[i].0, minOccurrences, threshold, sg);
    CountSenderWitness(w, sg.sender);
  }

  /** A sender of the logs has an entry in their tally, holding its counts. */
  lemma TallyEntry(logs: seq<EmailLog>, s: string)
    requires CountSender(logs, s) > 0
    ensures 0 <= IndexOf(TallyOf(logs), s)
    ensures InnerMatches(TallyOf(logs)[IndexOf(TallyOf(logs), s)].1, logs, s)
  {
    TallyOfMatches(logs);
  }

  /**
   * Conversely, a sender of the window that occurs often enough, whose most frequent category
   * reaches the threshold, and that no listed rule names, is suggested.
   */
  lemma SuggestionsComplete(newestFirst: seq<EmailLog>, listedRules: Result<seq<SenderRule>, string>,
                            minOccurrences: int, threshold: real, s: string, c: string)
    requires 0 < CountSender(Window(newestFirst), s) && minOccurrences <= CountSender(Window(newestFirst), s)
    requires forall c' :: CountPair(Window(newestFirst), s, c') <= CountPair(Window(newestFirst), s, c)
    requires CountPair(Window(newestFirst), s, c) as real / CountSender(Window(newestFirst), s) as real >= threshold
    requires listedRules.Ok? ==>
               forall rule | rule in listedRules.value :: rule.sender.Str? && ToLower(rule.sender.s) != s
    ensures exists sg | sg in Suggestions(newestFirst, true, listedRules, minOccurrences, threshold) :: sg.sender == s
  {
    var w := Window(newestFirst);
    var t := TallyOf(w);
    TallyEntry(w, s);
    var i := IndexOf(t, s);
    SuggestionForComplete(t[i].1, w, s, minOccurrences, threshold, c);
    var sg := SuggestionFor(t[i], minOccurrences, threshold)[0];
    SuggestAllIncludes(t, minOccurrences, threshold, i);
    var rules := if listedRules.Ok? then listedRules.value else [];
    assert ExistingSenders(rules).Some?;
    assert sg in Suggestions(newestFirst, true, listedRules, minOccurrences, threshold);
  }

  /** The first `forEach`: count, per lower-cased sender, the categories of the logs. */
  method TallyLogs(logs: seq<EmailLog>) returns (senderStats: Tally)
    ensures senderStats == TallyOf(logs)
  {
    senderStats := [];
    for i := 0 to |logs|
      invariant senderStats == TallyOf(logs[..i])
    {
      var sender := ToLower(logs[i].sender);
      var categories := Get(senderStats, sender).GetOr([]);
      categories := Increment(categories, logs[i].category);
      assert logs[..i + 1][..i] == logs[..i];
      senderStats := Put(senderStats, sender, categories);
    }
    assert logs[..|logs|] == logs;
  }

  /** The inner loop of the second `forEach`: the dominant category of one sender. */
  method DominantCategory(categories: Record<nat>) returns (dominantCategory: string, dominantCount: nat)
    ensures (dominantCategory, dominantCount) == Dominant(categories)
  {
    dominantCategory, dominantCount := "", 0;
    for j := 0 to |categories|
      invariant (dominantCategory, dominantCount) == Dominant(categories[..j])
    {
      assert categories[..j + 1][..j] == categories[..j];
      if categories[j].1 > dominantCount {
        dominantCount := categories[j].1;
        dominantCategory := categories[j].0;
      }
    }
    assert categories[..|categories|] == categories;
  }

  /** The second `forEach`: a suggestion per sender that is frequent and dominated enough. */
  method SuggestEach(senderStats: Tally, minOccurrences: int, confidenceThreshold: real)
    returns (suggestions: seq<Suggestion>)
    ensures suggestions == SuggestAll(senderStats, minOccurrences, confidenceThreshold)
  {
    suggestions := [];
    for i := 0 to |senderStats|
      invariant suggestions == SuggestAll(senderStats[..i], minOccurrences, confidenceThreshold)
    {
      var sender, categories := senderStats[i].0, senderStats[i].1;
      var total := Sum(categories);
      assert senderStats[..i + 1][..i] == senderStats[..i];
      if total >= minOccurrences && total != 0 {
        var dominantCategory, dominantCount := DominantCategory(categories);
        var confidence := dominantCount as real / total as real;
        if confidence >= confidenceThreshold {
          suggestions := suggestions + [Suggestion(sender, dominantCategory, confidence, total)];
        }
      }
    }
    assert senderStats[..|senderStats|] == senderStats;
  }

  /** The miner as the source runs it: two `forEach` passes that update counters in place. */
  method FindSenderPatterns(newestFirst: seq<EmailLog>, logsUp: bool, listedRules: Result<seq<SenderRule>, string>,
                            minOccurrences: int, confidenceThreshold: real)
    returns (r: seq<Suggestion>)
    ensures r == Suggestions(newestFirst, logsUp, listedRules, minOccurrences, confidenceThreshold)
  {
    if !logsUp {
      return [];
    }
    var senderStats := TallyLogs(Window(newestFirst));
    var suggestions := SuggestEach(senderStats, minOccurrences, confidenceThreshold);
    var rules := if listedRules.Ok? then listedRules.value else [];
    var existing := ExistingSenders(rules);
    if existing.None? {
      return [];
    }
    r := Filter(suggestions, (sg: Suggestion) => sg.sender !in existing.value);
  }
}
