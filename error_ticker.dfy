/**
 * The banner of recent errors: it polls the error-log endpoint, rotates through the entries every
 * few seconds while there is more than one, and can be dismissed. The component's three pieces of
 * state are the fields of a class; timers and the network are the caller's, who invokes `Fetch`
 * and `Tick` when they fire.
 */
module ErrorTicker {
  import opened Wrappers
  import opened Js

  /**
   * An entry as the banner uses it. Its `message` is whatever the log payload yielded, which the
   * logging service does not narrow to a string.
   */
  datatype TickerEntry = TickerEntry(timestamp: string, severity: string, message: JsValue, resourceType: string)

  /** The component's state: the entries, the one shown, and whether the banner was dismissed. */
  datatype TickerState = TickerState(logs: seq<TickerEntry>, currentIndex: nat, isVisible: bool)

  /** The rotation timer exists only while there is more than one entry. */
  predicate Rotating(s: TickerState) {
    |s.logs| > 1
  }

  /** A tick of the rotation timer: the next entry, wrapping around; without a timer nothing happens. */
  function Ticked(s: TickerState): TickerState {
    if Rotating(s) then s.(currentIndex := (s.currentIndex + 1) % |s.logs|) else s
  }

  /**
   * A poll's outcome: the fetched list replaces the entries only when it is non-empty; a failure
   * (`None`) or an empty list keeps them. The index is left where it was.
   */
  function Fetched(s: TickerState, reply: Option<seq<TickerEntry>>): TickerState {
    if reply.Some? && |reply.value| > 0 then s.(logs := reply.value) else s
  }

  /** The dismiss button. */
  function Dismissed(s: TickerState): TickerState {
    s.(isVisible := false)
  }

  /**
   * A value React accepts as a child: strings and numbers render as text, booleans, `null` and
   * `undefined` render nothing, an array renders each of its items, and an object throws.
   */
  predicate RendersAsChild(v: JsValue)
    decreases v
  {
    match v
    case Obj(_) => false
    case Arr(items) => forall i | 0 <= i < |items| :: RendersAsChild(items[i])
    case _ => true
  }

  /** What renders: nothing, the current entry with one dot per entry, or a render error. */
  datatype View = Hidden | Banner(entry: TickerEntry, dots: nat, active: nat) | RenderError

  /**
   * Nothing when dismissed or empty; otherwise the entry at the index (dots only when there is
   * more than one entry). Reading past the end, or a message React cannot render, fails the render.
   */
  function ViewOf(s: TickerState): View {
    if !s.isVisible || |s.logs| == 0 then Hidden
    else if s.currentIndex >= |s.logs| then RenderError
    else if !RendersAsChild(s.logs[s.currentIndex].message) then RenderError
    else Banner(s.logs[s.currentIndex], if |s.logs| > 1 then |s.logs| else 0, s.currentIndex)
  }

  /** The index points at an entry. */
  predicate InBounds(s: TickerState) {
    s.currentIndex < |s.logs|
  }

  /**
   * A tick keeps the index on an entry, moving to the next one and from the last back to the
   * first; it changes neither the entries nor the visibility.
   */
  lemma TickStaysInBounds(s: TickerState)
    requires InBounds(s)
    ensures InBounds(Ticked(s))
    ensures Ticked(s).logs == s.logs && Ticked(s).isVisible == s.isVisible
    ensures Rotating(s) ==> Ticked(s).currentIndex == if s.currentIndex + 1 < |s.logs| then s.currentIndex + 1 else 0
  {
  }

  /** `n` ticks in a row. */
  function TickedN(s: TickerState, n: nat): TickerState
    decreases n
  {
    if n == 0 then s else TickedN(Ticked(s), n - 1)
  }

  lemma {:induction false} TickedNAdd(s: TickerState, a: nat, b: nat)
    ensures TickedN(s, a + b) == TickedN(TickedN(s, a), b)
    decreases a
  {
    if a > 0 {
      TickedNAdd(Ticked(s), a - 1, b);
    }
  }

  /** Ticking from an entry reaches each later entry in turn. */
  lemma {:induction false} TicksAdvance(s: TickerState, k: nat)
    requires Rotating(s) && s.currentIndex + k < |s.logs|
    ensures TickedN(s, k) == s.(currentIndex := s.currentIndex + k)
    decreases k
  {
    if k > 0 {
      TickStaysInBounds(s);
      TicksAdvance(Ticked(s), k - 1);
    }
  }

  /**
   * While the entries stay the same, the rotation shows every entry once per round: from any entry,
   * as many ticks as there are entries lead back to it, passing the first entry on the way.
   */
  lemma FullRound(s: TickerState)
    requires Rotating(s) && InBounds(s)
    ensures TickedN(s, |s.logs|) == s
    ensures TickedN(s, |s.logs| - s.currentIndex).currentIndex == 0
  {
    var n := |s.logs|;
    var i := s.currentIndex;
    TicksAdvance(s, n - 1 - i);
    var last := s.(currentIndex := n - 1);
    TickStaysInBounds(last);
    assert Ticked(last) == s.(currentIndex := 0);
    TickedNAdd(s, n - 1 - i, 1);
    assert TickedN(last, 1) == TickedN(Ticked(last), 0);
    TicksAdvance(s.(currentIndex := 0), i);
    TickedNAdd(s, n - i, i);
  }

  /** Once dismissed, the banner stays hidden whatever ticks and polls follow. */
  lemma DismissIsFinal(s: TickerState, reply: Option<seq<TickerEntry>>)
    ensures ViewOf(Dismissed(s)) == Hidden
    ensures !s.isVisible ==> !Ticked(s).isVisible && !Fetched(s, reply).isVisible && ViewOf(Fetched(s, reply)) == Hidden
  {
  }

  /**
   * A poll keeps the index in bounds exactly when it keeps the entries or brings at least as many
   * as the index needs; a shorter list while the index is past its end makes the next render fail.
   */
  lemma FetchBounds(s: TickerState, reply: Option<seq<TickerEntry>>)
    requires InBounds(s)
    ensures InBounds(Fetched(s, reply)) <==> !(reply.Some? && |reply.value| > 0) || s.currentIndex < |reply.value|
    ensures s.isVisible && reply.Some? && 0 < |reply.value| <= s.currentIndex ==> ViewOf(Fetched(s, reply)) == RenderError
  {
  }

  /**
   * A visible banner shows an entry exactly when the index is on one whose message renders; a
   * message that is an object, or a list holding one, fails the render.
   */
  lemma {:induction false} BannerExactlyWhenRenderable(s: TickerState)
    ensures ViewOf(s).Banner? <==>
      s.isVisible && InBounds(s) && RendersAsChild(s.logs[s.currentIndex].message)
    ensures ViewOf(s).Banner? ==> ViewOf(s).entry == s.logs[s.currentIndex] && ViewOf(s).active == s.currentIndex
    ensures s.isVisible && InBounds(s) && s.logs[s.currentIndex].message.Obj? ==> ViewOf(s) == RenderError
    ensures (&& s.isVisible && InBounds(s) && s.logs[s.currentIndex].message.Arr?
             && exists i | 0 <= i < |s.logs[s.currentIndex].message.items| ::
                  s.logs[s.currentIndex].message.items[i].Obj?)
            ==> ViewOf(s) == RenderError
  {
    if s.isVisible && InBounds(s) && s.logs[s.currentIndex].message.Arr? {
      var m := s.logs[s.currentIndex].message;
      if exists i | 0 <= i < |m.items| :: m.items[i].Obj? {
        var i :| 0 <= i < |m.items| && m.items[i].Obj?;
        assert !RendersAsChild(m.items[i]);
      }
    }
  }

  /** Showing the third of three entries, a poll that brings a single entry breaks the banner. */
  lemma ShorterPollBreaksBanner(a: TickerEntry, b: TickerEntry, c: TickerEntry)
    ensures var s := TickerState([a, b, c], 2, true);
            && InBounds(s) && ViewOf(s) == (if RendersAsChild(c.message) then Banner(c, 3, 2) else RenderError)
            && ViewOf(Fetched(s, Some([a]))) == RenderError
            && !Rotating(Fetched(s, Some([a])))
  {
  }

  class Ticker {
    var logs: seq<TickerEntry>
    var currentIndex: nat
    var isVisible: bool

    function State(): TickerState
      reads this
    {
      TickerState(logs, currentIndex, isVisible)
    }

    /** The initial state: no entries, index 0, visible. */
    constructor ()
      ensures State() == TickerState([], 0, true)
    {
      logs, currentIndex, isVisible := [], 0, true;
    }

    /** `fetchLogs`, the response's `logs` given as `reply` (`None` when the request fails). */
    method Fetch(reply: Option<seq<TickerEntry>>)
      modifies this
      ensures State() == Fetched(old(State()), reply)
    {
      if reply.Some? && |reply.value| > 0 {
        logs := reply.value;
      }
    }

    /** The rotation interval's callback. */
    method Tick()
      modifies this
      ensures State() == Ticked(old(State()))
    {
      if |logs| <= 1 {
        return;
      }
      currentIndex := (currentIndex + 1) % |logs|;
    }

    /** The close button's handler. */
    method Dismiss()
      modifies this
      ensures State() == Dismissed(old(State()))
    {
      isVisible := false;
    }

    /** The render. */
    method Render() returns (v: View)
      ensures v == ViewOf(State())
      ensures v.Banner? ==> v.entry == logs[currentIndex]
    {
      if !isVisible || |logs| == 0 {
        return Hidden;
      }
      if currentIndex >= |logs| || !RendersAsChild(logs[currentIndex].message) {
        return RenderError;
      }
      v := Banner(logs[currentIndex], if |logs| > 1 then |logs| else 0, currentIndex);
    }
  }
}
