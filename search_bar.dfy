/**
 * The debounced search input of frontend/src/components/SearchBar.js, as a
 * state machine over an abstract clock. The component keeps its own
 * `inputValue`, receives the parent's `value`, and holds at most one pending
 * timer. Every change of `inputValue` cancels the pending timer and arms a new
 * one that fires `debounceTime` later; the timer's callback compares the text
 * it was armed with against the `value` of the render that armed it.
 *
 * A step is one handler or one timer callback, followed by the render it causes
 * and that render's effects in declaration order: the debounce effect (when
 * `inputValue` changed), then the sync effect (when `value` changed), which may
 * change `inputValue` once more. A parent that updates `value` from inside
 * `onChangeText` or `onClear` re-renders in the same batch, so handlers take the
 * parent's resulting `value` as an input.
 */
module SearchBar {
  import opened Wrappers

  const DefaultDebounceTime := 300

  /** The callbacks the parent passed (a missing one is not called) and the debounce delay. */
  datatype Props = Props(hasOnChangeText: bool, hasOnSearch: bool, hasOnClear: bool, hasOnRecentSearchPress: bool,
                         debounceTime: int)

  /** The search screen passes `value` and `onChangeText` only, and keeps the default delay. */
  const SearchScreenProps := Props(true, false, false, false, DefaultDebounceTime)

  /** A pending timer: when it fires, the text it will report, and the parent value it compares against. */
  datatype Timer = Timer(due: int, text: string, against: string)

  /** The component's state: the text field, the parent's value, and the pending timer if any. */
  datatype BarState = BarState(inputValue: string, value: string, timer: Option<Timer>)

  /** A call of one of the parent's callbacks. */
  datatype Call = ChangeText(text: string) | Search(text: string) | Cleared | RecentSearchPressed(term: string)

  /** What can happen to the component. */
  datatype Event =
    | Keystroke(text: string)             // the text field's onChangeText
    | Tick                                // the clock reaches the step's time
    | ValueProp(value: string)            // the parent re-renders with a new value
    | ClearPress(parentValue: string)     // handleClear
    | SubmitPress                         // handleSubmit
    | RecentPress(term: string, parentValue: string) // handleRecentSearchPress

  /** A pending timer always reports the current text. */
  predicate Valid(s: BarState) {
    s.timer.Some? ==> s.timer.value.text == s.inputValue
  }

  /** The debounce effect after a render with this `inputValue`: re-armed when the text changed. */
  function Arm(s: BarState, input: string, now: int, p: Props): (r: BarState)
    ensures r.inputValue == input && r.value == s.value
    ensures input != s.inputValue ==> r.timer == Some(Timer(now + p.debounceTime, input, s.value))
    ensures input == s.inputValue ==> r == s
  {
    if input != s.inputValue then BarState(input, s.value, Some(Timer(now + p.debounceTime, input, s.value)))
    else s
  }

  /** One render with new `inputValue` and `value`, then the debounce effect, then the sync effect. */
  function Render(s: BarState, input: string, value: string, now: int, p: Props): (r: BarState)
    requires Valid(s)
    ensures Valid(r)
    ensures r.value == value
    ensures r.inputValue == if value != s.value then value else input
  {
    var afterDebounce := Arm(s.(value := value), input, now, p);
    if value != s.value then Arm(afterDebounce, value, now, p) else afterDebounce
  }

  /** The state after mounting: the text is the parent's value, and the mount-time timer has nothing to report. */
  function Mount(value: string, now: int, p: Props): (s: BarState)
    ensures Valid(s) && s.inputValue == value && s.value == value
    ensures s.timer.Some? && s.timer.value.text == s.timer.value.against
  {
    BarState(value, value, Some(Timer(now + p.debounceTime, value, value)))
  }

  /** `if (onX) onX(...)`. */
  function CallIf(present: bool, c: Call): seq<Call> {
    if present then [c] else []
  }

  /** One step at time `now`: the new state and the callbacks called, in order. */
  function Step(s: BarState, e: Event, now: int, p: Props): (r: (BarState, seq<Call>))
    requires Valid(s)
    ensures Valid(r.0)
  {
    match e
    case Keystroke(text) => (Render(s, text, s.value, now, p), [])
    case Tick =>
      if s.timer.Some? && s.timer.value.due <= now then
        var t := s.timer.value;
        (s.(timer := None), CallIf(p.hasOnChangeText && t.text != t.against, ChangeText(t.text)))
      else (s, [])
    case ValueProp(value) => (Render(s, s.inputValue, value, now, p), [])
    case ClearPress(parentValue) =>
      (Render(s, "", parentValue, now, p), CallIf(p.hasOnClear, Cleared) + CallIf(p.hasOnChangeText, ChangeText("")))
    case SubmitPress => (s, CallIf(p.hasOnSearch, Search(s.inputValue)))
    case RecentPress(term, parentValue) =>
      (Render(s, term, parentValue, now, p),
       CallIf(p.hasOnRecentSearchPress, RecentSearchPressed(term)) + CallIf(p.hasOnChangeText, ChangeText(term)))
  }

  // ---------------------------------------------------------------------------
  // Single steps

  /** A keystroke calls nothing; only the timer reports typed text. */
  lemma KeystrokeIsSilent(s: BarState, text: string, now: int, p: Props)
    requires Valid(s)
    ensures Step(s, Keystroke(text), now, p).1 == []
    ensures Step(s, Keystroke(text), now, p).0.inputValue == text
    ensures text != s.inputValue ==> Step(s, Keystroke(text), now, p).0.timer == Some(Timer(now + p.debounceTime, text, s.value))
    ensures text == s.inputValue ==> Step(s, Keystroke(text), now, p).0 == s
  {
  }

  /**
   * A tick reports at most once: it reports the current text exactly when the
   * timer is due and its text differs from the value it was armed against, and
   * a fired timer is gone.
   */
  lemma TickReportsOnce(s: BarState, now: int, later: int, p: Props)
    requires Valid(s) && p.hasOnChangeText
    ensures var (s1, calls) := Step(s, Tick, now, p);
      && (calls != [] <==> s.timer.Some? && s.timer.value.due <= now && s.inputValue != s.timer.value.against)
      && (calls != [] ==> calls == [ChangeText(s.inputValue)])
      && (s.timer.Some? && s.timer.value.due <= now ==> Step(s1, Tick, later, p).1 == [])
  {
  }

  /** A new parent value replaces the text at once. */
  lemma ValuePropSyncs(s: BarState, value: string, now: int, p: Props)
    requires Valid(s)
    requires value != s.value
    ensures Step(s, ValueProp(value), now, p).0.inputValue == value
    ensures Step(s, ValueProp(value), now, p).1 == []
  {
  }

  /** Clearing reports `''` at once, after `onClear`, with no debounce. */
  lemma ClearReportsAtOnce(s: BarState, parentValue: string, now: int, p: Props)
    requires Valid(s) && p.hasOnChangeText && p.hasOnClear
    ensures Step(s, ClearPress(parentValue), now, p).1 == [Cleared, ChangeText("")]
    ensures parentValue == "" ==> Step(s, ClearPress(parentValue), now, p).0.inputValue == ""
  {
  }

  /** Submitting reports the text to `onSearch` only, and changes nothing. */
  lemma SubmitSearchesOnly(s: BarState, now: int, p: Props)
    requires Valid(s)
    ensures Step(s, SubmitPress, now, p).0 == s
    ensures forall c | c in Step(s, SubmitPress, now, p).1 :: c == Search(s.inputValue)
  {
  }

  /** Pressing a recent search reports it at once. */
  lemma RecentReportsAtOnce(s: BarState, term: string, now: int, p: Props)
    requires Valid(s) && p.hasOnChangeText
    ensures ChangeText(term) in Step(s, RecentPress(term, term), now, p).1
    ensures Step(s, RecentPress(term, term), now, p).0.inputValue == term
  {
  }

  /** On the search screen the clear button reports `''` alone and submitting calls nothing. */
  lemma OnSearchScreen(s: BarState, now: int)
    requires Valid(s)
    ensures Step(s, ClearPress(""), now, SearchScreenProps).1 == [ChangeText("")]
    ensures Step(s, SubmitPress, now, SearchScreenProps).1 == []
    ensures Step(s, ClearPress(""), now, SearchScreenProps).0.inputValue == ""
  {
  }

  // ---------------------------------------------------------------------------
  // Runs

  /** An event at a time. */
  datatype Timed = Timed(event: Event, at: int)

  /** The state and the calls after a list of timed events. */
  function Run(s: BarState, events: seq<Timed>, p: Props): (r: (BarState, seq<Call>))
    requires Valid(s)
    ensures Valid(r.0)
    decreases |events|
  {
    if events == [] then (s, [])
    else
      var (s1, calls) := Step(s, events[0].event, events[0].at, p);
      var (s2, more) := Run(s1, events[1..], p);
      (s2, calls + more)
  }

  /** Only keystrokes. */
  predicate AllKeystrokes(events: seq<Timed>) {
    forall i | 0 <= i < |events| :: events[i].event.Keystroke?
  }

  /** Running one more event runs it on the state the list left. */
  lemma {:induction false} RunSnoc(s: BarState, events: seq<Timed>, last: Timed, p: Props)
    requires Valid(s)
    ensures var before := Run(s, events, p);
      var after := Step(before.0, last.event, last.at, p);
      Run(s, events + [last], p) == (after.0, before.1 + after.1)
    decreases |events|
  {
    if events == [] {
      assert [] + [last] == [last] && [last][1..] == [];
      var after := Step(s, last.event, last.at, p);
      assert Run(after.0, [], p) == (after.0, []);
      assert after.1 + [] == after.1 && [] + after.1 == after.1;
    } else {
      var s1 := Step(s, events[0].event, events[0].at, p).0;
      assert (events + [last])[0] == events[0];
      assert (events + [last])[1..] == events[1..] + [last];
      RunSnoc(s1, events[1..], last, p);
      var calls := Step(s, events[0].event, events[0].at, p).1;
      var more := Run(s1, events[1..], p).1;
      var after := Step(Run(s1, events[1..], p).0, last.event, last.at, p).1;
      assert calls + (more + after) == (calls + more) + after;
    }
  }

  /** A burst of keystrokes calls nothing, keeps the parent value, and leaves the last text in the field. */
  lemma {:induction false} TypingIsSilent(s: BarState, keys: seq<Timed>, p: Props)
    requires Valid(s) && AllKeystrokes(keys)
    ensures Run(s, keys, p).1 == []
    ensures Run(s, keys, p).0.value == s.value
    ensures keys != [] ==> Run(s, keys, p).0.inputValue == keys[|keys| - 1].event.text
    ensures keys == [] ==> Run(s, keys, p).0 == s
    decreases |keys|
  {
    if keys != [] {
      var s1 := Step(s, keys[0].event, keys[0].at, p).0;
      TypingIsSilent(s1, keys[1..], p);
      if |keys| > 1 {
        assert keys[1..][|keys[1..]| - 1] == keys[|keys| - 1];
      }
    }
  }

  /**
   * Debouncing: after a burst of keystrokes whose last one changed the text,
   * the timer armed by that last keystroke is the only one pending. A tick
   * before it is due calls nothing; a tick when it is due reports the final
   * text once (unless it equals the parent value), and none of the
   * intermediate texts is ever reported.
   */
  lemma BurstReportsLastTextOnce(s: BarState, keys: seq<Timed>, last: Timed, now: int, p: Props)
    requires Valid(s) && AllKeystrokes(keys) && last.event.Keystroke? && p.hasOnChangeText
    requires last.event.text != Run(s, keys, p).0.inputValue
    ensures var typed := Run(s, keys + [last], p);
      && typed.1 == []
      && typed.0.timer == Some(Timer(last.at + p.debounceTime, last.event.text, s.value))
      && (now < last.at + p.debounceTime ==> Step(typed.0, Tick, now, p).1 == [])
      && (last.at + p.debounceTime <= now ==>
            Step(typed.0, Tick, now, p).1 == (if last.event.text != s.value then [ChangeText(last.event.text)] else []))
  {
    TypingIsSilent(s, keys, p);
    RunSnoc(s, keys, last, p);
  }

  /** The index of the last keystroke in `events`, or -1 when there is none. */
  function LastKey(events: seq<Timed>): (k: int)
    ensures -1 <= k < |events|
    ensures k >= 0 ==> events[k].event.Keystroke?
    ensures forall j | k < j < |events| :: !events[j].event.Keystroke?
    ensures |events| > 0 && events[0].event.Keystroke? ==> k >= 0
    decreases |events|
  {
    if events == [] then -1
    else if events[|events| - 1].event.Keystroke? then |events| - 1
    else LastKey(events[..|events| - 1])
  }

  /**
   * A burst of typing: it starts with a keystroke that changes the text, holds
   * only keystrokes and ticks, every keystroke changes the text, and every tick
   * comes before the timer of the keystroke preceding it is due.
   */
  predicate IsBurst(s: BarState, events: seq<Timed>, p: Props) {
    && |events| > 0
    && events[0].event.Keystroke? && events[0].event.text != s.inputValue
    && (forall i | 0 <= i < |events| :: events[i].event.Keystroke? || events[i].event.Tick?)
    && (forall i | 0 < i < |events| :: events[i].event.Tick? ==>
          events[i].at < events[LastKey(events[..i])].at + p.debounceTime)
    && (forall i | 0 < i < |events| :: events[i].event.Keystroke? ==>
          events[i].event.text != events[LastKey(events[..i])].event.text)
  }

  /** The state a burst leaves: the last keystroke's text, with the timer that keystroke armed. */
  function Pending(s: BarState, events: seq<Timed>, p: Props): (r: BarState)
    requires |events| > 0 && events[0].event.Keystroke?
    ensures Valid(r) && r.value == s.value
    ensures r.inputValue == events[LastKey(events)].event.text
  {
    var k := LastKey(events);
    var text := events[k].event.text;
    BarState(text, s.value, Some(Timer(events[k].at + p.debounceTime, text, s.value)))
  }

  /** Dropping the last event of a burst of two or more leaves a burst. */
  lemma BurstPrefix(s: BarState, events: seq<Timed>, p: Props)
    requires IsBurst(s, events, p) && |events| > 1
    ensures IsBurst(s, events[..|events| - 1], p)
  {
    var init := events[..|events| - 1];
    assert forall i | 0 < i < |init| :: init[..i] == events[..i];
  }

  /** One more keystroke that changes the text, or one more early tick, keeps a burst silent. */
  lemma {:induction false} BurstExtends(s: BarState, init: seq<Timed>, last: Timed, p: Props)
    requires Valid(s) && |init| > 0 && init[0].event.Keystroke?
    requires Run(s, init, p) == (Pending(s, init, p), [])
    requires last.event.Keystroke? || last.event.Tick?
    requires last.event.Tick? ==> last.at < init[LastKey(init)].at + p.debounceTime
    requires last.event.Keystroke? ==> last.event.text != init[LastKey(init)].event.text
    ensures Run(s, init + [last], p) == (Pending(s, init + [last], p), [])
  {
    RunSnoc(s, init, last, p);
    var events := init + [last];
    assert events[..|init|] == init;
    assert events[0] == init[0];
  }

  /** The first keystroke of a burst arms its timer and calls nothing. */
  lemma BurstStart(s: BarState, first: Timed, p: Props)
    requires Valid(s) && first.event.Keystroke? && first.event.text != s.inputValue
    ensures Run(s, [first], p) == (Pending(s, [first], p), [])
  {
    assert LastKey([first]) == 0;
    assert [first][1..] == [];
    var st := Step(s, first.event, first.at, p);
    assert st.0 == Pending(s, [first], p) && st.1 == [];
    assert Run(st.0, [], p) == (st.0, []);
    assert Run(s, [first], p) == (st.0, st.1 + []);
    assert st.1 + [] == [];
  }

  /**
   * During a burst nothing is called, and afterwards the only pending timer is
   * the one the last keystroke armed, carrying its text and due one debounce
   * interval after it.
   */
  lemma {:induction false} BurstState(s: BarState, events: seq<Timed>, p: Props)
    requires Valid(s) && IsBurst(s, events, p)
    ensures Run(s, events, p) == (Pending(s, events, p), [])
    decreases |events|
  {
    var n := |events|;
    if n == 1 {
      BurstStart(s, events[0], p);
      assert [events[0]] == events;
    } else {
      var init := events[..n - 1];
      var last := events[n - 1];
      BurstPrefix(s, events, p);
      BurstState(s, init, p);
      assert events[..n - 1] == init;
      BurstExtends(s, init, last, p);
      assert init + [last] == events;
    }
  }

  /**
   * Debouncing over a burst with early ticks: the first tick at or after the
   * last keystroke's due time reports that keystroke's text once (unless it
   * equals the parent value), and no intermediate text is ever reported.
   */
  lemma DebouncedBurstReportsOnce(s: BarState, events: seq<Timed>, t: int, p: Props)
    requires Valid(s) && IsBurst(s, events, p) && p.hasOnChangeText
    requires events[LastKey(events)].at + p.debounceTime <= t
    ensures Run(s, events, p).1 == []
    ensures var text := events[LastKey(events)].event.text;
      Run(s, events + [Timed(Tick, t)], p).1 == (if text != s.value then [ChangeText(text)] else [])
  {
    BurstState(s, events, p);
    RunSnoc(s, events, Timed(Tick, t), p);
  }
}

/**
 * The component instance: its state fields and the handlers that overwrite them.
 * Each method does what `Step` describes for its event.
 */
module SearchBarComponent {
  import opened Wrappers
  import opened SearchBar

  class Bar {
    var inputValue: string
    var value: string
    var timer: Option<Timer>
    const props: Props

    function State(): BarState
      reads this
    {
      BarState(inputValue, value, timer)
    }

    ghost predicate Valid()
      reads this
    {
      SearchBar.Valid(State())
    }

    /** Mounting: `useState(value)`, then the debounce effect arms its first timer. */
    constructor (initialValue: string, now: int, p: Props)
      ensures Valid() && State() == Mount(initialValue, now, p) && props == p
    {
      inputValue := initialValue;
      value := initialValue;
      timer := Some(Timer(now + p.debounceTime, initialValue, initialValue));
      props := p;
    }

    /** `setInputValue(text)` and, when the text changed, the debounce effect: clear the timer, arm a new one. */
    method SetInputValue(text: string, now: int)
      requires Valid()
      modifies this
      ensures Valid()
      ensures State() == Arm(old(State()), text, now, props)
    {
      if text != inputValue {
        inputValue := text;
        timer := None;
        timer := Some(Timer(now + props.debounceTime, text, value));
      }
    }

    /** A render with a new parent value: the debounce effect for `text`, then the sync effect. */
    method Rerender(text: string, newValue: string, now: int)
      requires Valid()
      modifies this
      ensures Valid()
      ensures State() == Render(old(State()), text, newValue, now, props)
    {
      var changed := newValue != value;
      value := newValue;
      SetInputValue(text, now);
      if changed {
        SetInputValue(newValue, now);
      }
    }

    /** The text field's `onChangeText={setInputValue}`. */
    method Keystroke(text: string, now: int)
      requires Valid()
      modifies this
      ensures Valid()
      ensures (State(), []) == Step(old(State()), Event.Keystroke(text), now, props)
    {
      SetInputValue(text, now);
    }

    /** The pending timer's callback, when the clock reaches `now`. */
    method Tick(now: int) returns (calls: seq<Call>)
      requires Valid()
      modifies this
      ensures Valid()
      ensures (State(), calls) == Step(old(State()), Event.Tick, now, props)
    {
      calls := [];
      if timer.Some? && timer.value.due <= now {
        var t := timer.value;
        timer := None;
        if props.hasOnChangeText && t.text != t.against {
          calls := [ChangeText(t.text)];
        }
      }
    }

    /** The parent re-renders with a new `value`. */
    method ValueChanged(newValue: string, now: int)
      requires Valid()
      modifies this
      ensures Valid()
      ensures (State(), []) == Step(old(State()), ValueProp(newValue), now, props)
    {
      Rerender(inputValue, newValue, now);
    }

    /** `handleClear`; the parent's value after its callbacks is `parentValue`. */
    method HandleClear(parentValue: string, now: int) returns (calls: seq<Call>)
      requires Valid()
      modifies this
      ensures Valid()
      ensures (State(), calls) == Step(old(State()), ClearPress(parentValue), now, props)
    {
      calls := [];
      if props.hasOnClear {
        calls := calls + [Cleared];
      }
      if props.hasOnChangeText {
        calls := calls + [ChangeText("")];
      }
      assert calls == CallIf(props.hasOnClear, Cleared) + CallIf(props.hasOnChangeText, ChangeText(""));
      Rerender("", parentValue, now);
    }

    /** `handleSubmit`. */
    method HandleSubmit() returns (calls: seq<Call>)
      requires Valid()
      ensures (State(), calls) == Step(State(), SubmitPress, 0, props)
    {
      calls := [];
      if props.hasOnSearch {
        calls := [Search(inputValue)];
      }
    }

    /** `handleRecentSearchPress(term)`; the parent's value after its callbacks is `parentValue`. */
    method HandleRecentSearchPress(term: string, parentValue: string, now: int) returns (calls: seq<Call>)
      requires Valid()
      modifies this
      ensures Valid()
      ensures (State(), calls) == Step(old(State()), RecentPress(term, parentValue), now, props)
    {
      calls := [];
      if props.hasOnRecentSearchPress {
        calls := calls + [RecentSearchPressed(term)];
      }
      if props.hasOnChangeText {
        calls := calls + [ChangeText(term)];
      }
      assert calls == CallIf(props.hasOnRecentSearchPress, RecentSearchPressed(term)) + CallIf(props.hasOnChangeText, ChangeText(term));
      Rerender(term, parentValue, now);
    }
  }
}
