/** The debounced search box of src/components/SearchBar.jsx.

    The component holds the text in the box (`value`), a typing indicator
    (`isTyping`) and one timer handle (`timer.current`). Whenever `value`
    changes, an effect cancels the pending timer; a blank value is reported
    at once as the empty query, any other value arms a 600 ms timer that will
    report its trimmed text. Enter and the Search button report the trimmed
    text at once. Each report is a call of `onSearch`.

    Time is abstract: the timer's expiry is an event of its own, and the
    pending timer is represented by the text it will report. Module
    `Debounce` gives the component's reactions as functions and proves what
    they guarantee; module `SearchBarComponent` holds the state in a class. */
module Debounce {
  import opened Basics
  import opened Strings

  /** The quiet interval, in milliseconds, after which a value is reported. */
  const QuietMillis := 600

  /** The component's state: the box's text, the typing indicator and the
      text the pending timer will report, if a timer is pending. */
  datatype Bar = Bar(value: string, isTyping: bool, timer: Option<string>)

  /** A new state and the queries reported (`onSearch` calls) on the way. */
  datatype Outcome = Outcome(next: Bar, emitted: seq<string>)

  /** What the component can be told: the box's text changed, the pending
      timer expired, Enter was pressed, the Search button was clicked (while
      the app's loading flag is `loading`). */
  datatype Event = Change(v: string) | TimerFire | PressEnter | ClickButton(loading: bool)

  /** The effect on `value`: cancel the pending timer; a blank text is
      reported at once as "" and stops the typing indicator; any other text
      starts the indicator and arms a timer for its trimmed form, reporting
      nothing yet. */
  function Effect(s: Bar): (o: Outcome)
    ensures o.next.value == s.value
    ensures IsBlank(s.value) ==> o.emitted == [""] && !o.next.isTyping && o.next.timer.None?
    ensures !IsBlank(s.value) ==>
      && o.emitted == [] && o.next.isTyping
      && o.next.timer == Some(Trim(s.value)) && Trim(s.value) != ""
  {
    if Trim(s.value) == "" then Outcome(Bar(s.value, false, None), [""])
    else Outcome(Bar(s.value, true, Some(Trim(s.value))), [])
  }

  /** The first render: the box holds `initial` and the effect runs once. */
  function Mount(initial: string): (o: Outcome)
    ensures Inv(o.next) && o.next.value == initial
    ensures o.emitted == (if IsBlank(initial) then [""] else [])
    ensures IsBlank(initial) ==> !o.next.isTyping && o.next.timer.None?
    ensures !IsBlank(initial) ==> o.next.isTyping && o.next.timer == Some(Trim(initial))
  {
    Effect(Bar(initial, false, None))
  }

  /** `showSpinner`, which also disables the Search button. */
  predicate ShowSpinner(s: Bar, loading: bool) {
    s.isTyping || loading
  }

  /** `handleSearch`: report the trimmed text and stop the typing indicator;
      the pending timer is left alone. */
  function Explicit(s: Bar): (o: Outcome)
    ensures o.emitted == [Trim(s.value)] && !o.next.isTyping
    ensures o.next.value == s.value && o.next.timer == s.timer
    ensures Inv(s) ==> Inv(o.next)
  {
    Outcome(s.(isTyping := false), [Trim(s.value)])
  }

  /** One event. Setting the text it already holds re-renders nothing, so
      the effect does not run. */
  function Step(s: Bar, e: Event): (o: Outcome)
    ensures |o.emitted| <= 1
    ensures e.Change? && e.v != s.value ==> o.next.value == e.v && o.next.timer in {None, Some(Trim(e.v))}
    ensures e.TimerFire? ==> o.next.timer.None? && o.emitted == (if s.timer.Some? then [s.timer.value] else [])
    ensures e.PressEnter? ==> o.emitted == [Trim(s.value)] && o.next.timer == s.timer && !o.next.isTyping
    ensures e.ClickButton? ==> (o.emitted != [] <==> !ShowSpinner(s, e.loading))
  {
    match e
    case Change(v) => if v == s.value then Outcome(s, []) else Effect(s.(value := v))
    case TimerFire =>
      (match s.timer
       case None => Outcome(s, [])
       case Some(q) => Outcome(s.(isTyping := false, timer := None), [q]))
    case PressEnter => Explicit(s)
    case ClickButton(loading) => if ShowSpinner(s, loading) then Outcome(s, []) else Explicit(s)
  }

  /** A sequence of events: the final state and every report, in order. */
  function Run(s: Bar, events: seq<Event>): (o: Outcome)
    ensures |o.emitted| <= |events|
    decreases |events|
  {
    if events == [] then Outcome(s, [])
    else
      var before := Run(s, events[..|events| - 1]);
      var last := Step(before.next, events[|events| - 1]);
      Outcome(last.next, before.emitted + last.emitted)
  }

  /** The component's invariant: the typing indicator is on only while a
      timer is pending, and a pending timer will report the current text,
      trimmed and non-empty. */
  predicate Inv(s: Bar) {
    && (s.isTyping ==> s.timer.Some?)
    && (s.timer.Some? ==> s.timer.value == Trim(s.value) && s.timer.value != "")
  }

  lemma StepKeepsInv(s: Bar, e: Event)
    requires Inv(s)
    ensures Inv(Step(s, e).next)
  {
  }

  /** The invariant survives any sequence of events. */
  lemma {:induction false} RunKeepsInv(s: Bar, events: seq<Event>)
    requires Inv(s)
    ensures Inv(Run(s, events).next)
    decreases |events|
  {
    if events != [] {
      var init := events[..|events| - 1];
      RunKeepsInv(s, init);
      StepKeepsInv(Run(s, init).next, events[|events| - 1]);
    }
  }

  /** A timer that fires reports the text in the box when it fires. */
  lemma TimerReportsCurrentText(s: Bar)
    requires Inv(s) && s.timer.Some?
    ensures Step(s, TimerFire).emitted == [Trim(s.value)]
  {
  }

  /** Clearing the box reports the empty query at once and cancels the
      pending timer, whatever was pending. */
  lemma ClearingReportsAtOnce(s: Bar, v: string)
    requires IsBlank(v) && v != s.value
    ensures Step(s, Change(v)) == Outcome(Bar(v, false, None), [""])
  {
  }

  /** The events of typing the texts `vs` in turn. */
  function Typing(vs: seq<string>): (es: seq<Event>)
    ensures |es| == |vs|
    ensures forall i :: 0 <= i < |vs| ==> es[i] == Change(vs[i])
  {
    seq(|vs|, i requires 0 <= i < |vs| => Change(vs[i]))
  }

  /** A burst of non-blank texts typed with no timer expiring in between
      reports nothing and leaves exactly one timer pending, for the last
      text. */
  lemma {:induction false} BurstLeavesOneTimer(s: Bar, vs: seq<string>)
    requires |vs| >= 1
    requires forall i :: 0 <= i < |vs| ==> !IsBlank(vs[i])
    requires vs[0] != s.value || (s.isTyping && s.timer == Some(Trim(s.value)))
    ensures var o := Run(s, Typing(vs));
      && o.emitted == []
      && o.next == Bar(vs[|vs| - 1], true, Some(Trim(vs[|vs| - 1])))
    decreases |vs|
  {
    var n := |vs|;
    var es := Typing(vs);
    var before := Run(s, es[..n - 1]);
    if n == 1 {
      assert es[..0] == [];
      assert before == Outcome(s, []);
    } else {
      assert es[..n - 1] == Typing(vs[..n - 1]);
      BurstLeavesOneTimer(s, vs[..n - 1]);
      assert before.next == Bar(vs[n - 2], true, Some(Trim(vs[n - 2])));
    }
    assert es[n - 1] == Change(vs[n - 1]);
    var last := Step(before.next, es[n - 1]);
    assert last == Outcome(Bar(vs[n - 1], true, Some(Trim(vs[n - 1]))), []);
    assert Run(s, es) == Outcome(last.next, before.emitted + last.emitted);
  }

  /** ... so when the quiet interval then passes, the burst is reported
      once, as its last text trimmed. */
  lemma BurstCoalesces(s: Bar, vs: seq<string>)
    requires |vs| >= 1
    requires forall i :: 0 <= i < |vs| ==> !IsBlank(vs[i])
    requires vs[0] != s.value || (s.isTyping && s.timer == Some(Trim(s.value)))
    ensures Run(s, Typing(vs) + [TimerFire]).emitted == [Trim(vs[|vs| - 1])]
    ensures !Run(s, Typing(vs) + [TimerFire]).next.isTyping
  {
    var es := Typing(vs) + [TimerFire];
    assert es[..|es| - 1] == Typing(vs);
    BurstLeavesOneTimer(s, vs);
  }

  /** Enter does not cancel the pending timer: pressing it while a timer is
      pending reports the text now, and the timer reports it again. */
  lemma EnterThenTimerReportsTwice(s: Bar)
    requires Inv(s) && s.timer.Some?
    ensures Run(s, [PressEnter, TimerFire]).emitted == [Trim(s.value), Trim(s.value)]
  {
    assert [PressEnter, TimerFire][..1] == [PressEnter];
    assert [PressEnter][..0] == [];
  }

  /** The button reports only when the spinner is hidden; Enter always
      reports. */
  lemma ButtonDisabledWhileSpinning(s: Bar, loading: bool)
    ensures Step(s, ClickButton(loading)).emitted ==
      (if ShowSpinner(s, loading) then [] else Step(s, PressEnter).emitted)
  {
  }
}

/** The search box's state as an object whose methods react to events. */
module SearchBarComponent {
  import opened Basics
  import opened Strings
  import Debounce

  class SearchBar {
    /** The text in the box. */
    var value: string
    var isTyping: bool
    /** `timer.current`: the text the pending timer will report, if any. */
    var timer: Option<string>
    /** The calls made to `onSearch` so far, oldest first. */
    var emitted: seq<string>

    ghost function Snapshot(): Debounce.Bar
      reads this
    {
      Debounce.Bar(value, isTyping, timer)
    }

    ghost predicate Valid()
      reads this
    {
      Debounce.Inv(Snapshot())
    }

    /** The first render with `initial` in the box, and its effect. */
    constructor(initial: string)
      ensures Valid()
      ensures Snapshot() == Debounce.Mount(initial).next
      ensures emitted == Debounce.Mount(initial).emitted
    {
      value := initial;
      isTyping := false;
      timer := None;
      emitted := [];
      new;
      ValueEffect();
    }

    /** The effect that runs whenever `value` changes. */
    method ValueEffect()
      modifies this
      ensures value == old(value)
      ensures Snapshot() == Debounce.Effect(old(Snapshot())).next
      ensures emitted == old(emitted) + Debounce.Effect(old(Snapshot())).emitted
    {
      timer := None;
      var trimmed := Trim(value);
      if trimmed == "" {
        emitted := emitted + [""];
        isTyping := false;
        return;
      }
      isTyping := true;
      timer := Some(trimmed);
    }

    /** The input's `onChange` with the new text `v`. */
    method OnChange(v: string)
      requires Valid()
      modifies this
      ensures Valid()
      ensures Snapshot() == Debounce.Step(old(Snapshot()), Debounce.Change(v)).next
      ensures emitted == old(emitted) + Debounce.Step(old(Snapshot()), Debounce.Change(v)).emitted
    {
      if v != value {
        value := v;
        ValueEffect();
      }
    }

    /** The pending timer expires. */
    method TimerFired()
      requires Valid()
      modifies this
      ensures Valid()
      ensures Snapshot() == Debounce.Step(old(Snapshot()), Debounce.TimerFire).next
      ensures emitted == old(emitted) + Debounce.Step(old(Snapshot()), Debounce.TimerFire).emitted
    {
      if timer.Some? {
        emitted := emitted + [timer.value];
        isTyping := false;
        timer := None;
      }
    }

    /** `handleSearch`: report the trimmed text now. */
    method HandleSearch()
      requires Valid()
      modifies this
      ensures Valid()
      ensures Snapshot() == Debounce.Step(old(Snapshot()), Debounce.PressEnter).next
      ensures emitted == old(emitted) + Debounce.Step(old(Snapshot()), Debounce.PressEnter).emitted
    {
      var trimmed := Trim(value);
      emitted := emitted + [trimmed];
      isTyping := false;
    }

    /** A click on the Search button, which is disabled while the spinner
        shows. */
    method ClickButton(loading: bool)
      requires Valid()
      modifies this
      ensures Valid()
      ensures Snapshot() == Debounce.Step(old(Snapshot()), Debounce.ClickButton(loading)).next
      ensures emitted == old(emitted) + Debounce.Step(old(Snapshot()), Debounce.ClickButton(loading)).emitted
    {
      if !ShowSpinner(loading) {
        HandleSearch();
      }
    }

    /** `showSpinner` for the app's loading flag `loading`. */
    function ShowSpinner(loading: bool): (b: bool)
      reads this
      ensures b == Debounce.ShowSpinner(Snapshot(), loading)
      ensures !b ==> !isTyping
    {
      isTyping || loading
    }
  }
}
