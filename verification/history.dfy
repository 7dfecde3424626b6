/** The navigation history kept by the browser overlay (index.tsx).

    The state is the URL being shown plus two stacks, both most-recent-last:
    the URLs one can go back to and the URLs one can go forward to. Each
    transition returns the new state together with the host callback it
    fires, if any. A navigation reported by the web view does NOT clear the
    forward stack, and URLs may repeat across the stacks. */
module History {
  import opened Options

  /** The host callbacks a transition may fire (`onGoBack`, `onGoForward`). */
  datatype Callback = OnGoBack | OnGoForward

  datatype History = History(current: string, back: seq<string>, forward: seq<string>)

  /** A transition's outcome: the new state and the callback fired. */
  datatype Step = Step(state: History, fired: Option<Callback>)

  /** A user or web-view action on the history. */
  datatype Action = Navigate(url: string) | PressBack | PressForward

  /** The state the overlay starts in for the configured `url`. */
  function Open(url: string): (h: History)
    ensures h.current == url
    ensures !CanGoBack(h) && !CanGoForward(h)
  {
    History(url, [], [])
  }

  /** Whether the back button is enabled: there is an earlier URL in the
      trail. */
  function CanGoBack(h: History): (b: bool)
    ensures b <==> Cursor(h) > 0
  {
    |h.back| > 0
  }

  /** Whether the forward button is enabled: there is a later URL in the
      trail. */
  function CanGoForward(h: History): (b: bool)
    ensures b <==> Cursor(h) < |Trail(h)| - 1
  {
    |h.forward| > 0
  }

  function Last(s: seq<string>): string
    requires |s| > 0
  {
    s[|s| - 1]
  }

  /** Total number of URLs held on the two stacks. */
  function StackSize(h: History): nat {
    |h.back| + |h.forward|
  }

  /** The web view reports that it now shows `url`. */
  function RecordNavigation(h: History, url: string): (r: Step)
    ensures url == h.current ==> r == Step(h, None)
    ensures url != h.current ==>
      && r.state.current == url
      && r.state.back == h.back + [h.current]
      && r.state.forward == h.forward
      && r.fired == Some(OnGoForward)
    ensures url != h.current ==> StackSize(r.state) == StackSize(h) + 1
  {
    if h.current == url then Step(h, None)
    else Step(History(url, h.back + [h.current], h.forward), Some(OnGoForward))
  }

  /** The back button is pressed. */
  function GoBack(h: History): (r: Step)
    ensures !CanGoBack(h) <==> r == Step(h, None)
    ensures CanGoBack(h) ==>
      && r.state.back + [r.state.current] == h.back
      && r.state.forward == h.forward + [h.current]
      && r.fired == Some(OnGoBack)
    ensures StackSize(r.state) == StackSize(h)
  {
    if |h.back| == 0 then Step(h, None)
    else
      var newUrl := Last(h.back);
      Step(History(newUrl, h.back[..|h.back| - 1], h.forward + [h.current]), Some(OnGoBack))
  }

  /** The forward button is pressed. */
  function GoForward(h: History): (r: Step)
    ensures !CanGoForward(h) <==> r == Step(h, None)
    ensures CanGoForward(h) ==>
      && r.state.forward + [r.state.current] == h.forward
      && r.state.back == h.back + [h.current]
      && r.fired == Some(OnGoForward)
    ensures StackSize(r.state) == StackSize(h)
  {
    if |h.forward| == 0 then Step(h, None)
    else
      var newUrl := Last(h.forward);
      Step(History(newUrl, h.back + [h.current], h.forward[..|h.forward| - 1]), Some(OnGoForward))
  }

  /** The overlay is closed: the history is reset to the configured `url`,
      whatever it held before. */
  function Close(h: History, url: string): (r: History)
    ensures r.current == url && r.back == [] && r.forward == []
    ensures !CanGoBack(r) && !CanGoForward(r)
  {
    Open(url)
  }

  /** Dispatches one action. */
  function Apply(h: History, a: Action): Step {
    match a
    case Navigate(url) => RecordNavigation(h, url)
    case PressBack => GoBack(h)
    case PressForward => GoForward(h)
  }

  /** The state after a sequence of actions. */
  function Run(h: History, acts: seq<Action>): History
    decreases |acts|
  {
    if |acts| == 0 then h else Run(Apply(h, acts[0]).state, acts[1..])
  }

  /** The state after the web view reports each of `urls` in turn. */
  function NavigateAll(h: History, urls: seq<string>): History
    decreases |urls|
  {
    if |urls| == 0 then h else NavigateAll(RecordNavigation(h, urls[0]).state, urls[1..])
  }

  // ---------------------------------------------------------------------
  // The trail view: the whole history as one list with a cursor on the
  // current URL. Back and forward move the cursor; a new navigation inserts
  // right after it.
  // ---------------------------------------------------------------------

  function Reverse(s: seq<string>): (r: seq<string>)
    ensures |r| == |s|
    ensures forall i :: 0 <= i < |s| ==> r[i] == s[|s| - 1 - i]
    decreases |s|
  {
    if |s| == 0 then [] else Reverse(s[1..]) + [s[0]]
  }

  /** Every URL of the history, oldest back entry first, newest forward
      entry last; the forward stack is read top-down. */
  function Trail(h: History): (t: seq<string>)
    ensures |t| == StackSize(h) + 1
    ensures t[Cursor(h)] == h.current
  {
    h.back + [h.current] + Reverse(h.forward)
  }

  /** Where the current URL sits in the trail. */
  function Cursor(h: History): nat {
    |h.back|
  }

  /** The history whose trail is `t` with the cursor at `i`. */
  function FromTrail(t: seq<string>, i: nat): (h: History)
    requires i < |t|
    ensures Cursor(h) == i && h.current == t[i]
    ensures StackSize(h) + 1 == |t|
  {
    History(t[i], t[..i], Reverse(t[i + 1..]))
  }

  /** A history is determined by its trail and cursor. */
  lemma TrailRoundTrip(h: History)
    ensures FromTrail(Trail(h), Cursor(h)) == h
  {
  }

  /** Every trail with a cursor is the trail of some history. */
  lemma FromTrailRoundTrip(t: seq<string>, i: nat)
    requires i < |t|
    ensures Trail(FromTrail(t, i)) == t
    ensures Cursor(FromTrail(t, i)) == i
  {
    var suffix := t[i + 1..];
    var back := Reverse(Reverse(suffix));
    assert forall k :: 0 <= k < |suffix| ==> back[k] == suffix[k];
    assert back == suffix;
    assert t[..i] + [t[i]] + suffix == t;
  }

  /** Going back keeps the trail and moves the cursor one step left. */
  lemma GoBackMovesCursorLeft(h: History)
    requires CanGoBack(h)
    ensures Trail(GoBack(h).state) == Trail(h)
    ensures Cursor(GoBack(h).state) == Cursor(h) - 1
  {
  }

  /** Going forward keeps the trail and moves the cursor one step right. */
  lemma GoForwardMovesCursorRight(h: History)
    requires CanGoForward(h)
    ensures Trail(GoForward(h).state) == Trail(h)
    ensures Cursor(GoForward(h).state) == Cursor(h) + 1
  {
  }

  /** A new navigation inserts the URL right after the cursor and moves onto
      it; everything ahead of the cursor (the forward stack) is kept. */
  lemma NavigateInsertsAfterCursor(h: History, url: string)
    requires url != h.current
    ensures Trail(RecordNavigation(h, url).state)
         == Trail(h)[..Cursor(h) + 1] + [url] + Trail(h)[Cursor(h) + 1..]
    ensures Cursor(RecordNavigation(h, url).state) == Cursor(h) + 1
  {
  }

  /** Back then forward restores the history exactly. */
  lemma BackThenForward(h: History)
    requires CanGoBack(h)
    ensures GoForward(GoBack(h).state).state == h
  {
  }

  /** Forward then back restores the history exactly. */
  lemma ForwardThenBack(h: History)
    requires CanGoForward(h)
    ensures GoBack(GoForward(h).state).state == h
  {
  }

  /** The back button acts exactly when it is enabled. */
  lemma CanGoBackIffBackActs(h: History)
    ensures CanGoBack(h) <==> GoBack(h).state != h
    ensures CanGoBack(h) <==> GoBack(h).fired == Some(OnGoBack)
  {
  }

  /** The forward button acts exactly when it is enabled. */
  lemma CanGoForwardIffForwardActs(h: History)
    ensures CanGoForward(h) <==> GoForward(h).state != h
    ensures CanGoForward(h) <==> GoForward(h).fired == Some(OnGoForward)
  {
  }

  /** No consecutive repeats, and the first URL differs from where we start. */
  predicate FreshSteps(start: string, urls: seq<string>) {
    && (|urls| > 0 ==> urls[0] != start)
    && forall i :: 0 < i < |urls| ==> urls[i] != urls[i - 1]
  }

  /** After a run of navigations, each different from the one before, every
      URL but the last is on the back stack in order, the last is current,
      and the forward stack is untouched. */
  lemma {:induction false} NavigateAllPushes(h: History, urls: seq<string>)
    requires |urls| > 0
    requires FreshSteps(h.current, urls)
    ensures NavigateAll(h, urls).current == urls[|urls| - 1]
    ensures NavigateAll(h, urls).back == h.back + [h.current] + urls[..|urls| - 1]
    ensures NavigateAll(h, urls).forward == h.forward
    decreases |urls|
  {
    var h1 := RecordNavigation(h, urls[0]).state;
    if |urls| == 1 {
    } else {
      assert FreshSteps(h1.current, urls[1..]);
      NavigateAllPushes(h1, urls[1..]);
      assert urls[1..][..|urls| - 2] == urls[1..|urls| - 1];
      assert [urls[0]] + urls[1..|urls| - 1] == urls[..|urls| - 1];
    }
  }

  /** From a freshly opened overlay, n distinct navigations leave n entries
      on the back stack and the last URL current. */
  lemma FreshNavigationsCount(url: string, urls: seq<string>)
    requires |urls| > 0
    requires FreshSteps(url, urls)
    ensures |NavigateAll(Open(url), urls).back| == |urls|
    ensures NavigateAll(Open(url), urls).current == urls[|urls| - 1]
    ensures !CanGoForward(NavigateAll(Open(url), urls))
  {
    NavigateAllPushes(Open(url), urls);
  }

  /** No action ever shortens the trail, and the stacks only grow by
      navigations to a new URL. */
  lemma {:induction false} RunNeverForgets(h: History, acts: seq<Action>)
    ensures |Trail(Run(h, acts))| >= |Trail(h)|
    ensures StackSize(Run(h, acts)) <= StackSize(h) + |acts|
    decreases |acts|
  {
    if |acts| > 0 {
      RunNeverForgets(Apply(h, acts[0]).state, acts[1..]);
    }
  }

  /** URLs may repeat across the stacks: after going back and then being
      sent to the page just left, that page is both current and next. */
  lemma RepeatsAcrossStacks()
    ensures
      var h := RecordNavigation(GoBack(RecordNavigation(Open("a"), "b").state).state, "b").state;
      h.current == "b" && h.forward == ["b"] && h.back == ["a"]
  {
  }
}
