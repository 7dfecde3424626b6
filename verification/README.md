# In-app browser overlay: navigation history, popover menu and header

A model of the state logic of a React Native in-app browser overlay: a modal
web view with a header (close, back and forward buttons, a title, an overflow
menu). Three pieces carry logic:

- **Navigation history** (`history.dfy`, module `History`; wiring in
  `browser.dfy`, module `Browser`). The overlay keeps the URL being shown and
  two most-recent-last stacks of URLs: back and forward. A navigation
  reported by the web view pushes the old URL on the back stack and fires the
  host's `onGoForward`; back and forward move one URL between the stacks and
  fire `onGoBack` / `onGoForward`; closing resets to the configured URL. The
  history is also viewed as a single *trail* — back stack, current URL,
  forward stack read top-down — with a cursor on the current URL: back and
  forward move the cursor without changing the trail, and a new navigation
  inserts its URL right after the cursor, keeping everything ahead of it.
- **Popover menu** (`placement.dfy`, module `Placement`, and `menu.dfy`,
  module `Menu`). The menu is HIDDEN, ANIMATING or SHOWN. `show` measures the
  trigger and goes straight to SHOWN; the first layout event of the menu's
  content enters ANIMATING, records the content size and sets the mounted
  flag; setting that flag runs the placement effect, which flips the menu
  horizontally and/or vertically or clamps it to an 8-pixel screen margin.
  The effect is modelled as the list of state writes it issues, committed
  last-write-wins, so the overwritten top write of a vertical flip is part of
  the model. The mounted flag is never cleared, so the placement effect runs
  once per component lifetime. The layout handler is modelled reading the
  live state; under that reading the entrance animation also plays only
  once (see "## Left out" for what the memoised handler does instead).
- **Header** (`header.dfy`, module `Header`). Which image each button shows,
  the title colour, and which elements are rendered.

`options.dfy` holds the `Option` type used throughout.

Behaviour of the code that the model keeps as it is:

- The code keeps no disjointness invariant between the two stacks: a new
  navigation does not clear the forward stack, so a URL can be current and
  next at once (`History.RepeatsAcrossStacks`).
- `show` sets SHOWN directly, and nothing moves ANIMATING to SHOWN except a
  later `show`. Reading the layout handler over the live state, ANIMATING is
  entered only by the first layout event.
- The placement effect depends only on the mounted flag and runs once
  (`Menu.PlacementAtMostOnce`, `Menu.LaterShowUnplaced`); it is not re-run
  on a later show or when the window changes.

## Model

| member | source | states |
|---|---|---|
| History.Open | index.tsx:61-63 | A new overlay shows the configured URL with both stacks empty, so neither button is enabled. |
| History.CanGoBack | index.tsx:129 | Back is possible exactly when the cursor is not at the start of the trail, that is, when there is an earlier URL. |
| History.CanGoForward | index.tsx:128 | Forward is possible exactly when the cursor is not at the end of the trail, that is, when there is a later URL. |
| History.RecordNavigation | index.tsx:71-79 | Reporting the current URL again changes nothing and fires nothing; a new URL pushes the old one on the back stack, becomes current, leaves the forward stack alone, fires onGoForward, and grows the stacks by exactly one. |
| History.GoBack | index.tsx:81-90 | With an empty back stack nothing changes and nothing fires (and only then); otherwise the top of the back stack becomes current and leaves that stack, the old URL goes on the forward stack, onGoBack fires, and the stack total is kept. |
| History.GoForward | index.tsx:92-101 | The mirror image of going back: inert exactly when the forward stack is empty, otherwise the top forward URL becomes current, the old one goes on the back stack, onGoForward fires, and the stack total is kept. |
| History.Close | index.tsx:103-110 | Closing resets to the configured URL with both stacks empty, whatever the history held. |
| History.TrailRoundTrip | index.tsx:61-63 | A history is recovered exactly from its trail and cursor. |
| History.FromTrailRoundTrip | index.tsx:61-63 | Every trail with an in-range cursor is the trail of the history built from it. |
| History.GoBackMovesCursorLeft | index.tsx:81-90 | Going back keeps the trail and moves the cursor one place left. |
| History.GoForwardMovesCursorRight | index.tsx:92-101 | Going forward keeps the trail and moves the cursor one place right. |
| History.NavigateInsertsAfterCursor | index.tsx:73-79 | A new navigation inserts its URL right after the cursor and moves onto it; the forward part of the trail is kept. |
| History.BackThenForward | index.tsx:81-101 | Back then forward, when back is possible, restores current URL and both stacks exactly. |
| History.ForwardThenBack | index.tsx:81-101 | Forward then back, when forward is possible, restores current URL and both stacks exactly. |
| History.CanGoBackIffBackActs | index.tsx:81-90 | The back button's enabled flag (a non-empty back stack, line 129) holds exactly when pressing back changes the history, and exactly when it fires onGoBack. |
| History.CanGoForwardIffForwardActs | index.tsx:92-101 | The forward button's enabled flag (a non-empty forward stack, line 128) holds exactly when pressing forward changes the history, and exactly when it fires onGoForward. |
| History.NavigateAllPushes | index.tsx:73-79 | After navigations each different from the one before, all URLs but the last are on top of the back stack in order, the last is current, and the forward stack is untouched. |
| History.FreshNavigationsCount | index.tsx:61-79 | From a fresh overlay, n such navigations leave n URLs on the back stack, the last URL current, and forward disabled. |
| History.RunNeverForgets | index.tsx:71-101 | No sequence of navigations, backs and forwards shortens the trail, and each action adds at most one URL to the stacks. |
| History.RepeatsAcrossStacks | index.tsx:74-89 | Navigating a to b, going back, then being sent to b again leaves b both current and on the forward stack. |
| Placement.WindowHeight | components/Menu.tsx:52-53 | The usable height is the window height less the status bar height, an absent status bar counting as zero. |
| Placement.Place | components/Menu.tsx:162-192 | The horizontal flip happens exactly under the right-to-left or left-to-right overflow test; flipped, left becomes min(window width − 8, left + button width); unflipped, a left below 8 becomes 8 and any other is kept. The vertical flip happens exactly when top exceeds window height − menu height − 8; flipped, top becomes min(window height − 8, top + button height); unflipped, a top below 8 becomes 8. The transform list holds one entry per flipped axis, X before Y. |
| Placement.PlaceSteps | components/Menu.tsx:164-190 | Committing the effect's setter calls in program order, the last write to each piece of state winning, gives the flipped or clamped left and top and the transform list with X before Y; a coordinate neither flipped nor clamped keeps its previous value. |
| Placement.FirstTopWriteDiscarded | components/Menu.tsx:180-186 | On a vertical flip the effect first writes window height − 8 as the top, and that write is overwritten whenever the trigger's bottom edge is above the margin. |
| Placement.FlippedLeftBounded | components/Menu.tsx:166-174 | A horizontally flipped menu is anchored no further right than the trailing margin and no further than the trigger's far edge. |
| Placement.UnflippedLeftBounded | components/Menu.tsx:166-177 | An unflipped menu starts at or after the leading margin, and in left-to-right layouts a trigger clear of that margin leaves the whole menu inside the trailing margin. |
| Placement.FlippedTopBounded | components/Menu.tsx:180-186 | A vertically flipped menu hangs from a top no lower than the bottom margin and no lower than the trigger's bottom edge. |
| Placement.UnflippedTopBounded | components/Menu.tsx:180-189 | An unflipped menu starts at or below the top margin, and from a trigger clear of that margin the whole menu is above the bottom margin. |
| Placement.TransformsReplaced | components/Menu.tsx:164-190 | The placement, transform list included, does not depend on the transforms set before. |
| Placement.WideMenuFlipsX | components/Menu.tsx:166-174 | In a 320x640 window, a 30x30 trigger at (280, 100) with a 100x50 menu flips horizontally only and is anchored at x = 310. |
| Placement.LowMenuFlipsY | components/Menu.tsx:180-186 | In the same window, a 20x10 trigger at (10, 620) with a 100x80 menu flips vertically only and hangs from y = 630. |
| Menu.Initial | components/Menu.tsx:58-75 | A new menu is hidden, unmounted and its modal is not visible. |
| Menu.Show | components/Menu.tsx:127-137 | A measured show records the trigger's position and size and sets SHOWN, changing nothing else; an unmeasured show changes nothing; show never enters ANIMATING. |
| Menu.OnLayout | components/Menu.tsx:104-119 | Once mounted the handler changes nothing; unmounted and ANIMATING it changes nothing; otherwise it enters ANIMATING, records the content size and sets mounted. |
| Menu.PlacementEffect | components/Menu.tsx:162-192 | Unmounted, nothing changes; mounted, left, top and transforms take the placement's values and nothing else changes, and each coordinate is at least 8 unless its axis flipped. |
| Menu.HideComplete | components/Menu.tsx:145-150 | From any state, the menu ends HIDDEN with the animated size at (0, 0) and opacity 0, the modal hidden and the mounted flag unchanged. |
| Menu.Handle | components/Menu.tsx:104-192 | The placement runs exactly on a layout event of an unmounted menu that is not animating; no event clears the mounted flag. |
| Menu.AnimatingOnlyFromFirstLayout | components/Menu.tsx:104-137 | From a non-animating menu, an event enters ANIMATING exactly when it is a layout event and the menu is not yet mounted. |
| Menu.MountedStays | components/Menu.tsx:104-150 | Once mounted, a menu stays mounted through any events and the placement never runs again. |
| Menu.PlacementAtMostOnce | components/Menu.tsx:162-192 | Over any sequence of events the placement effect runs at most once, and never if the menu starts mounted. |
| Menu.NoSecondEntrance | components/Menu.tsx:104-137 | A mounted menu that is not animating never enters ANIMATING again, whatever events follow. |
| Menu.ModalVisible | components/Menu.tsx:207-208 | The modal is visible exactly when the menu is not hidden. |
| Menu.HideCompleteIdempotent | components/Menu.tsx:145-150 | Completing a hide twice is the same as completing it once. |
| Menu.LayoutOnce | components/Menu.tsx:104-119 | A second layout event after the first changes nothing, so the entrance is not restarted. |
| Menu.ShowMakesVisible | components/Menu.tsx:127-137 | A measured show always makes the modal visible in state SHOWN. |
| Menu.LaterShowUnplaced | components/Menu.tsx:127-192 | Once mounted, a new show followed by a layout event leaves the menu SHOWN at the raw trigger position with no placement run. |
| Header.BackImage | components/Header.tsx:54-56 | The back image is the disabled arrow exactly when back is impossible; otherwise it is the back arrow drawn for the content type. |
| Header.ForwardImage | components/Header.tsx:58-60 | The forward image is the disabled arrow exactly when forward is impossible; otherwise it is the forward arrow drawn for the content type. |
| Header.CloseIcon | components/Header.tsx:65-71 | A supplied close icon is used as is; otherwise the bundled cross drawn for the content type. |
| Header.TitleColor | components/Header.tsx:84-87 | The title uses the default background colour exactly for light content, the dark colour otherwise. |
| Header.MenuImage | components/CustomMenu.tsx:105-110 | The menu button shows the dots image drawn for the content type. |
| Header.Render | components/Header.tsx:62-107 | The header renders six elements with navigation visible and four without, starting with the close button and its icon, ending with the menu button and its image, always with the title in its colour; with navigation visible, the second element is the back button showing the back image and the fifth the forward button showing the forward image. |
| Header.NavigationButtonsIffVisible | components/Header.tsx:63-106 | Back and forward buttons are each rendered exactly when navigation is visible; the close button and the menu always are. |
| Header.ImagesMatchContentType | components/Header.tsx:52-60 | Every enabled back or forward image in the header is drawn for the header's content type. |
| Browser.ContentTypeOf | index.tsx:42 | The header content type is dark unless configured. |
| Browser.NavigationVisibleOf | index.tsx:53 | Navigation buttons are visible unless configured otherwise. |
| Browser.HeaderProps | index.tsx:117-133 | The header is told back is possible exactly when the back stack is non-empty and forward exactly when the forward stack is non-empty, with the configured content type, visibility and close icon. |
| Browser.ArrowsDisabledIffInert | index.tsx:128-129 | Each arrow is greyed out exactly when pressing it leaves the history unchanged. |
| Browser.ClosedHeaderArrowsDisabled | index.tsx:103-110 | After closing, both arrows are greyed out. |

## Left out

- The 200 ms delay before the reset on close (index.tsx:105): the reset is modelled as immediate; the timer race is concurrency.
- React artefacts: the stale closure of the layout handler created with an empty dependency list (components/Menu.tsx:104-119) and the in-place mutation of the stack arrays before their setters (index.tsx:75-76, 84-88, 95-98). The logic is modelled over explicit, live state.
- Browser.ArrowsDisabledIffInert: because the stack setters receive the same array they already hold, a back or forward press whose new URL equals the current one hands every setter an unchanged value (index.tsx:85, 88, 89, 96, 98, 99), React skips the re-render, and the header keeps the flags it was last given at index.tsx:128-129. For example, after navigating a to b, pressing back, the web view reporting b and pressing forward, the forward stack is empty but the forward arrow stays enabled. This lemma and Browser.HeaderProps hold only of a header re-rendered from the current stacks.
- Menu.OnLayout: the memoised handler always sees `menuMounted` false and the state HIDDEN, so in the running component every layout event sets ANIMATING, and each later show that remounts the modal's content replays the entrance animation; only the placement effect runs once. Menu.NoSecondEntrance, Menu.LayoutOnce, Menu.AnimatingOnlyFromFirstLayout and the `state == Shown` clause of Menu.LaterShowUnplaced hold of the live-state reading only.
- `fired` names the callback a transition calls when the host supplied it (index.tsx:77, 86, 100); absent optional callbacks, and the `onPressClose` call made immediately on close (index.tsx:104), are not modelled.
- The order in which a transition fires its callback relative to its state writes: the model reports which callback fires, not when.
- All `Animated` timing, easing and durations (components/Menu.tsx:46, 79-92, 140-150): the animated size and opacity are recorded only as the values set explicitly at hide completion.
- The hide request itself (starting the fade-out): only its completion changes state.
- The `onHidden` callback, including its platform-dependent double call (components/Menu.tsx:94-100), and `onDismiss`: callback plumbing.
- `measureInWindow`, `useWindowDimensions`, `StatusBar.currentHeight` and `I18nManager` are inputs (`Menu.Event`, `Placement.Env`), not computed.
- The right-to-left style swap from `left` to `right` (components/Menu.tsx:200): rendering only.
- Geometry is exact `real` arithmetic. Measured positions and sizes are fractional values and JavaScript's floating-point `+` and `-` round them, so a flip test near its boundary (components/Menu.tsx:166-168, 180) may come out differently in the running code; that rounding is not modelled.
- Header.CloseIcon: a supplied close icon that is falsy in JavaScript (such as the number 0) would be ignored by the source; the model treats any supplied icon as present.
- The progress bars (components/Progress.tsx, components/BackgroundProgress.tsx): floating-point animation drivers; the header only records where the bar is placed.
- components/CustomMenu.tsx apart from the menu button's image (clipboard, opening URLs, alerts, menu items), components/MenuItem.tsx, components/MenuDivider.tsx, the WebView, the Modal, the injected title script and styles: UI wiring and rendering.
- res/images.ts is asset imports; images are the enumeration `Header.Image`. The colour values of `colors` are not part of this model; colours are the enumeration `Header.Color`.
