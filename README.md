# Navigation controller of the AppUI web-view shell

The app shows a remote website in an embedded web view and puts a three-button
tab bar (places, chat, profile) under it. The only logic with behaviour of its
own is the controller inside the root screen (`RootLayout`): it builds the
address for a tab press, decides between reloading the web view in place and
switching to a new address, keeps the highlighted tab, and drives the loading
overlay with a fade-in on navigation and a fade-out on load-end.

The model has two modules:

- `Config` (`config.dfy`): the `config.xampp` record (`url` and optional `path`)
  and `getXamppUrl`, which concatenates them.
- `Layout` (`layout.dfy`): the screen's state as a value (`Screen`: current
  address, loading flag, highlighted tab, overlay fade target, whether a
  fade-out is running, and a count of `reload()` calls), one function per event,
  and `Step`/`Run` to compose them. The lemmas about event sequences are proved
  on these values. The class `RootLayout` keeps the same state in fields. Its
  handlers assign those fields as the React setters do. `PressTab`,
  `OnLoadStart`, `HandleLoadEnd` and `FadeOutComplete` each promise that the
  new state is `Step` of the old one, and each keeps the invariant `Inv`.
  `NavigateToPage` accepts any parameters and tab name. It promises that the
  new state is `Navigate` of the old one and keeps no invariant. Only
  `PressTab`, which passes a button's own pair, keeps it.

Each React `setState` call in a handler is a direct field assignment. The
comparison in `navigateToPage` reads the address committed before the press.
The configuration is a constructor argument instead of a module constant. The
shipped values are `Config.Shipped`.

Some behaviour follows from the code as written:

- A press on the tab whose address is already shown changes only the
  highlighted tab. It also issues a reload when the web view reference is set.
- After any press, the highlighted tab and the shown address belong together,
  and the bare first address is never shown again. They disagree only before
  the first press.
- Starting an animation on the overlay value stops the one running on it. A
  stopped fade-out runs its completion callback at once. That callback ignores
  whether its animation finished and lowers the loading flag. So at most one
  fade-out runs at a time, and its callback never runs after a later press to
  a new address or a later load-end. Such a press made during the fade-out
  ends with the new address and the overlay aimed at 1, but with the flag down
  (`Layout.InterruptedFadeOutLowersFlag`). The overlay stays hidden until the
  new page's load-start raises the flag again. A second load-end during a
  fade-out likewise lowers the flag at once.

## Model

| member | source | states |
|---|---|---|
| `Config.GetXamppUrl` | config.ts:28-32 | the result is `url` followed by `path` (or "" when absent): it starts with `url`, the rest is the path, the length is the sum |
| `Config.NoPathGivesBareUrl` | config.ts:30-31 | with no path or an empty path the address is `url` unchanged |
| `Config.ShippedXamppUrl` | config.ts:10-13 | with the shipped values the address is `https://myaou.atract.me/index.php` |
| `Layout.TargetUrl` | app/_layout.tsx:18-20 | the address a press builds is exactly `getXamppUrl()` followed by the parameters, with no encoding; its tail after that prefix is the parameters |
| `Layout.ButtonStyle` | app/_layout.tsx:56-61 | the button carries the active style if and only if `activeTab` equals the tab name; the base style always comes first |
| `Layout.IndicatorStyle` | app/_layout.tsx:63-68 | the indicator carries the active style if and only if `activeTab` equals the tab name; the base style always comes first |
| `Layout.PressEffect` | app/_layout.tsx:17-53 | a press always sets the tab; on the same address, the address, flag, fade target and running fade-out are unchanged, and one reload is issued exactly when the view is attached; on a new address, the address becomes the target, the fade target is 1, no fade-out runs any more, no reload is issued, and the flag is up exactly when no fade-out was running (an interrupted fade-out's callback lowers it) |
| `Layout.PressHighlightsOnlyPressed` | app/_layout.tsx:23 | after a press, a button or indicator is drawn active exactly when it belongs to the pressed tab |
| `Layout.ExactlyOneHighlighted` | app/_layout.tsx:56-68 | in every state of the invariant exactly one of the three tabs is drawn active |
| `Layout.LoadStartOnlyRaisesFlag` | app/_layout.tsx:84 | load-start sets the loading flag and changes nothing else |
| `Layout.LoadEndStartsFadeOut` | app/_layout.tsx:45-54 | load-end aims the overlay at 0 and starts a fade-out without touching address, tab or reloads; the flag is kept unless an earlier fade-out was running (its callback lowers it); the new fade-out's callback then lowers the flag |
| `Layout.FlagLoweredOnlyByFadeOut` | app/_layout.tsx:17-84 | the flag goes from up to down only while a fade-out runs, and only by its finishing, by a load-end, or by a press to a new address that interrupts it |
| `Layout.StepKeepsInv` | app/_layout.tsx:11-84 | every event keeps the invariant: the fade target is 0 or 1 and is 0 while a fade-out runs, and either the first address is shown with "places", or the highlighted tab's address is shown |
| `Layout.RunKeepsInv` | app/_layout.tsx:11-84 | any feasible sequence of events keeps the invariant |
| `Layout.ReachableStates` | app/_layout.tsx:11-136 | from the mount state, after any events, the address is `getXamppUrl()` alone or followed by one of the three tabs' parameters, the tab is one of the three names, and exactly one tab is drawn active |
| `Layout.FlagHoldsUntilLoadEnd` | app/_layout.tsx:17-84 | once the flag is up with no fade-out running, it stays up and no fade-out runs through any events that contain no load-end |
| `Layout.OnlyPressesNavigate` | app/_layout.tsx:45-84 | events other than presses change neither the address, nor the tab, nor the reload count |
| `Layout.FirstAddressIsNoTabAddress` | app/_layout.tsx:11-20 | the first address `getXamppUrl()` differs from every tab's address, since each tab's parameters are non-empty |
| `Layout.StaysOnTab` | app/_layout.tsx:17-84 | once the highlighted tab's address is shown, some tab's address is shown together with that tab after any further events |
| `Layout.PressLeavesTabShown` | app/_layout.tsx:11-136 | after any events that include a press, the highlighted tab's address is shown and the address is not the bare first one |
| `Layout.SecondPressOnlyReloads` | app/_layout.tsx:26-31 | pressing the same tab twice in a row: the second press keeps the address, flag, fade target and tab, and adds one reload exactly when the view is attached |
| `Layout.NavigationCycle` | app/_layout.tsx:34-84 | a press to a new address aims the overlay at 1 and raises the flag unless it interrupted a fade-out; the new page's load-start raises it in any case; then load-end and its completion lower the flag, aim at 0, and keep the pressed tab's address |
| `Layout.InterruptedFadeOutLowersFlag` | app/_layout.tsx:34-53 | a press to a new address right after load-end stops the fade-out, whose callback lowers the flag: the address is the new one, the fade target 1, no fade-out runs, and the next load-start raises the flag |
| `Layout.ExampleAddresses` | app/_layout.tsx:115-133 | for root `https://example.com` and path `/index.php` the three tabs ask for `…/index.php?app=1`, `…?view=chat&app=1` and `…?view=account&app=1` |
| `Layout.RootLayout.constructor` | app/_layout.tsx:11-14 | at mount the address is `getXamppUrl()`, the flag is down, the tab is "places" and the fade target is 0 |
| `Layout.RootLayout.AnimateFade` | app/_layout.tsx:38-53 | starting a fade sets its target; a running fade-out is stopped and its callback lowers the flag first |
| `Layout.RootLayout.NavigateToPage` | app/_layout.tsx:17-43 | for any parameters and tab name: sets the tab; the same-address branch changes only the reload count (when attached); the new-address branch sets the address and fade target 1, stops a running fade-out, and leaves the flag up exactly when none was running |
| `Layout.RootLayout.PressTab` | app/_layout.tsx:113-136 | a button press keeps the invariant and leaves the pressed tab highlighted with its address shown |
| `Layout.RootLayout.OnLoadStart` | app/_layout.tsx:84 | keeps the invariant; the new state is the old one with the flag up |
| `Layout.RootLayout.HandleLoadEnd` | app/_layout.tsx:45-54 | keeps the invariant; the new state is the old one aimed at 0 with a fade-out running, and the flag lowered exactly when an earlier fade-out was running |
| `Layout.RootLayout.FadeOutComplete` | app/_layout.tsx:51-53 | keeps the invariant; the new state is the old one with the flag down and no fade-out running |

## Left out

- Rendering: JSX, the `StyleSheet` values, icons, the status bar and the
  activity indicator. They only present the state. Style arrays are reduced to
  tags (`Layout.Style`), and the `false` entry of an inactive tab is dropped.
- The web view itself: fetching, scripts, its configuration flags, and whether
  its reference is set. That reference is the `viewAttached` input. `reload()`
  appears only as a count of calls. In-page navigation changes what the view
  shows but not `currentUrl`, and that is not modelled.
- `Animated.timing`: durations, easing, the native driver and the opacity
  values in between. Only the target (0 or 1) is modelled, with whether a
  fade-out is running. Its natural end is a separate event, allowed only while
  it runs. When a later animation on the same value stops it, its callback runs
  at once, inside the handler that started that animation. The fade-in has no
  callback.
- Safe-area insets and the `Platform.OS` margins. They are platform inputs that
  affect layout only.
- The `key={currentUrl}` remount. A change of address recreates the view, and
  that is not modelled beyond the address change.
- React's render scheduling and batching. All setter calls of one handler take
  effect together, before the next event, in the order they were made. That
  includes the calls made by a fade-out callback run inside the handler.
