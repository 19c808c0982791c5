/**
  The navigation controller of the root screen (app/_layout.tsx).

  The screen keeps four pieces of state: the address the embedded web
  view shows (`currentUrl`), whether the loading overlay is up
  (`isLoading`), which tab is highlighted (`activeTab`) and the opacity
  the overlay is fading towards. A tab press, the web view's load-start
  and load-end notifications, and the completion of the fade-out
  animation drive it.

  The behaviour is stated twice: once on values (the `Screen` datatype
  and one function per event, composed by `Step` and `Run`), where the
  properties over event sequences are proved, and once as the class
  `RootLayout`, whose handlers update its fields in place. `PressTab`,
  `OnLoadStart`, `HandleLoadEnd` and `FadeOutComplete` promise that the
  new state is `Step` of the old one and keep `Inv`. `NavigateToPage`
  accepts any parameters and tab name, so it promises `Navigate` and keeps
  no invariant; `PressTab` passes it a button's own pair.
 */
module Layout {
  import opened Config

  /** The three buttons of the tab bar. */
  datatype Tab = Places | Chat | Profile {
    /** The tab name passed to `navigateToPage`. */
    function Name(): string
    {
      match this
      case Places => "places"
      case Chat => "chat"
      case Profile => "profile"
    }

    /** The query string the button appends to the server address. */
    function Params(): string
    {
      match this
      case Places => "?app=1"
      case Chat => "?view=chat&app=1"
      case Profile => "?view=account&app=1"
    }
  }

  const TabNames: set<string> := {"places", "chat", "profile"}

  /** The tab highlighted when the screen mounts. */
  const InitialTab: string := "places"

  /** The address `navigateToPage` builds: root, path (or "") and the
      parameters, joined by plain concatenation. Its prefix is the same
      string `getXamppUrl` returns. */
  function TargetUrl(x: Xampp, params: string): (r: string)
    ensures r == GetXamppUrl(x) + params
    ensures |r| == |GetXamppUrl(x)| + |params|
    ensures r[|GetXamppUrl(x)|..] == params
  {
    x.url + PathOrEmpty(x) + params
  }

  /** The address a press on `t` asks for. */
  function TabUrl(x: Xampp, t: Tab): string
  {
    TargetUrl(x, t.Params())
  }

  /** Every address the screen can show: the first one and one per tab. */
  function ReachableUrls(x: Xampp): set<string>
  {
    {GetXamppUrl(x), TabUrl(x, Places), TabUrl(x, Chat), TabUrl(x, Profile)}
  }

  /** The style entries of the button and of the indicator above it. The
      JavaScript arrays hold `false` in place of the active style when the
      tab is not active; React Native ignores that entry, so it is left out. */
  datatype Style = NavButton | ActiveNavButton | Indicator | ActiveIndicator

  /** `getButtonStyle(tabName)`: the active style is present exactly when
      the tab is the active one. */
  function ButtonStyle(activeTab: string, tabName: string): (r: seq<Style>)
    ensures 1 <= |r| <= 2 && r[0] == NavButton
    ensures ActiveNavButton in r <==> activeTab == tabName
    ensures Indicator !in r && ActiveIndicator !in r
  {
    if activeTab == tabName then [NavButton, ActiveNavButton] else [NavButton]
  }

  /** `getIndicatorStyle(tabName)`: the same test as the button's. */
  function IndicatorStyle(activeTab: string, tabName: string): (r: seq<Style>)
    ensures 1 <= |r| <= 2 && r[0] == Indicator
    ensures ActiveIndicator in r <==> activeTab == tabName
    ensures NavButton !in r && ActiveNavButton !in r
  {
    if activeTab == tabName then [Indicator, ActiveIndicator] else [Indicator]
  }

  /** Whether the button of `t` is drawn as active. */
  predicate Highlighted(activeTab: string, t: Tab)
  {
    ActiveNavButton in ButtonStyle(activeTab, t.Name())
  }

  /** The state of the screen. `fadeTarget` is the value the overlay's
      opacity animation runs towards; `fadeOutRunning` says a fade-out
      started by `handleLoadEnd` is still running, so its completion
      callback has yet to run; `reloads` counts the `reload()` calls
      issued to the web view. */
  datatype Screen = Screen(
    currentUrl: string,
    isLoading: bool,
    activeTab: string,
    fadeTarget: int,
    fadeOutRunning: bool,
    reloads: nat)

  /** The state at mount. */
  function Init(x: Xampp): Screen
  {
    Screen(GetXamppUrl(x), false, InitialTab, 0, false, 0)
  }

  /** The fade-out's completion callback: the flag goes down. */
  function FadeOutDone(s: Screen): Screen
    requires s.fadeOutRunning
  {
    s.(isLoading := false, fadeOutRunning := false)
  }

  /** `Animated.timing(fadeAnim, …).start()`: starting an animation on the
      overlay value first stops the one running on it, and a stopped
      fade-out runs its completion callback at once (its `finished` flag,
      which the callback ignores, is false). */
  function StartFade(s: Screen, target: int): Screen
  {
    var stopped := if s.fadeOutRunning then FadeOutDone(s) else s;
    stopped.(fadeTarget := target)
  }

  /** `navigateToPage(params, tabName)`. `viewAttached` says whether the
      web view reference is set at the time of the press. */
  function Navigate(x: Xampp, s: Screen, params: string, tabName: string, viewAttached: bool): Screen
  {
    var target := TargetUrl(x, params);
    if target == s.currentUrl then
      s.(activeTab := tabName, reloads := if viewAttached then s.reloads + 1 else s.reloads)
    else
      StartFade(s.(activeTab := tabName, currentUrl := target, isLoading := true), 1)
  }

  /** The web view's `onLoadStart`. */
  function LoadStart(s: Screen): Screen
  {
    s.(isLoading := true)
  }

  /** `handleLoadEnd`: starts the fade-out, whose callback is now due. */
  function LoadEnd(s: Screen): Screen
  {
    StartFade(s, 0).(fadeOutRunning := true)
  }

  /** The events that reach the screen. */
  datatype Event =
    | Press(tab: Tab, viewAttached: bool)
    | LoadStarted
    | LoadEnded
    | FadeOutFinished

  /** A fade-out can only finish while it runs. */
  predicate Enabled(s: Screen, e: Event)
  {
    e.FadeOutFinished? ==> s.fadeOutRunning
  }

  function Step(x: Xampp, s: Screen, e: Event): Screen
    requires Enabled(s, e)
  {
    match e
    case Press(t, attached) => Navigate(x, s, t.Params(), t.Name(), attached)
    case LoadStarted => LoadStart(s)
    case LoadEnded => LoadEnd(s)
    case FadeOutFinished => FadeOutDone(s)
  }

  /** Every event of `evs` is enabled when it arrives. */
  predicate Feasible(x: Xampp, s: Screen, evs: seq<Event>)
    decreases |evs|
  {
    evs == [] || (Enabled(s, evs[0]) && Feasible(x, Step(x, s, evs[0]), evs[1..]))
  }

  function Run(x: Xampp, s: Screen, evs: seq<Event>): Screen
    requires Feasible(x, s, evs)
    decreases |evs|
  {
    if evs == [] then s else Run(x, Step(x, s, evs[0]), evs[1..])
  }

  /** The tab `t` is highlighted and its address is shown. */
  predicate Shows(x: Xampp, s: Screen, t: Tab)
  {
    s.activeTab == t.Name() && s.currentUrl == TabUrl(x, t)
  }

  /** What holds in every reachable state: either nothing was pressed yet
      in effect (first address, default tab) or the highlighted tab and
      the address belong together; the overlay fades towards 0 or 1, and
      towards 0 while a fade-out runs. */
  predicate Inv(x: Xampp, s: Screen)
  {
    && (s.fadeTarget == 0 || s.fadeTarget == 1)
    && (s.fadeOutRunning ==> s.fadeTarget == 0)
    && ((s.currentUrl == GetXamppUrl(x) && s.activeTab == InitialTab)
        || Shows(x, s, Places) || Shows(x, s, Chat) || Shows(x, s, Profile))
  }

  // ---------------------------------------------------------------------
  // Properties of single events

  /** A press always highlights the pressed tab. If the tab's address is
      already shown, nothing else changes but one reload is issued when
      the web view is attached. Otherwise the tab's address is shown, the
      overlay fades towards 1, no fade-out runs any more and no reload is
      issued; the flag is up unless the press interrupted a running
      fade-out, whose callback then lowered it. */
  lemma PressEffect(x: Xampp, s: Screen, t: Tab, viewAttached: bool)
    ensures var r := Step(x, s, Press(t, viewAttached));
      && r.activeTab == t.Name()
      && r.currentUrl == TabUrl(x, t)
      && (TabUrl(x, t) == s.currentUrl ==>
            && r.currentUrl == s.currentUrl
            && r.isLoading == s.isLoading
            && r.fadeTarget == s.fadeTarget
            && r.fadeOutRunning == s.fadeOutRunning
            && r.reloads == s.reloads + (if viewAttached then 1 else 0))
      && (TabUrl(x, t) != s.currentUrl ==>
            && r.isLoading == !s.fadeOutRunning
            && r.fadeTarget == 1 && !r.fadeOutRunning && r.reloads == s.reloads)
  {
  }

  /** After a press exactly one tab is highlighted, the pressed one, on
      the button and on the indicator alike. */
  lemma PressHighlightsOnlyPressed(x: Xampp, s: Screen, t: Tab, viewAttached: bool, u: Tab)
    ensures var r := Step(x, s, Press(t, viewAttached));
      && (Highlighted(r.activeTab, u) <==> u == t)
      && (ActiveIndicator in IndicatorStyle(r.activeTab, u.Name()) <==> u == t)
  {
  }

  /** In a state of the invariant exactly one tab is highlighted. */
  lemma ExactlyOneHighlighted(x: Xampp, s: Screen)
    requires Inv(x, s)
    ensures exists t :: Highlighted(s.activeTab, t)
    ensures forall t, u :: Highlighted(s.activeTab, t) && Highlighted(s.activeTab, u) ==> t == u
  {
    if s.activeTab == "places" {
      assert Highlighted(s.activeTab, Places);
    } else if s.activeTab == "chat" {
      assert Highlighted(s.activeTab, Chat);
    } else {
      assert Highlighted(s.activeTab, Profile);
    }
  }

  /** Load-start raises the loading flag and touches nothing else. */
  lemma LoadStartOnlyRaisesFlag(x: Xampp, s: Screen)
    ensures var r := Step(x, s, LoadStarted);
      r.isLoading && r == s.(isLoading := true)
  {
  }

  /** Load-end aims the overlay at 0 and starts a fade-out; it leaves the
      flag alone unless it interrupts an earlier fade-out, whose callback
      then lowers it. The new fade-out's own callback lowers it later. */
  lemma LoadEndStartsFadeOut(x: Xampp, s: Screen)
    ensures var r := Step(x, s, LoadEnded);
      && r.isLoading == (s.isLoading && !s.fadeOutRunning)
      && r.fadeTarget == 0 && r.fadeOutRunning
      && r.currentUrl == s.currentUrl && r.activeTab == s.activeTab
      && r.reloads == s.reloads
      && Enabled(r, FadeOutFinished)
      && !Step(x, r, FadeOutFinished).isLoading
  {
  }

  /** The flag goes down only through a fade-out's callback: when the
      fade-out finishes, or when a load-end or a press to a new address
      interrupts it. */
  lemma FlagLoweredOnlyByFadeOut(x: Xampp, s: Screen, e: Event)
    requires Enabled(s, e) && s.isLoading && !Step(x, s, e).isLoading
    ensures s.fadeOutRunning
    ensures e == FadeOutFinished || e == LoadEnded
         || (e.Press? && TabUrl(x, e.tab) != s.currentUrl)
  {
  }

  /** Every event keeps the invariant. */
  lemma StepKeepsInv(x: Xampp, s: Screen, e: Event)
    requires Inv(x, s) && Enabled(s, e)
    ensures Inv(x, Step(x, s, e))
  {
  }

  // ---------------------------------------------------------------------
  // Properties of event sequences

  lemma {:induction false} RunKeepsInv(x: Xampp, s: Screen, evs: seq<Event>)
    requires Inv(x, s) && Feasible(x, s, evs)
    ensures Inv(x, Run(x, s, evs))
    decreases |evs|
  {
    if evs != [] {
      StepKeepsInv(x, s, evs[0]);
      RunKeepsInv(x, Step(x, s, evs[0]), evs[1..]);
    }
  }

  /** Whatever the events, the address shown is the first one or the
      server address followed by one of the three tabs' parameters, the
      highlighted tab is one of the three, and exactly one tab is drawn
      as active. */
  lemma ReachableStates(x: Xampp, evs: seq<Event>)
    requires Feasible(x, Init(x), evs)
    ensures var r := Run(x, Init(x), evs);
      && r.currentUrl in ReachableUrls(x)
      && r.currentUrl[..|GetXamppUrl(x)|] == GetXamppUrl(x)
      && r.activeTab in TabNames
      && (exists t :: Highlighted(r.activeTab, t))
      && (forall t, u :: Highlighted(r.activeTab, t) && Highlighted(r.activeTab, u) ==> t == u)
  {
    RunKeepsInv(x, Init(x), evs);
    var r := Run(x, Init(x), evs);
    ExactlyOneHighlighted(x, r);
  }

  /** Once the flag is up with no fade-out running, it stays up until the
      next load-end: presses and load-starts never lower it then. */
  lemma {:induction false} FlagHoldsUntilLoadEnd(x: Xampp, s: Screen, evs: seq<Event>)
    requires Feasible(x, s, evs) && s.isLoading && !s.fadeOutRunning
    requires LoadEnded !in evs
    ensures Run(x, s, evs).isLoading && !Run(x, s, evs).fadeOutRunning
    decreases |evs|
  {
    if evs != [] {
      FlagHoldsUntilLoadEnd(x, Step(x, s, evs[0]), evs[1..]);
    }
  }

  /** Only presses change the address or the highlighted tab. */
  lemma {:induction false} OnlyPressesNavigate(x: Xampp, s: Screen, evs: seq<Event>)
    requires Feasible(x, s, evs)
    requires forall i :: 0 <= i < |evs| ==> !evs[i].Press?
    ensures Run(x, s, evs).currentUrl == s.currentUrl
    ensures Run(x, s, evs).activeTab == s.activeTab
    ensures Run(x, s, evs).reloads == s.reloads
    decreases |evs|
  {
    if evs != [] {
      OnlyPressesNavigate(x, Step(x, s, evs[0]), evs[1..]);
    }
  }

  /** The first address is none of the tab addresses: every tab's
      parameters are non-empty. */
  lemma FirstAddressIsNoTabAddress(x: Xampp, t: Tab)
    ensures GetXamppUrl(x) != TabUrl(x, t)
  {
  }

  /** Once the highlighted tab's address is shown, it stays so whatever
      the events. */
  lemma {:induction false} StaysOnTab(x: Xampp, s: Screen, evs: seq<Event>)
    requires Feasible(x, s, evs)
    requires exists t :: Shows(x, s, t)
    ensures exists t :: Shows(x, Run(x, s, evs), t)
    decreases |evs|
  {
    var t :| Shows(x, s, t);
    if evs == [] {
      assert Shows(x, Run(x, s, evs), t);
    } else {
      var s1 := Step(x, s, evs[0]);
      if evs[0].Press? {
        PressEffect(x, s, evs[0].tab, evs[0].viewAttached);
        assert Shows(x, s1, evs[0].tab);
      } else {
        assert Shows(x, s1, t);
      }
      StaysOnTab(x, s1, evs[1..]);
      var u :| Shows(x, Run(x, s1, evs[1..]), u);
      assert Shows(x, Run(x, s, evs), u);
    }
  }

  /** The bare first address is shown only before the first press: after
      any sequence that contains a press, the highlighted tab's address is
      shown, and it is not the first address. */
  lemma {:induction false} PressLeavesTabShown(x: Xampp, s: Screen, evs: seq<Event>)
    requires Feasible(x, s, evs)
    requires exists i :: 0 <= i < |evs| && evs[i].Press?
    ensures exists t :: Shows(x, Run(x, s, evs), t)
    ensures Run(x, s, evs).currentUrl != GetXamppUrl(x)
    decreases |evs|
  {
    var s1 := Step(x, s, evs[0]);
    if evs[0].Press? {
      PressEffect(x, s, evs[0].tab, evs[0].viewAttached);
      assert Shows(x, s1, evs[0].tab);
      StaysOnTab(x, s1, evs[1..]);
    } else {
      var i :| 0 <= i < |evs| && evs[i].Press?;
      assert evs[1..][i - 1].Press?;
      PressLeavesTabShown(x, s1, evs[1..]);
    }
    var t :| Shows(x, Run(x, s, evs), t);
    FirstAddressIsNoTabAddress(x, t);
  }

  /** Pressing the same tab twice in a row: the second press reloads the
      web view (when attached) and changes neither the address, nor the
      loading flag, nor the fade target. */
  lemma SecondPressOnlyReloads(x: Xampp, s: Screen, t: Tab, first: bool, second: bool)
    ensures var s1 := Step(x, s, Press(t, first));
      var s2 := Step(x, s1, Press(t, second));
      && s2.currentUrl == s1.currentUrl
      && s2.isLoading == s1.isLoading
      && s2.fadeTarget == s1.fadeTarget
      && s2.activeTab == s1.activeTab
      && s2.reloads == s1.reloads + (if second then 1 else 0)
  {
  }

  /** A press that changes the address aims the overlay at 1 and raises
      the flag when no fade-out is running; the new page's load-start
      raises it in any case. Load-end and its completion callback then
      lower it and aim at 0, with the pressed tab's address still shown. */
  lemma NavigationCycle(x: Xampp, s: Screen, t: Tab, attached: bool)
    requires TabUrl(x, t) != s.currentUrl
    ensures var s1 := Step(x, s, Press(t, attached));
      var s2 := Step(x, s1, LoadStarted);
      var evs := [LoadEnded, FadeOutFinished];
      && s1.isLoading == !s.fadeOutRunning && s1.fadeTarget == 1 && Shows(x, s1, t)
      && s2.isLoading && s2.fadeTarget == 1
      && Feasible(x, s2, evs)
      && !Run(x, s2, evs).isLoading
      && Run(x, s2, evs).fadeTarget == 0
      && Shows(x, Run(x, s2, evs), t)
  {
  }

  /** `handleLoadEnd`'s callback ignores whether its animation finished:
      a press to a new address during the fade-out stops it, its callback
      lowers the flag at once, and the overlay aimed at 1 stays hidden
      until the new page's load-start raises the flag again. */
  lemma InterruptedFadeOutLowersFlag(x: Xampp, s: Screen, t: Tab, attached: bool)
    requires TabUrl(x, t) != s.currentUrl
    ensures var s1 := Step(x, Step(x, s, LoadEnded), Press(t, attached));
      && s1.currentUrl == TabUrl(x, t) && s1.fadeTarget == 1
      && !s1.isLoading && !s1.fadeOutRunning
      && Step(x, s1, LoadStarted).isLoading
  {
  }

  /** The addresses for a server at `https://example.com` with path
      `/index.php`. */
  lemma ExampleAddresses()
    ensures var x := Xampp("https://example.com", Some("/index.php"));
      && TabUrl(x, Places) == "https://example.com/index.php?app=1"
      && TabUrl(x, Chat) == "https://example.com/index.php?view=chat&app=1"
      && TabUrl(x, Profile) == "https://example.com/index.php?view=account&app=1"
  {
  }

  // ---------------------------------------------------------------------
  // The screen component with its state held in fields

  class RootLayout {
    const xampp: Xampp
    var currentUrl: string
    var isLoading: bool
    var activeTab: string
    var fadeTarget: int
    var fadeOutRunning: bool
    var reloads: nat

    function Model(): Screen
      reads this
    {
      Screen(currentUrl, isLoading, activeTab, fadeTarget, fadeOutRunning, reloads)
    }

    ghost predicate Valid()
      reads this
    {
      Inv(xampp, Model())
    }

    /** Mounting the screen. */
    constructor (x: Xampp)
      ensures xampp == x && Model() == Init(x) && Valid()
      ensures currentUrl == GetXamppUrl(x) && !isLoading && activeTab == "places" && fadeTarget == 0
    {
      xampp := x;
      currentUrl := GetXamppUrl(x);
      isLoading := false;
      activeTab := InitialTab;
      fadeTarget := 0;
      fadeOutRunning := false;
      reloads := 0;
    }

    /** `Animated.timing(fadeAnim, { toValue: target, … }).start()`: a
        running fade-out is stopped and its callback runs first. */
    method AnimateFade(target: int)
      modifies this
      ensures Model() == StartFade(old(Model()), target)
      ensures fadeTarget == target && !fadeOutRunning
      ensures isLoading == (old(isLoading) && !old(fadeOutRunning))
    {
      if fadeOutRunning {
        FadeOutComplete();
      }
      fadeTarget := target;
    }

    /** `navigateToPage(params, tabName)`; `viewAttached` is whether the
        web view reference is set. */
    method NavigateToPage(params: string, tabName: string, viewAttached: bool)
      modifies this
      ensures Model() == Navigate(xampp, old(Model()), params, tabName, viewAttached)
      ensures activeTab == tabName
      ensures TargetUrl(xampp, params) == old(currentUrl) ==>
        && currentUrl == old(currentUrl) && isLoading == old(isLoading)
        && fadeTarget == old(fadeTarget) && fadeOutRunning == old(fadeOutRunning)
        && reloads == old(reloads) + (if viewAttached then 1 else 0)
      ensures TargetUrl(xampp, params) != old(currentUrl) ==>
        && currentUrl == TargetUrl(xampp, params)
        && isLoading == !old(fadeOutRunning)
        && fadeTarget == 1 && !fadeOutRunning
        && reloads == old(reloads)
    {
      var newUrl := TargetUrl(xampp, params);
      activeTab := tabName;
      if newUrl == currentUrl {
        if viewAttached {
          reloads := reloads + 1;
        }
        return;
      }
      currentUrl := newUrl;
      isLoading := true;
      AnimateFade(1);
    }

    /** The `onPress` of one of the three buttons. */
    method PressTab(t: Tab, viewAttached: bool)
      requires Valid()
      modifies this
      ensures Valid()
      ensures Model() == Step(xampp, old(Model()), Press(t, viewAttached))
      ensures activeTab == t.Name() && currentUrl == TabUrl(xampp, t)
    {
      NavigateToPage(t.Params(), t.Name(), viewAttached);
      StepKeepsInv(xampp, old(Model()), Press(t, viewAttached));
    }

    /** The web view's `onLoadStart`. */
    method OnLoadStart()
      requires Valid()
      modifies this
      ensures Valid()
      ensures Model() == Step(xampp, old(Model()), LoadStarted)
      ensures Model() == old(Model()).(isLoading := true)
    {
      isLoading := true;
    }

    /** `handleLoadEnd`: the fade-out starts, stopping a running one. */
    method HandleLoadEnd()
      requires Valid()
      modifies this
      ensures Valid()
      ensures Model() == Step(xampp, old(Model()), LoadEnded)
      ensures Model() == old(Model()).(fadeTarget := 0, fadeOutRunning := true,
                                       isLoading := old(isLoading) && !old(fadeOutRunning))
    {
      AnimateFade(0);
      fadeOutRunning := true;
    }

    /** The completion callback of the fade-out started by `handleLoadEnd`. */
    method FadeOutComplete()
      requires fadeOutRunning
      modifies this
      ensures old(Valid()) ==> Valid()
      ensures Model() == Step(xampp, old(Model()), FadeOutFinished)
      ensures Model() == old(Model()).(isLoading := false, fadeOutRunning := false)
    {
      isLoading := false;
      fadeOutRunning := false;
    }
  }
}
