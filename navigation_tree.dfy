/**
 * The navigation tree that the screen presenter edits, and the edits themselves
 * as functions from the old tree to the new one.
 *
 * The root navigator is the main modal stack: its route 0 is the bottom-tab
 * container, every later route is a presented modal. The container's nested
 * routes are the tabs, and each tab's nested state is that tab's own stack.
 */
module NavigationTree {
  import opened JsValues

  /** One route of a navigator: a screen, or a navigator with its own state. */
  datatype Route = Route(name: string, key: Option<string>, state: Option<NavState>)

  /** A navigator's state. `index` is an `int`: the edits decrement it with no lower bound. */
  datatype NavState = NavState(routes: seq<Route>, index: int)

  /** What the navigation library guarantees of a state: some route, and focus on one of them. */
  predicate Valid(s: NavState)
  {
    |s.routes| > 0 && 0 <= s.index < |s.routes|
  }

  /** A stack focused on its top route, as it is after every push. */
  predicate TopFocused(s: NavState)
  {
    |s.routes| > 0 && s.index == |s.routes| - 1
  }

  // ---------------------------------------------------------------------------
  // The updaters, as functions on the state they are handed

  /** `state.routes = [state.routes[0]]; state.index = 0` */
  function TruncateToRoot(s: NavState): (r: NavState)
    requires |s.routes| > 0
    ensures Valid(r) && TopFocused(r)
    ensures |r.routes| == 1 && r.routes[0] == s.routes[0]
  {
    NavState([s.routes[0]], 0)
  }

  /** The updater of `popToRootOrScrollToTop`: truncate only a stack deeper than its root. */
  function TruncateUnlessAtRoot(s: NavState): (r: NavState)
    ensures |s.routes| > 1 ==> r == TruncateToRoot(s)
    ensures |s.routes| <= 1 ==> r == s
  {
    if |s.routes| > 1 then TruncateToRoot(s) else s
  }

  /** `state.routes.pop(); state.index -= 1` (popping an empty array leaves it empty). */
  function PopLast(s: NavState): (r: NavState)
    ensures r.index == s.index - 1
    ensures |s.routes| > 0 ==> s.routes == r.routes + [s.routes[|s.routes| - 1]]
    ensures |s.routes| == 0 ==> r.routes == []
  {
    NavState(if |s.routes| > 0 then s.routes[..|s.routes| - 1] else [], s.index - 1)
  }

  /** The updater of `dismissModal`: pop the root stack unless only its base route is left. */
  function PopModal(s: NavState): (r: NavState)
    ensures |s.routes| == 1 ==> r == s
    ensures |s.routes| != 1 ==> r == PopLast(s)
    ensures |s.routes| >= 1 ==> |r.routes| >= 1 && r.routes[0] == s.routes[0]
  {
    if |s.routes| == 1 then s else PopLast(s)
  }

  /** The three updaters that `updateTabStackState` is given. */
  datatype TabUpdater = PopToRootAndScrollToTop | PopToRootOrScrollToTop | PopStack

  function ApplyUpdater(u: TabUpdater, s: NavState): (r: NavState)
    requires u.PopToRootAndScrollToTop? ==> |s.routes| > 0
    ensures u.PopToRootAndScrollToTop? ==> r == TruncateToRoot(s)
    ensures u.PopToRootOrScrollToTop? ==> r == TruncateUnlessAtRoot(s)
    ensures u.PopStack? ==> r == PopLast(s)
  {
    match u
    case PopToRootAndScrollToTop => TruncateToRoot(s)
    case PopToRootOrScrollToTop => TruncateUnlessAtRoot(s)
    case PopStack => PopLast(s)
  }

  // ---------------------------------------------------------------------------
  // Finding a tab's stack

  /** The position `Array.prototype.find` stops at: the first route named `name`. */
  function FindTab(tabs: seq<Route>, name: string): (r: Option<nat>)
    ensures r.Some? ==> r.value < |tabs| && tabs[r.value].name == name
    ensures r.Some? ==> forall j :: 0 <= j < r.value ==> tabs[j].name != name
    ensures r.None? ==> forall j :: 0 <= j < |tabs| ==> tabs[j].name != name
  {
    if |tabs| == 0 then None
    else if tabs[0].name == name then Some(0)
    else match FindTab(tabs[1..], name)
      case None => None
      case Some(i) => Some(i + 1)
  }

  /** Two route lists with the same names, position by position. */
  predicate SameNames(a: seq<Route>, b: seq<Route>)
  {
    |a| == |b| && forall j :: 0 <= j < |a| ==> a[j].name == b[j].name
  }

  /** The search depends on the names only. */
  lemma {:induction false} FindTabByNames(a: seq<Route>, b: seq<Route>, name: string)
    requires SameNames(a, b)
    ensures FindTab(a, name) == FindTab(b, name)
  {
    if |a| > 0 && a[0].name != name {
      assert SameNames(a[1..], b[1..]) by {
        forall j | 0 <= j < |a| - 1 ensures a[1..][j].name == b[1..][j].name {
          assert a[1..][j] == a[j + 1] && b[1..][j] == b[j + 1];
        }
      }
      FindTabByNames(a[1..], b[1..], name);
    }
  }

  /** What the tab lookup of `updateTabStackState` meets. */
  datatype TabLookup =
    | NoRootRoute                           // `state.routes[0]` is undefined: reading `.state` throws
    | TabMissing                            // logged with console.error; nothing is changed
    | TabFound(position: nat, stack: NavState)

  /** The tab container: the nested state of root route 0. */
  function Container(root: NavState): Option<NavState>
  {
    if |root.routes| == 0 then None else root.routes[0].state
  }

  /** True when `stack` is the nested state of tab `i` of the container. */
  predicate TabAt(root: NavState, i: nat, stack: NavState)
  {
    Container(root).Some? && i < |Container(root).value.routes|
    && Container(root).value.routes[i].state == Some(stack)
  }

  function LookupTab(root: NavState, tab: string): (r: TabLookup)
    ensures r.NoRootRoute? <==> |root.routes| == 0
    ensures r.TabFound? ==> TabAt(root, r.position, r.stack)
    ensures r.TabFound? ==> FindTab(Container(root).value.routes, tab) == Some(r.position)
    ensures r.TabMissing? ==>
      (|root.routes| > 0 &&
       (Container(root).None? ||
        FindTab(Container(root).value.routes, tab).None? ||
        Container(root).value.routes[FindTab(Container(root).value.routes, tab).value].state.None?))
  {
    if |root.routes| == 0 then NoRootRoute
    else match root.routes[0].state
      case None => TabMissing
      case Some(container) =>
        match FindTab(container.routes, tab)
        case None => TabMissing
        case Some(i) =>
          match container.routes[i].state
          case None => TabMissing
          case Some(stack) => TabFound(i, stack)
  }

  /**
   * `a` and `b` agree everywhere except on the nested state of tab `i`: same root
   * index, same modal routes, same container route apart from its state, same
   * container index, same other tabs, same name and key for tab `i`.
   */
  predicate AgreeOutsideTab(a: NavState, b: NavState, i: nat)
  {
    && |a.routes| == |b.routes| > 0
    && a.index == b.index
    && (forall j :: 1 <= j < |a.routes| ==> a.routes[j] == b.routes[j])
    && a.routes[0].name == b.routes[0].name && a.routes[0].key == b.routes[0].key
    && Container(a).Some? && Container(b).Some?
    && |Container(a).value.routes| == |Container(b).value.routes|
    && i < |Container(a).value.routes|
    && Container(a).value.index == Container(b).value.index
    && (forall k :: 0 <= k < |Container(a).value.routes| && k != i ==>
          Container(a).value.routes[k] == Container(b).value.routes[k])
    && Container(a).value.routes[i].name == Container(b).value.routes[i].name
    && Container(a).value.routes[i].key == Container(b).value.routes[i].key
  }

  /** The draft write-back: tab `i` of the container gets `stack` as its nested state. */
  function ReplaceTabState(root: NavState, i: nat, stack: NavState): (r: NavState)
    requires Container(root).Some? && i < |Container(root).value.routes|
    ensures AgreeOutsideTab(root, r, i)
    ensures TabAt(r, i, stack)
  {
    var container := root.routes[0].state.value;
    var tabRoute := container.routes[i];
    var newContainer := NavState(container.routes[i := tabRoute.(state := Some(stack))], container.index);
    NavState(root.routes[0 := root.routes[0].(state := Some(newContainer))], root.index)
  }

  /** Writing back the stack a tab already has gives the same tree. */
  lemma ReplaceWithSameStack(root: NavState, i: nat, stack: NavState)
    requires TabAt(root, i, stack)
    ensures ReplaceTabState(root, i, stack) == root
  {
    var container := root.routes[0].state.value;
    assert container.routes[i := container.routes[i].(state := Some(stack))] == container.routes;
    assert root.routes[0 := root.routes[0].(state := Some(container))] == root.routes;
  }

  /** After the write-back, looking the tab up again finds it at the same place with the new stack. */
  lemma LookupAfterReplace(root: NavState, tab: string, i: nat, oldStack: NavState, stack: NavState)
    requires LookupTab(root, tab) == TabFound(i, oldStack)
    ensures LookupTab(ReplaceTabState(root, i, stack), tab) == TabFound(i, stack)
  {
    var r := ReplaceTabState(root, i, stack);
    FindTabByNames(Container(root).value.routes, Container(r).value.routes, tab);
  }

  /**
   * `updateTabStackState` on a mounted tree: `None` when it throws, otherwise the
   * tree handed to `resetRoot`.
   */
  function UpdateTabStackState(root: NavState, tab: string, u: TabUpdater): (r: Option<NavState>)
    requires u.PopToRootAndScrollToTop? && LookupTab(root, tab).TabFound? ==> |LookupTab(root, tab).stack.routes| > 0
    ensures r.None? <==> |root.routes| == 0
    ensures LookupTab(root, tab).TabMissing? ==> r == Some(root)
    ensures LookupTab(root, tab).TabFound? ==> r.Some? && AgreeOutsideTab(root, r.value, LookupTab(root, tab).position)
  {
    match LookupTab(root, tab)
    case NoRootRoute => None
    case TabMissing => Some(root)
    case TabFound(i, stack) => Some(ReplaceTabState(root, i, ApplyUpdater(u, stack)))
  }

  /** The tab named `tab` holds `stack` in the edited tree, at the lookup's position. */
  predicate TabNowHolds(root: NavState, tab: string, u: TabUpdater, stack: NavState)
    requires u.PopToRootAndScrollToTop? && LookupTab(root, tab).TabFound? ==> |LookupTab(root, tab).stack.routes| > 0
  {
    var r := UpdateTabStackState(root, tab, u);
    r.Some? && LookupTab(root, tab).TabFound? &&
    LookupTab(r.value, tab) == TabFound(LookupTab(root, tab).position, stack) &&
    AgreeOutsideTab(root, r.value, LookupTab(root, tab).position)
  }

  // ---------------------------------------------------------------------------
  // What each tab edit does to the whole tree

  /** popToRootAndScrollToTop: the tab's stack becomes its first route alone, focused, whatever its depth. */
  lemma PopToRootAndScrollToTopEffect(root: NavState, tab: string, i: nat, stack: NavState)
    requires LookupTab(root, tab) == TabFound(i, stack)
    requires |stack.routes| > 0
    ensures TabNowHolds(root, tab, PopToRootAndScrollToTop, NavState([stack.routes[0]], 0))
  {
    LookupAfterReplace(root, tab, i, stack, TruncateToRoot(stack));
  }

  /** popToRootOrScrollToTop: a deeper stack is truncated to its root; a one-route stack leaves the tree as it was. */
  lemma PopToRootOrScrollToTopEffect(root: NavState, tab: string, i: nat, stack: NavState)
    requires LookupTab(root, tab) == TabFound(i, stack)
    ensures |stack.routes| > 1 ==> TabNowHolds(root, tab, PopToRootOrScrollToTop, NavState([stack.routes[0]], 0))
    ensures |stack.routes| <= 1 ==> UpdateTabStackState(root, tab, PopToRootOrScrollToTop) == Some(root)
  {
    if |stack.routes| > 1 {
      LookupAfterReplace(root, tab, i, stack, TruncateToRoot(stack));
    } else {
      ReplaceWithSameStack(root, i, stack);
    }
  }

  /** popStack: exactly the last route of the tab's stack goes, and its index drops by one. */
  lemma PopStackEffect(root: NavState, tab: string, i: nat, stack: NavState)
    requires LookupTab(root, tab) == TabFound(i, stack)
    requires |stack.routes| > 0
    ensures TabNowHolds(root, tab, PopStack, NavState(stack.routes[..|stack.routes| - 1], stack.index - 1))
  {
    LookupAfterReplace(root, tab, i, stack, PopLast(stack));
  }

  /** popStack has no guard: on a valid one-route stack it leaves no route and index -1, an invalid stack. */
  lemma PopStackEmptiesSingleRoute(root: NavState, tab: string, i: nat, stack: NavState)
    requires LookupTab(root, tab) == TabFound(i, stack)
    requires Valid(stack) && |stack.routes| == 1
    ensures TabNowHolds(root, tab, PopStack, NavState([], -1))
    ensures !Valid(NavState([], -1))
  {
    LookupAfterReplace(root, tab, i, stack, PopLast(stack));
  }

  /** On a valid stack the two pop-to-root updaters coincide: a valid one-route stack already has index 0. */
  lemma PopToRootVariantsAgreeOnValid(s: NavState)
    requires Valid(s)
    ensures TruncateUnlessAtRoot(s) == TruncateToRoot(s)
  {
    if |s.routes| == 1 {
      assert s.routes == [s.routes[0]];
    }
  }

  /** On a one-route stack whose index is off, only popToRootAndScrollToTop repairs the index. */
  lemma PopToRootVariantsDifferOffValid(s: NavState)
    requires |s.routes| == 1 && s.index != 0
    ensures TruncateUnlessAtRoot(s) == s
    ensures TruncateToRoot(s) == NavState(s.routes, 0) && TruncateToRoot(s) != s
  {
    assert s.routes == [s.routes[0]];
  }

  /** popStack keeps a valid stack valid exactly when there is a route below the focus to fall back to. */
  lemma PopLastValidIff(s: NavState)
    requires Valid(s)
    ensures Valid(PopLast(s)) <==> |s.routes| >= 2 && s.index >= 1
  {
  }

  /** popStack keeps the focus on the top exactly when the stack had more than one route. */
  lemma PopLastTopFocusedIff(s: NavState)
    requires TopFocused(s)
    ensures TopFocused(PopLast(s)) <==> |s.routes| >= 2
  {
  }

  /** dismissModal keeps a top-focused root top-focused: it never pops the base route. */
  lemma PopModalKeepsTopFocused(s: NavState)
    requires TopFocused(s)
    ensures TopFocused(PopModal(s))
    ensures PopModal(s).routes[0] == s.routes[0]
  {
  }

  /**
   * dismissModal keeps a valid root valid exactly when it is at its base or the
   * focus is not on the base: the guard protects the base route, not the index.
   */
  lemma PopModalValidIff(s: NavState)
    requires Valid(s)
    ensures Valid(PopModal(s)) <==> |s.routes| == 1 || s.index >= 1
  {
  }

  /** `k` successive dismissals. */
  function PopModalTimes(s: NavState, k: nat): (r: NavState)
    decreases k
  {
    if k == 0 then s else PopModalTimes(PopModal(s), k - 1)
  }

  /**
   * Any number of dismissals on a top-focused root pops one modal each until only
   * the tab container is left, and then changes nothing.
   */
  lemma {:induction false} PopModalTimesLeavesBase(s: NavState, k: nat)
    requires TopFocused(s)
    ensures var n := if k < |s.routes| then |s.routes| - k else 1;
      PopModalTimes(s, k) == NavState(s.routes[..n], n - 1)
    decreases k
  {
    if k == 0 {
      assert s.routes[..|s.routes|] == s.routes;
    } else if |s.routes| == 1 {
      assert PopModal(s) == s;
      PopModalTimesLeavesBase(s, k - 1);
      assert s.routes[..1] == s.routes;
    } else {
      var p := PopModal(s);
      PopModalKeepsTopFocused(s);
      PopModalTimesLeavesBase(p, k - 1);
      var n := if k < |s.routes| then |s.routes| - k else 1;
      assert p.routes[..n] == s.routes[..n];
    }
  }
}
