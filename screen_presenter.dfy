/**
 * The screen presenter bridge: the draft each updater mutates, the reference to
 * the main modal stack whose root state the edits replace, and the navigation
 * actions that `presentModal` and `pushView` dispatch.
 */
module ScreenPresenter {
  import opened JsValues
  import opened NavigationTree

  /**
   * The mutable copy of one navigator state that an updater receives. Its
   * methods are the updaters' bodies; `Value` is the state finalised from it.
   */
  class Draft {
    var routes: seq<Route>
    var index: int

    constructor (s: NavState)
      ensures Value() == s
    {
      routes := s.routes;
      index := s.index;
    }

    function Value(): NavState
      reads this
    {
      NavState(routes, index)
    }

    /** The updater of `popToRootAndScrollToTop`. */
    method PopToRootAndScrollToTop()
      requires |routes| > 0
      modifies this
      ensures Value() == TruncateToRoot(old(Value()))
    {
      routes := [routes[0]];
      index := 0;
    }

    /** The updater of `popToRootOrScrollToTop`; at the root only a development warning is logged. */
    method PopToRootOrScrollToTop()
      modifies this
      ensures Value() == TruncateUnlessAtRoot(old(Value()))
    {
      if |routes| > 1 {
        routes := [routes[0]];
        index := 0;
      }
    }

    /** The updater of `popStack`: `routes.pop()` then `index -= 1`, with no guard. */
    method PopStack()
      modifies this
      ensures Value() == PopLast(old(Value()))
    {
      if |routes| > 0 {
        routes := routes[..|routes| - 1];
      }
      index := index - 1;
    }

    /** The updater of `dismissModal`: nothing when only one route is left. */
    method DismissModal()
      modifies this
      ensures Value() == PopModal(old(Value()))
    {
      if |routes| == 1 {
        return;
      }
      PopStack();
    }
  }

  /**
   * The reference to the main modal stack's navigation container.
   * `rootState` is `None` while the container is not mounted (`current` is null).
   */
  class MainModalStackRef {
    var rootState: Option<NavState>

    constructor ()
      ensures rootState == None
    {
      rootState := None;
    }

    /** The container mounts with its initial tree. */
    method Mount(initial: NavState)
      modifies this
      ensures rootState == Some(initial)
    {
      rootState := Some(initial);
    }

    /**
     * `updateTabStackState`: find the tab's stack, run the updater on a draft of
     * it, and commit the whole tree with a single `resetRoot`. `threw` is set when
     * the root has no route 0; an unmounted container or a missing tab changes nothing.
     */
    method UpdateTabStackState(tab: string, u: TabUpdater) returns (threw: bool)
      requires rootState.Some? && u.PopToRootAndScrollToTop? && LookupTab(rootState.value, tab).TabFound? ==>
        |LookupTab(rootState.value, tab).stack.routes| > 0
      modifies this
      ensures old(rootState).None? ==> rootState == old(rootState) && !threw
      ensures old(rootState).Some? ==>
        var next := NavigationTree.UpdateTabStackState(old(rootState).value, tab, u);
        threw == next.None? && rootState == (if threw then old(rootState) else next)
    {
      threw := false;
      if rootState.None? {
        return;
      }
      var s := rootState.value;
      match LookupTab(s, tab) {
        case NoRootRoute =>
          threw := true;
        case TabMissing =>
          rootState := Some(s);
        case TabFound(i, stack) =>
          var draft := new Draft(stack);
          match u {
            case PopToRootAndScrollToTop => draft.PopToRootAndScrollToTop();
            case PopToRootOrScrollToTop => draft.PopToRootOrScrollToTop();
            case PopStack => draft.PopStack();
          }
          rootState := Some(ReplaceTabState(s, i, draft.Value()));
      }
    }

    method PopToRootAndScrollToTop(tab: string) returns (threw: bool)
      requires rootState.Some? && LookupTab(rootState.value, tab).TabFound? ==>
        |LookupTab(rootState.value, tab).stack.routes| > 0
      modifies this
      ensures old(rootState).None? ==> rootState == old(rootState) && !threw
      ensures old(rootState).Some? ==>
        var next := NavigationTree.UpdateTabStackState(old(rootState).value, tab, TabUpdater.PopToRootAndScrollToTop);
        threw == next.None? && rootState == (if threw then old(rootState) else next)
    {
      threw := UpdateTabStackState(tab, TabUpdater.PopToRootAndScrollToTop);
    }

    method PopToRootOrScrollToTop(tab: string) returns (threw: bool)
      modifies this
      ensures old(rootState).None? ==> rootState == old(rootState) && !threw
      ensures old(rootState).Some? ==>
        var next := NavigationTree.UpdateTabStackState(old(rootState).value, tab, TabUpdater.PopToRootOrScrollToTop);
        threw == next.None? && rootState == (if threw then old(rootState) else next)
    {
      threw := UpdateTabStackState(tab, TabUpdater.PopToRootOrScrollToTop);
    }

    method PopStack(tab: string) returns (threw: bool)
      modifies this
      ensures old(rootState).None? ==> rootState == old(rootState) && !threw
      ensures old(rootState).Some? ==>
        var next := NavigationTree.UpdateTabStackState(old(rootState).value, tab, TabUpdater.PopStack);
        threw == next.None? && rootState == (if threw then old(rootState) else next)
    {
      threw := UpdateTabStackState(tab, TabUpdater.PopStack);
    }

    /**
     * `dismissModal` on the root stack. With no container mounted the updater is
     * handed `undefined` and reading its routes throws.
     */
    method DismissModal() returns (threw: bool)
      modifies this
      ensures threw <==> old(rootState).None?
      ensures old(rootState).None? ==> rootState == old(rootState)
      ensures old(rootState).Some? ==> rootState == Some(PopModal(old(rootState).value))
    {
      threw := rootState.None?;
      if threw {
        return;
      }
      var draft := new Draft(rootState.value);
      draft.DismissModal();
      rootState := Some(draft.Value());
    }
  }

  // ---------------------------------------------------------------------------
  // The presented modal and the actions dispatched

  /** What `getCurrentlyPresentedModalNavStackKey` gives: null, a key, or a thrown error. */
  datatype ModalKey = NoModal | PresentedKey(key: string) | KeyMissing

  function CurrentlyPresentedModalNavStackKey(root: Option<NavState>): (r: ModalKey)
    ensures r.NoModal? <==> root.None? || |root.value.routes| <= 1
    ensures !r.NoModal? ==>
      var last := root.value.routes[|root.value.routes| - 1];
      (r.KeyMissing? <==> !Truthy(last.key)) &&
      (r.PresentedKey? ==> Some(r.key) == last.key && r.key != "")
  {
    if root.None? || |root.value.routes| <= 1 then NoModal
    else
      var key := root.value.routes[|root.value.routes| - 1].key;
      if Truthy(key) then PresentedKey(key.value) else KeyMissing
  }

  /** Module properties, passed through as an opaque bundle. */
  datatype Props = Props(fields: map<string, string>)

  /** `{ moduleName, props, replace? }`; `replace` is absent, true or false. */
  datatype ViewDescriptor = ViewDescriptor(moduleName: string, props: Props, replace: Option<bool>)

  datatype ActionParams =
    | ModalParams(rootModuleName: string, rootModuleProps: Props)
    | ScreenParams(moduleName: string, props: Props)

  /** The StackActions values the bridge builds; what they do is the library's business. */
  datatype NavAction =
    | Push(target: string, params: ActionParams)
    | Replace(target: string, params: ActionParams)

  function PresentModalAction(d: ViewDescriptor): (a: NavAction)
    ensures a.Replace? <==> d.replace == Some(true)
    ensures a.Push? <==> d.replace != Some(true)
    ensures a.target == "modal"
    ensures a.params == ModalParams(d.moduleName, d.props)
  {
    var params := ModalParams(d.moduleName, d.props);
    if d.replace == Some(true) then Replace("modal", params) else Push("modal", params)
  }

  const ScreenPrefix: string := "screen:"

  /** `pushView`: push onto the presented modal's stack, or onto the tab's; `None` when the key lookup throws. */
  function PushViewAction(root: Option<NavState>, tab: string, d: ViewDescriptor): (r: Option<NavAction>)
    ensures r.None? <==> CurrentlyPresentedModalNavStackKey(root).KeyMissing?
    ensures r.Some? ==> r.value.Push? && r.value.params == ScreenParams(d.moduleName, d.props)
    ensures CurrentlyPresentedModalNavStackKey(root).NoModal? ==> r.Some? && r.value.target == ScreenPrefix + tab
    ensures CurrentlyPresentedModalNavStackKey(root).PresentedKey? ==>
      r.Some? && r.value.target == ScreenPrefix + CurrentlyPresentedModalNavStackKey(root).key
  {
    match CurrentlyPresentedModalNavStackKey(root)
    case KeyMissing => None
    case NoModal => Some(Push(ScreenPrefix + tab, ScreenParams(d.moduleName, d.props)))
    case PresentedKey(k) => Some(Push(ScreenPrefix + k, ScreenParams(d.moduleName, d.props)))
  }

  /** Two stacks get the same push target only when their keys are equal. */
  lemma ScreenTargetsDistinct(a: string, b: string)
    requires a != b
    ensures ScreenPrefix + a != ScreenPrefix + b
  {
    assert (ScreenPrefix + a)[|ScreenPrefix|..] == a;
    assert (ScreenPrefix + b)[|ScreenPrefix|..] == b;
  }

  /**
   * While a modal with key `k` is presented, `pushView` targets that modal's
   * stack and never the background tab's (unless the tab carries the same name).
   */
  lemma PushViewWhileModalPresented(root: NavState, tab: string, d: ViewDescriptor, k: string)
    requires |root.routes| > 1 && root.routes[|root.routes| - 1].key == Some(k) && k != ""
    requires k != tab
    ensures PushViewAction(Some(root), tab, d) == Some(Push(ScreenPrefix + k, ScreenParams(d.moduleName, d.props)))
    ensures PushViewAction(Some(root), tab, d).value.target != ScreenPrefix + tab
  {
    ScreenTargetsDistinct(k, tab);
  }
}
