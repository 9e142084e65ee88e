# Screen presenter navigation edits, sale card layout, artwork deletion outcome

This project is a Dafny model of three pieces of logic in the Artsy mobile app.

**The screen presenter bridge** (`ARScreenPresenterModule`) edits the
react-navigation state tree of the main modal stack.

- Root route 0 is the bottom-tab container.
- The container's nested routes are the tabs, and each tab carries its own stack.
- Every root route after 0 is a presented modal.

Each edit runs an updater on an immer draft and commits the whole tree with one
`resetRoot`. The model has two layers:

- `NavigationTree` models the edits as functions from the old tree to the new one. Its lemmas say what each edit does to the tab it targets, and that nothing else changes.
- `ScreenPresenter` holds the imperative side. `Draft` is the mutable copy an updater changes in place. `MainModalStackRef` models the module-level reference, with `rootState` `None` while the container is not mounted. Its methods look up the tab, mutate a draft, write it back and commit, and each is proved against the `NavigationTree` functions.
- `ScreenPresenter` also builds the `presentModal` and `pushView` actions as plain values, and derives the presented modal's key.

**The sale card** (`SaleListItem`) decides which card starts a grid row, what
left margin it gets, its sizes and image URL, and which URL a tap opens.
JavaScript's truncating `%`, including `NaN` for a zero column count, is
written out in `JsRemainder`.

**The artwork deletion** (`myCollectionDeleteArtwork`) maps what the mutation
completes with (`errors`, `response`), or its transport error, to a reject or a
resolve. It also builds the mutation's variables.

`JsValues` holds what these share: `Option` for `null`/`undefined`, string
truthiness, and `||` on strings.

## Notes on the code

- `popToRootAndScrollToTop` truncates the tab's stack unconditionally. Only `popToRootOrScrollToTop` checks for more than one route.
- The tab lookup miss is absorbed for all three tab edits, `popStack` included.
- One library invariant is that every tab stack keeps at least one route. `popStack` does not keep it: see `PopStackEmptiesSingleRoute`.
- `dismissModal`'s one-route guard protects the base route, not the index: a valid root with a modal but focus on route 0 is left with index -1 (see `PopModalValidIff`).

## Model

| member | source | states |
|---|---|---|
| `JsValues.Or` | src/app/Scenes/Sales/Components/SaleListItem.tsx:22 | JavaScript `or` on strings gives `a` when `a` is truthy, else `b`; the result is truthy iff either operand is |
| `JsValues.Truthy` | src/app/NativeModules/ARScreenPresenterModule.tsx:72 | a possibly absent string is falsy exactly when it is absent or empty |
| `NavigationTree.TruncateToRoot` | src/app/NativeModules/ARScreenPresenterModule.tsx:115-116 | the truncated stack is valid, focused on its top, and holds exactly the original first route |
| `NavigationTree.TruncateUnlessAtRoot` | src/app/NativeModules/ARScreenPresenterModule.tsx:124-133 | a stack deeper than one route is truncated to its root; a stack of at most one route is returned unchanged |
| `NavigationTree.PopLast` | src/app/NativeModules/ARScreenPresenterModule.tsx:147-148 | the old routes are the new routes plus exactly one last route (none left if there were none), and the index drops by one |
| `NavigationTree.PopModal` | src/app/NativeModules/ARScreenPresenterModule.tsx:156-162 | a one-route root is unchanged; otherwise the last route is popped; the base route (tab container) is never removed or altered |
| `NavigationTree.ApplyUpdater` | src/app/NativeModules/ARScreenPresenterModule.tsx:58 | the updater each tab operation hands to `updateTabStackState` is exactly that operation's edit of the tab's stack |
| `NavigationTree.FindTab` | src/app/NativeModules/ARScreenPresenterModule.tsx:51-53 | the result is the first position whose route has the tab's name, or none when no route has it |
| `NavigationTree.FindTabByNames` | src/app/NativeModules/ARScreenPresenterModule.tsx:51-53 | the tab search depends only on the routes' names |
| `NavigationTree.LookupTab` | src/app/NativeModules/ARScreenPresenterModule.tsx:46-57 | the search is among root route 0's nested routes; it throws only when the root has no route; a found tab is the first match and owns the returned stack; otherwise the container, the match or the match's state is absent |
| `NavigationTree.ReplaceTabState` | src/app/NativeModules/ARScreenPresenterModule.tsx:42-59 | writing the draft back puts the new stack at the tab and changes nothing else: root index, modal routes, container index, other tabs, and the tab's name and key all stay the same |
| `NavigationTree.ReplaceWithSameStack` | src/app/NativeModules/ARScreenPresenterModule.tsx:37-41 | committing an untouched draft gives back the same tree |
| `NavigationTree.LookupAfterReplace` | src/app/NativeModules/ARScreenPresenterModule.tsx:50-53 | after the edit the same tab is found at the same position, now with the new stack |
| `NavigationTree.UpdateTabStackState` | src/app/NativeModules/ARScreenPresenterModule.tsx:42-60 | throws iff the root has no route; an absent container, no matching tab or a matching tab without state leaves the tree unchanged; a found tab's edit changes nothing outside that tab's stack |
| `NavigationTree.PopToRootAndScrollToTopEffect` | src/app/NativeModules/ARScreenPresenterModule.tsx:113-117 | the found tab's stack becomes exactly its original first route with index 0, whatever its depth, and nothing else changes |
| `NavigationTree.PopToRootOrScrollToTopEffect` | src/app/NativeModules/ARScreenPresenterModule.tsx:123-134 | a stack of more than one route becomes its first route with index 0; with at most one route the whole tree is unchanged |
| `NavigationTree.PopStackEffect` | src/app/NativeModules/ARScreenPresenterModule.tsx:145-150 | exactly the last route of the found tab's stack is removed and its index decremented; nothing else changes |
| `NavigationTree.PopStackEmptiesSingleRoute` | src/app/NativeModules/ARScreenPresenterModule.tsx:145-150 | with no guard, a valid one-route stack is left with no routes and index -1, which breaks the library's invariant |
| `NavigationTree.PopToRootVariantsAgreeOnValid` | src/app/NativeModules/ARScreenPresenterModule.tsx:113-134 | on a valid stack the two pop-to-root updaters produce the same state |
| `NavigationTree.PopToRootVariantsDifferOffValid` | src/app/NativeModules/ARScreenPresenterModule.tsx:123-134 | on every one-route stack whose index is not 0, `popToRootOrScrollToTop` leaves it as it is while `popToRootAndScrollToTop` changes it by resetting the index to 0 |
| `NavigationTree.PopLastValidIff` | src/app/NativeModules/ARScreenPresenterModule.tsx:147-148 | a pop keeps a valid stack valid iff it had at least two routes and a non-zero index |
| `NavigationTree.PopLastTopFocusedIff` | src/app/NativeModules/ARScreenPresenterModule.tsx:147-148 | a pop keeps a top-focused stack top-focused iff it had at least two routes |
| `NavigationTree.PopModalKeepsTopFocused` | src/app/NativeModules/ARScreenPresenterModule.tsx:157-161 | thanks to the one-route guard, dismissing keeps a top-focused root top-focused and keeps its base route |
| `NavigationTree.PopModalValidIff` | src/app/NativeModules/ARScreenPresenterModule.tsx:156-162 | a dismissal keeps a valid root valid iff the root has a single route or its index is at least 1 |
| `NavigationTree.PopModalTimesLeavesBase` | src/app/NativeModules/ARScreenPresenterModule.tsx:154-163 | k dismissals on a top-focused root pop min(k, n-1) modals; once only the tab container is left, further dismissals change nothing |
| `ScreenPresenter.Draft.constructor` | src/app/NativeModules/ARScreenPresenterModule.tsx:39 | the draft starts as an exact copy of the state it is made from |
| `ScreenPresenter.Draft.PopToRootAndScrollToTop` | src/app/NativeModules/ARScreenPresenterModule.tsx:114-117 | the in-place truncation leaves the draft equal to `TruncateToRoot` of its old value |
| `ScreenPresenter.Draft.PopToRootOrScrollToTop` | src/app/NativeModules/ARScreenPresenterModule.tsx:124-134 | the guarded in-place truncation leaves the draft equal to `TruncateUnlessAtRoot` of its old value |
| `ScreenPresenter.Draft.PopStack` | src/app/NativeModules/ARScreenPresenterModule.tsx:146-149 | `pop()` then `index -= 1` leaves the draft equal to `PopLast` of its old value |
| `ScreenPresenter.Draft.DismissModal` | src/app/NativeModules/ARScreenPresenterModule.tsx:156-162 | the guarded pop leaves the draft equal to `PopModal` of its old value |
| `ScreenPresenter.MainModalStackRef.constructor` | src/app/NativeModules/ARScreenPresenterModule.tsx:25 | the reference starts empty: no container mounted |
| `ScreenPresenter.MainModalStackRef.Mount` | src/app/NativeModules/ARScreenPresenterModule.tsx:25 | once the container mounts, the reference holds its tree |
| `ScreenPresenter.MainModalStackRef.UpdateTabStackState` | src/app/NativeModules/ARScreenPresenterModule.tsx:37-60 | unmounted: nothing happens; otherwise it throws iff the root has no route, and after the lookup, draft edit and write-back the committed tree is `NavigationTree.UpdateTabStackState` of the old one |
| `ScreenPresenter.MainModalStackRef.PopToRootAndScrollToTop` | src/app/NativeModules/ARScreenPresenterModule.tsx:113-122 | commits the pop-to-root tab edit of the old tree; unmounted changes nothing |
| `ScreenPresenter.MainModalStackRef.PopToRootOrScrollToTop` | src/app/NativeModules/ARScreenPresenterModule.tsx:123-135 | commits the guarded pop-to-root tab edit of the old tree; unmounted changes nothing |
| `ScreenPresenter.MainModalStackRef.PopStack` | src/app/NativeModules/ARScreenPresenterModule.tsx:145-150 | commits the pop tab edit of the old tree; unmounted changes nothing |
| `ScreenPresenter.MainModalStackRef.DismissModal` | src/app/NativeModules/ARScreenPresenterModule.tsx:154-163 | throws iff no container is mounted; otherwise the committed root is `PopModal` of the old root |
| `ScreenPresenter.CurrentlyPresentedModalNavStackKey` | src/app/NativeModules/ARScreenPresenterModule.tsx:63-77 | none iff the root is absent or has at most one route; otherwise the last root route's key, and an error iff that key is missing or empty |
| `ScreenPresenter.PresentModalAction` | src/app/NativeModules/ARScreenPresenterModule.tsx:96-111 | a replace iff `replace` is true, a push otherwise; both target `"modal"` with the descriptor's module name and props |
| `ScreenPresenter.PushViewAction` | src/app/NativeModules/ARScreenPresenterModule.tsx:136-143 | a push to `"screen:" + modal key` when a modal is presented, to `"screen:" + tab` when none is, and an error when the key lookup throws; module name and props are passed unchanged |
| `ScreenPresenter.ScreenTargetsDistinct` | src/app/NativeModules/ARScreenPresenterModule.tsx:139 | different stack keys give different push targets |
| `ScreenPresenter.PushViewWhileModalPresented` | src/app/NativeModules/ARScreenPresenterModule.tsx:136-143 | while a modal is presented, the push goes to the modal's stack and not to the background tab's |
| `SaleListItem.JsRemainder` | src/app/Scenes/Sales/Components/SaleListItem.tsx:29 | JavaScript `%`: `NaN` iff the divisor is 0; otherwise the remainder has the dividend's sign, is smaller than the divisor in magnitude, and differs from the dividend by a multiple of the divisor |
| `SaleListItem.IsFirstItemInRow` | src/app/Scenes/Sales/Components/SaleListItem.tsx:29 | index 0 always starts a row; with zero columns only index 0 does; with columns a row starter's index is a multiple of the column count |
| `SaleListItem.FirstInRowWithColumns` | src/app/Scenes/Sales/Components/SaleListItem.tsx:29 | with a non-zero column count, a card starts a row iff its index is a multiple of the column count |
| `SaleListItem.FirstInRowWithoutColumns` | src/app/Scenes/Sales/Components/SaleListItem.tsx:29 | with zero columns only index 0 starts a row |
| `SaleListItem.MarginLeft` | src/app/Scenes/Sales/Components/SaleListItem.tsx:30 | the margin is 0 or 20, and 0 iff the card starts a row |
| `SaleListItem.TapURL` | src/app/Scenes/Sales/Components/SaleListItem.tsx:18-24 | a tap opens `liveURLIfOpen` when it is truthy, else `href`; the URL is truthy iff either is |
| `SaleListItem.Layout` | src/app/Scenes/Sales/Components/SaleListItem.tsx:34-56 | the card is `containerWidth` wide with bottom margin 20; the image is a `containerWidth` square; the image URL is absent without a cover image; the texts are the name and the start time |
| `DeleteArtworkMutation.MutationVariables` | src/app/Scenes/MyCollection/mutations/myCollectionDeleteArtwork.ts:24-28 | the input carries exactly the given artwork id |
| `DeleteArtworkMutation.HasErrors` | src/app/Scenes/MyCollection/mutations/myCollectionDeleteArtwork.ts:30 | `errors?.length` is falsy exactly for an absent or empty list |
| `DeleteArtworkMutation.MutationErrorOf` | src/app/Scenes/MyCollection/mutations/myCollectionDeleteArtwork.ts:32 | a mutation error is found iff the payload, its union value, the failure case and its `mutationError` are all present |
| `DeleteArtworkMutation.OnCompleted` | src/app/Scenes/MyCollection/mutations/myCollectionDeleteArtwork.ts:29-37 | a non-empty `errors` list rejects with that list; otherwise a mutation error rejects with its message; otherwise it resolves with the response unchanged, and it never reports a transport failure |
| `DeleteArtworkMutation.OnError` | src/app/Scenes/MyCollection/mutations/myCollectionDeleteArtwork.ts:38 | a transport error always rejects, carrying that error |
| `DeleteArtworkMutation.ErrorsTakePriority` | src/app/Scenes/MyCollection/mutations/myCollectionDeleteArtwork.ts:30-33 | with a non-empty `errors` list the outcome does not depend on the response at all |
| `DeleteArtworkMutation.EmptyErrorsLikeNone` | src/app/Scenes/MyCollection/mutations/myCollectionDeleteArtwork.ts:30 | an empty `errors` list is treated like an absent one |
| `DeleteArtworkMutation.CompletionClassified` | src/app/Scenes/MyCollection/mutations/myCollectionDeleteArtwork.ts:29-38 | each completion falls in exactly one of the three branches, each branch has its stated condition, and a transport error rejects |

## Left out

- `NavigationTree.TruncateToRoot`: requires a non-empty stack. On an empty one JavaScript stores `[undefined]`, which the route datatype cannot hold. That case is reachable: a `popStack` on a one-route tab stack leaves it empty (`PopStackEmptiesSingleRoute`), and a later `popToRootAndScrollToTop` on that tab is not modelled.
- `NavigationTree.ApplyUpdater`: requires the same non-empty stack for the pop-to-root-and-scroll updater, for the same reason.
- `NavigationTree.UpdateTabStackState`: requires the found tab's stack to be non-empty for `popToRootAndScrollToTop`, for the same reason. `TabNowHolds` carries the same requirement.
- `ScreenPresenter.Draft.PopToRootAndScrollToTop`: requires a non-empty draft stack, for the same reason.
- `ScreenPresenter.MainModalStackRef.UpdateTabStackState`: requires the found tab's stack to be non-empty for `popToRootAndScrollToTop`, for the same reason.
- `ScreenPresenter.MainModalStackRef.PopToRootAndScrollToTop`: requires the found tab's stack to be non-empty, for the same reason.
- Route `params`, the navigators' `key`, `type`, `routeNames` and `stale`, and the tab navigator's `history` are not represented. The edits pass them through untouched, so the frame lemmas' "nothing else changes" covers only the modelled fields: names, keys, nested states and indexes.
- `switchTab`, `goBack` and `updateShouldHideBackButton`. The first two hand over to react-navigation (`TabActions.jumpTo`, `goBack`), whose effect on the tree is not part of this model. The third only logs a warning.
- What the navigation library does with the `StackActions.push` and `StackActions.replace` actions. The builders return the action values, and sending them to the container is not modelled. So a `pushView` followed by a `popStack` is not related here.
- The deferred dispatch in `dispatchNavAction`, when the container is not yet mounted. It is runtime scheduling with no effect on the tree.
- `StatusBar.setBarStyle` in `dismissModal`, every `console.warn`/`console.error`, and the `__DEV__` scroll-to-top placeholders. They are side effects on the host.
- Module properties (`props`) are modelled as a map from strings to strings. They are passed through untouched and never inspected.
- The sale card's numbers: `index` and `columnCount` are integers and `containerWidth` is a real. Fractional indexes, `NaN` and infinite operands are not modelled. Text styling (variants, colours, line counts) and `overflow` are rendering only. `navigate` itself is not part of this model.
- The Relay `commitMutation` call, the promise and the GraphQL document are not modelled. The transport error is an opaque string.
- The other files of the repository: screens, headers, tab bar, saved-search mutations, partner pagination, screen dimensions, the native options header and the render tests. They are UI or library glue.
