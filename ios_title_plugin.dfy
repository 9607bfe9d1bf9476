/** The title-keyed draft of the iOS plugin (ios/Plugin.swift): pages are keyed
    by the top view controller's navigation-item title, and each change sets
    the navigation controller's interactive-pop gesture from the page policy. */
module IosTitlePlugin {
  import opened PluginCall
  import opened PagePolicy

  /** The part of a navigation controller the plugin reads and writes.
      `topTitle` is `None` when there is no top view controller or its
      navigation item has no title. */
  datatype NavigationController = NavigationController(topTitle: Option<string>, hasPopGesture: bool)

  /** The bridge's view controller, if any, and its navigation controller, if any. */
  datatype Bridge = NoViewController | ViewController(navigationController: Option<NavigationController>)

  /** The key of the current page: the top view controller's title, or `""`
      when any link of the chain is missing. */
  function CurrentTitle(nav: Option<NavigationController>): (title: string)
    ensures nav.Some? && nav.value.topTitle.Some? ==> title == nav.value.topTitle.value
    ensures nav.None? || nav.value.topTitle.None? ==> title == ""
  {
    match nav
    case None => ""
    case Some(n) => n.topTitle.GetOr("")
  }

  class SwipeBackControlPlugin {
    var disabledPages: set<string>
    /** The interactive-pop recogniser's `isEnabled` as last set by the plugin
        (`None` before the plugin ever set it). */
    var popGestureEnabled: Option<bool>
    /** Whether the plugin has set the recogniser's delegate to `nil`. */
    var popDelegateCleared: bool

    constructor ()
      ensures disabledPages == {} && popGestureEnabled == None && !popDelegateCleared
    {
      disabledPages := {};
      popGestureEnabled := None;
      popDelegateCleared := false;
    }

    /** The `isEnabled` value computed for a page title. */
    predicate IsEnabled(title: string)
      reads this
    {
      Allowed(disabledPages, title)
    }

    /** `updateSwipeBackGesture()`: when the bridge has a view controller whose
        navigation controller has an interactive-pop recogniser, that recogniser
        is enabled exactly when the current title is not disabled, and a disabled
        title also clears its delegate, which is never restored. */
    method UpdateSwipeBackGesture(bridge: Bridge)
      modifies this`popGestureEnabled, this`popDelegateCleared
      ensures old(popDelegateCleared) ==> popDelegateCleared
      ensures bridge.ViewController? && bridge.navigationController.Some? && bridge.navigationController.value.hasPopGesture ==>
        && popGestureEnabled == Some(IsEnabled(CurrentTitle(bridge.navigationController)))
        && popDelegateCleared == (old(popDelegateCleared) || !IsEnabled(CurrentTitle(bridge.navigationController)))
      ensures !(bridge.ViewController? && bridge.navigationController.Some? && bridge.navigationController.value.hasPopGesture) ==>
        popGestureEnabled == old(popGestureEnabled) && popDelegateCleared == old(popDelegateCleared)
    {
      if bridge.ViewController? {
        var currentPath := CurrentTitle(bridge.navigationController);
        var isEnabled := !(currentPath in disabledPages);
        match bridge.navigationController
        case None =>
        case Some(nav) =>
          if nav.hasPopGesture {
            popGestureEnabled := Some(isEnabled);
            if !isEnabled {
              popDelegateCleared := true;
            }
          }
      }
    }

    /** `enableSwipeBack({enabled, currentPage})`: `enabled` defaults to true and
        `currentPage` to `""`; the raw key is removed or inserted, the gesture
        is refreshed for the current title, and the call resolves. */
    method EnableSwipeBack(enabled: Option<bool>, currentPage: Option<string>, bridge: Bridge)
      returns (outcome: Outcome)
      modifies this
      ensures outcome == Resolved
      ensures disabledPages == Update(old(disabledPages), currentPage.GetOr(""), enabled.GetOr(true))
      ensures IsEnabled(currentPage.GetOr("")) == enabled.GetOr(true)
      ensures old(popDelegateCleared) ==> popDelegateCleared
      ensures bridge.ViewController? && bridge.navigationController.Some? && bridge.navigationController.value.hasPopGesture ==>
        && popGestureEnabled == Some(IsEnabled(CurrentTitle(bridge.navigationController)))
        && popDelegateCleared == (old(popDelegateCleared) || !IsEnabled(CurrentTitle(bridge.navigationController)))
      ensures !(bridge.ViewController? && bridge.navigationController.Some? && bridge.navigationController.value.hasPopGesture) ==>
        popGestureEnabled == old(popGestureEnabled) && popDelegateCleared == old(popDelegateCleared)
    {
      var on := enabled.GetOr(true);
      var page := currentPage.GetOr("");
      if on {
        disabledPages := disabledPages - {page};
      } else {
        disabledPages := disabledPages + {page};
      }
      UpdateSwipeBackGesture(bridge);
      outcome := Resolved;
    }

    /** `disableSwipeBack()`: with a view controller, inserts the current title
        (or `""`) and refreshes the gesture, which is then disabled wherever a
        recogniser exists; without one nothing changes. Either way it resolves. */
    method DisableSwipeBack(bridge: Bridge) returns (outcome: Outcome)
      modifies this
      ensures outcome == Resolved
      ensures bridge.NoViewController? ==> unchanged(this)
      ensures bridge.ViewController? ==>
        && disabledPages == Update(old(disabledPages), CurrentTitle(bridge.navigationController), false)
        && (bridge.navigationController.Some? && bridge.navigationController.value.hasPopGesture ==>
              popGestureEnabled == Some(false) && popDelegateCleared)
        && (!(bridge.navigationController.Some? && bridge.navigationController.value.hasPopGesture) ==>
              popGestureEnabled == old(popGestureEnabled) && popDelegateCleared == old(popDelegateCleared))
    {
      if bridge.ViewController? {
        var currentPath := CurrentTitle(bridge.navigationController);
        disabledPages := disabledPages + {currentPath};
        UpdateSwipeBackGesture(bridge);
      }
      outcome := Resolved;
    }
  }
}
