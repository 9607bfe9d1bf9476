/** The Android draft of the plugin
    (android/src/main/java/com/getcapacitor/plugin/swipebackcontrol/SwipeBackControlPlugin.java):
    keys are stored raw; the current page is the WebView URL's suffix from its
    last `/`, and each change refreshes the window's back-gesture state. */
module AndroidPlugin {
  import opened PluginCall
  import opened PagePolicy

  /** `String.lastIndexOf`: the index of the last `c` in `s`, or -1. */
  function LastIndexOf(s: string, c: char): (i: int)
    ensures -1 <= i < |s|
    ensures i == -1 <==> c !in s
    ensures 0 <= i ==> s[i] == c && forall j :: i < j < |s| ==> s[j] != c
  {
    if s == [] then -1
    else if s[|s| - 1] == c then |s| - 1
    else LastIndexOf(s[..|s| - 1], c)
  }

  /** The exception `String.substring` throws for a bad begin index. */
  datatype JavaException = StringIndexOutOfBounds(beginIndex: int)

  /** A Java computation that returns a value or throws. */
  datatype Thrown<T> = Returned(value: T) | Threw(exception: JavaException)

  /** `String.substring(begin)`: the suffix of `s` from `begin`; throws unless
      `0 <= begin <= |s|`. */
  function Substring(s: string, begin: int): (r: Thrown<string>)
    ensures r.Threw? <==> begin < 0 || begin > |s|
    ensures r.Returned? ==> s == s[..begin] + r.value
  {
    if 0 <= begin <= |s| then Returned(s[begin..]) else Threw(StringIndexOutOfBounds(begin))
  }

  /** `getCurrentPage()`: `""` when the WebView or its URL is null; otherwise the
      URL's suffix from its last `/`, inclusive, which throws when the URL has
      no `/`. */
  function CurrentPage(webViewUrl: Option<string>): (r: Thrown<string>)
    ensures webViewUrl.None? ==> r == Returned("")
    ensures webViewUrl.Some? ==> (r.Threw? <==> '/' !in webViewUrl.value)
    ensures webViewUrl.Some? && r.Returned? ==>
      var url, page := webViewUrl.value, r.value;
      && |page| > 0 && page[0] == '/' && '/' !in page[1..]
      && |page| <= |url| && url[|url| - |page|..] == page
  {
    match webViewUrl
    case None => Returned("")
    case Some(url) =>
      Substring(url, LastIndexOf(url, '/'))
  }

  /** Android 10 (API level 29, `Build.VERSION_CODES.Q`): the first release on
      which the window flags are changed. */
  const SdkQ := 29

  /** What the plugin sees of its host: whether an activity is attached and the
      device's API level. */
  datatype Host = Host(hasActivity: bool, sdkInt: int)

  const DisableFailedPrefix := "Failed to disable swipe back: "

  class SwipeBackControlPlugin {
    var disabledPages: set<string>
    /** The gesture state last applied to the window: `Some(true)` when the
        no-limits flag was cleared (transparent navigation bar), `Some(false)`
        when it was set (black navigation bar), `None` before any change. */
    var windowGestureEnabled: Option<bool>

    constructor ()
      ensures disabledPages == {} && windowGestureEnabled == None
    {
      disabledPages := {};
      windowGestureEnabled := None;
    }

    /** The `isEnabled` value computed for a page. */
    predicate IsEnabled(currentPage: string)
      reads this
    {
      Allowed(disabledPages, currentPage)
    }

    /** `updateBackGestureState(currentPage)`: with an activity on Android 10 or
        later, the window reflects whether the page is enabled; otherwise the
        window is left alone. The set is never changed. */
    method UpdateBackGestureState(currentPage: string, host: Host)
      modifies this`windowGestureEnabled
      ensures host.hasActivity && host.sdkInt >= SdkQ ==> windowGestureEnabled == Some(currentPage !in disabledPages)
      ensures !(host.hasActivity && host.sdkInt >= SdkQ) ==> windowGestureEnabled == old(windowGestureEnabled)
    {
      if host.hasActivity {
        var isEnabled := !(currentPage in disabledPages);
        if host.sdkInt >= SdkQ {
          windowGestureEnabled := Some(isEnabled);
        }
      }
    }

    /** `enableSwipeBack({enabled, currentPage})`: `enabled` defaults to true and
        `currentPage` to `""`; the raw key is removed or added, the window is
        refreshed for it, and the call resolves. */
    method EnableSwipeBack(enabled: Option<bool>, currentPage: Option<string>, host: Host)
      returns (outcome: Outcome)
      modifies this
      ensures outcome == Resolved
      ensures disabledPages == Update(old(disabledPages), currentPage.GetOr(""), enabled.GetOr(true))
      ensures IsEnabled(currentPage.GetOr("")) == enabled.GetOr(true)
      ensures host.hasActivity && host.sdkInt >= SdkQ ==> windowGestureEnabled == Some(enabled.GetOr(true))
      ensures !(host.hasActivity && host.sdkInt >= SdkQ) ==> windowGestureEnabled == old(windowGestureEnabled)
    {
      var on := enabled.GetOr(true);
      var page := currentPage.GetOr("");
      if on {
        disabledPages := disabledPages - {page};
      } else {
        disabledPages := disabledPages + {page};
      }
      UpdateBackGestureState(page, host);
      outcome := Resolved;
    }

    /** `disableSwipeBack()`: adds the current page key and refreshes the window;
        when the URL has no `/`, `substring` throws before `add` is reached, so
        the call rejects and nothing changes. */
    method DisableSwipeBack(webViewUrl: Option<string>, host: Host) returns (outcome: Outcome)
      modifies this
      ensures CurrentPage(webViewUrl).Threw? ==>
        outcome == Rejected(DisableFailedPrefix) && unchanged(this)
      ensures CurrentPage(webViewUrl).Returned? ==>
        var page := CurrentPage(webViewUrl).value;
        && outcome == Resolved
        && disabledPages == Update(old(disabledPages), page, false)
        && !IsEnabled(page)
        && (host.hasActivity && host.sdkInt >= SdkQ ==> windowGestureEnabled == Some(false))
        && (!(host.hasActivity && host.sdkInt >= SdkQ) ==> windowGestureEnabled == old(windowGestureEnabled))
    {
      var current := CurrentPage(webViewUrl);
      match current
      case Threw(_) =>
        outcome := Rejected(DisableFailedPrefix);
      case Returned(page) =>
        disabledPages := disabledPages + {page};
        UpdateBackGestureState(page, host);
        outcome := Resolved;
    }
  }
}
