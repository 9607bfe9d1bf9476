/** The URL-path draft of the iOS plugin (ios/Plugin/SwipeBackControlPlugin.swift):
    pages are keyed by the normalised path of the WebView's URL, and a custom
    left-edge pan gesture asks the page policy before navigating back. */
module IosPathPlugin {
  import opened PluginCall
  import opened PagePolicy

  predicate StartsWithSlash(s: string) {
    |s| > 0 && s[0] == '/'
  }

  predicate EndsWithSlash(s: string) {
    |s| > 0 && s[|s| - 1] == '/'
  }

  predicate EndsWithDoubleSlash(s: string) {
    |s| >= 2 && s[|s| - 2] == '/' && s[|s| - 1] == '/'
  }

  /** A key that normalisation leaves as it is: it starts with `/` and does
      not end with `/`, unless it is the root `/` itself. */
  predicate IsPageKey(k: string) {
    StartsWithSlash(k) && (k == "/" || !EndsWithSlash(k))
  }

  /** Drops one trailing `/`, then prepends `/` unless the result already
      starts with one. The input is recovered from the result by dropping its
      leading `/` exactly when the input had none, and appending `/` exactly
      when the input ended with one (`/` itself maps to `/`). */
  function NormalizePath(path: string): (r: string)
    ensures StartsWithSlash(r)
    // summary of the three case clauses below: at most one `/` added, at most one dropped
    ensures path in {r, r[1..], r + "/", r[1..] + "/"}
    ensures StartsWithSlash(path) && path != "/" ==>
      (EndsWithSlash(path) ==> path == r + "/") && (!EndsWithSlash(path) ==> path == r)
    ensures !StartsWithSlash(path) ==>
      (EndsWithSlash(path) ==> path == r[1..] + "/") && (!EndsWithSlash(path) ==> path == r[1..])
    ensures path == "/" ==> r == "/"
  {
    var trimmed := if EndsWithSlash(path) then path[..|path| - 1] else path;
    assert path == trimmed || path == trimmed + "/";
    var r := if StartsWithSlash(trimmed) then trimmed else "/" + trimmed;
    assert r == trimmed || r[1..] == trimmed;
    r
  }

  /** Page keys are exactly the strings normalisation leaves unchanged. */
  lemma NormalizeFixedPoints(k: string)
    ensures NormalizePath(k) == k <==> IsPageKey(k)
  {
  }

  /** Normalisation yields a page key unless its input ends in `//`; the one
      exception is `//` itself, which yields `/`. */
  lemma NormalizeYieldsPageKey(p: string)
    ensures IsPageKey(NormalizePath(p)) <==> !EndsWithDoubleSlash(p) || p == "//"
  {
  }

  /** Normalising twice is normalising once exactly when the input does not
      end in `//` or is `//` itself: `"a//"` gives `"/a/"` and then `"/a"`. */
  lemma NormalizeIdempotentIff(p: string)
    ensures NormalizePath(NormalizePath(p)) == NormalizePath(p) <==> !EndsWithDoubleSlash(p) || p == "//"
  {
  }

  lemma NotIdempotentExample()
    ensures NormalizePath("a//") == "/a/"
    ensures NormalizePath(NormalizePath("a//")) == "/a"
  {
    assert EndsWithSlash("a//") && "a//"[..2] == "a/";
    assert EndsWithSlash("/a/") && "/a/"[..2] == "/a";
  }

  /** `"/a/"`, `"/a"`, `"a/"` and `"a"` name the same page `"/a"` whenever `a`
      neither starts nor ends with `/`; for the empty `a` that page is the root. */
  lemma NormalizeSlashVariants(a: string)
    requires a == [] || (a[0] != '/' && a[|a| - 1] != '/')
    ensures NormalizePath(a) == "/" + a
    ensures NormalizePath("/" + a) == "/" + a
    ensures NormalizePath(a + "/") == "/" + a
    ensures NormalizePath("/" + a + "/") == "/" + a
  {
  }

  /** The empty path, what a missing `currentPage` becomes, shares the key of
      the root page. */
  lemma EmptyPathIsRoot()
    ensures NormalizePath("") == NormalizePath("/") == "/"
  {
  }

  /** The normalised path of the WebView's URL, or `None` when the WebView or
      its URL is missing (`webViewUrlPath` is `url.path` when there is one). */
  function CurrentPath(webViewUrlPath: Option<string>): (r: Option<string>)
    ensures r.None? <==> webViewUrlPath.None?
    ensures r.Some? ==> StartsWithSlash(r.value) && r.value == NormalizePath(webViewUrlPath.value)
  {
    match webViewUrlPath
    case None => None
    case Some(path) => Some(NormalizePath(path))
  }

  const CannotDeterminePath := "Cannot determine current path"

  /** Translation (points) and velocity (points per second) beyond which an
      ended edge pan counts as a back swipe. */
  const BackTranslationThreshold: real := 50.0
  const BackVelocityThreshold: real := 300.0

  /** The states a gesture recogniser reports to its handler. */
  datatype GestureState = Possible | Began | Changed | Ended | Cancelled | Failed

  /** What one call of the edge-pan handler does. */
  datatype EdgePanAction =
    | NoUrl          // no WebView URL: the handler returns at once
    | Suppressed     // page disabled: the recogniser is switched off and on again
    | Ignored        // allowed, but not an ended pan past a threshold
    | NavigateBack   // allowed and significant: `window.history.back()` is run

  class SwipeBackControlPlugin {
    var disabledPages: set<string>

    constructor ()
      ensures disabledPages == {}
    {
      disabledPages := {};
    }

    /** Whether a swipe on the page at `path` may proceed. */
    predicate SwipeAllowed(path: string)
      reads this
    {
      Allowed(disabledPages, NormalizePath(path))
    }

    /** `enableSwipeBack({enabled, currentPage})`: `enabled` defaults to true and
        `currentPage` to `""`; the page's normalised key is removed from or
        inserted into the set, and the call resolves. */
    method EnableSwipeBack(enabled: Option<bool>, currentPage: Option<string>) returns (outcome: Outcome)
      modifies this
      ensures outcome == Resolved
      ensures disabledPages == Update(old(disabledPages), NormalizePath(currentPage.GetOr("")), enabled.GetOr(true))
      ensures SwipeAllowed(currentPage.GetOr("")) == enabled.GetOr(true)
    {
      var on := enabled.GetOr(true);
      var page := NormalizePath(currentPage.GetOr(""));
      if on {
        disabledPages := disabledPages - {page};
      } else {
        disabledPages := disabledPages + {page};
      }
      outcome := Resolved;
    }

    /** `disableSwipeBack()`: inserts the normalised path of the WebView's URL;
        with no URL it rejects and leaves the set as it was. */
    method DisableSwipeBack(webViewUrlPath: Option<string>) returns (outcome: Outcome)
      modifies this
      ensures webViewUrlPath.None? ==> outcome == Rejected(CannotDeterminePath) && disabledPages == old(disabledPages)
      ensures webViewUrlPath.Some? ==>
        && outcome == Resolved
        && disabledPages == Update(old(disabledPages), NormalizePath(webViewUrlPath.value), false)
        && !SwipeAllowed(webViewUrlPath.value)
    {
      var currentPath := CurrentPath(webViewUrlPath);
      match currentPath
      case None =>
        outcome := Rejected(CannotDeterminePath);
      case Some(path) =>
        disabledPages := disabledPages + {path};
        outcome := Resolved;
    }

    /** The edge-pan handler: a disabled page suppresses the gesture before any
        navigation; otherwise back navigation fires only when the pan has ended
        beyond the translation or the velocity threshold. */
    method HandleEdgePanGesture(webViewUrlPath: Option<string>, state: GestureState,
                                translationX: real, velocityX: real)
      returns (action: EdgePanAction)
      ensures action == NoUrl <==> webViewUrlPath.None?
      ensures action == Suppressed <==> webViewUrlPath.Some? && !SwipeAllowed(webViewUrlPath.value)
      ensures action == NavigateBack <==>
        && webViewUrlPath.Some? && SwipeAllowed(webViewUrlPath.value)
        && state == Ended
        && (translationX > BackTranslationThreshold || velocityX > BackVelocityThreshold)
    {
      if webViewUrlPath.None? {
        return NoUrl;
      }
      var currentPath := NormalizePath(webViewUrlPath.value);
      var isEnabled := currentPath !in disabledPages;
      if !isEnabled {
        return Suppressed;
      }
      action := Ignored;
      if state == Began {
        // only logged
      } else if state == Ended {
        if translationX > BackTranslationThreshold || velocityX > BackVelocityThreshold {
          action := NavigateBack;
        }
      }
    }
  }
}

/** A client of the URL-path plugin: what a caller can conclude from the
    contracts alone. */
module IosPathPluginClient {
  import opened PluginCall
  import opened IosPathPlugin

  method Session() {
    var plugin := new SwipeBackControlPlugin();
    assert plugin.SwipeAllowed("/home");

    var outcome := plugin.EnableSwipeBack(Some(false), Some("/checkout/"));
    assert outcome == Resolved;
    NormalizeSlashVariants("checkout");
    assert "/" + "checkout" + "/" == "/checkout/" && "/" + "checkout" == "/checkout";
    assert !plugin.SwipeAllowed("/checkout") && !plugin.SwipeAllowed("checkout");
    assert plugin.SwipeAllowed("/home");

    outcome := plugin.EnableSwipeBack(None, Some("checkout"));
    assert plugin.SwipeAllowed("/checkout/");

    outcome := plugin.EnableSwipeBack(Some(false), None);
    EmptyPathIsRoot();
    assert !plugin.SwipeAllowed("/");

    outcome := plugin.DisableSwipeBack(None);
    assert outcome == Rejected("Cannot determine current path");
    assert !plugin.SwipeAllowed("") && plugin.SwipeAllowed("checkout");

    var action := plugin.HandleEdgePanGesture(Some("/"), Ended, 80.0, 0.0);
    assert action == Suppressed;
    action := plugin.HandleEdgePanGesture(Some("/checkout"), Ended, 10.0, 400.0);
    assert action == NavigateBack;
    action := plugin.HandleEdgePanGesture(Some("/checkout"), Began, 80.0, 400.0);
    assert action == Ignored;
  }
}
