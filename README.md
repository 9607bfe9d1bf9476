# Swipe-back control: a Dafny model of the per-page back-gesture policy

The swipe-back-control plugin lets a hybrid (WebView) application switch the
native "swipe from the left edge to go back" gesture off and on per page. The
plugin keeps a set of page keys for which the gesture is disabled. The
repository holds three drafts of that plugin that key pages differently, and
each is modelled on its own:

- `IosPathPlugin` (`ios/Plugin/SwipeBackControlPlugin.swift`): keys are
  normalised URL paths (`NormalizePath`: drop one trailing `/`, ensure a
  leading `/`). `enableSwipeBack` removes or inserts a key, `disableSwipeBack`
  inserts the WebView's current path or rejects when there is none, and the
  left-edge pan handler either suppresses the gesture, ignores it, or asks the
  page to go back.
- `AndroidPlugin` (`android/.../SwipeBackControlPlugin.java`): keys are stored
  raw. The current page is the WebView URL's suffix from its last `/`
  (`url.substring(url.lastIndexOf("/"))`). That call throws when the URL
  has no `/`, and the call is then rejected. Every change refreshes the
  window's gesture state from `!disabledPages.contains(page)`.
- `IosTitlePlugin` (`ios/Plugin.swift`): keys are the top view controller's
  navigation-item title, and every change sets the interactive-pop
  recogniser's `isEnabled` from the set.

Shared pieces: `PluginCall` (optional arguments with their defaults, and
`Outcome`: resolve or reject with a message) and `PagePolicy` (the set update
all three drafts perform, `Update`, and what a whole session of requests
leaves in the set, `Replay`).

Each plugin is a class with a `disabledPages: set<string>` field. Its methods
take what they read from the host as parameters: the WebView URL or path,
the activity and API level, and the view-controller chain. Their `ensures`
state the new set as `PagePolicy.Update` of the old one. The lemmas of
`PagePolicy` then give the policy's properties: idempotence, last write wins,
independence of keys, and the fail-open default.

Points where the code's behaviour may surprise:

- Normalisation is not idempotent. `"a//"` gives `"/a/"`, which gives `"/a"`.
  `NormalizeIdempotentIff` states exactly when it is.
- The iOS URL-path `disableSwipeBack` rejects with "Cannot determine current
  path" when the WebView has no URL. The policy is therefore not total at the
  plugin boundary.
- The Android and title drafts store keys without normalising them.
- No draft has a "replace current history entry" corrective action. The only
  reaction to a disabled page is to suppress the gesture.

`IosPathPluginClient.Session` is a client of the URL-path plugin: a short
session of calls (disable `/checkout/`, re-enable it as `checkout`, disable
with no page, disable with no URL, three edge pans) whose outcomes follow
from the contracts alone.

## Model

| member | source | states |
|---|---|---|
| `PagePolicy.Update` | ios/Plugin/SwipeBackControlPlugin.swift:130-136 | after a request the key is disabled iff the request disabled it, and every other key keeps its membership |
| `PagePolicy.EnableAbsentIsNoOp` | ios/Plugin/SwipeBackControlPlugin.swift:130-131 | enabling a key that is not disabled leaves the set unchanged |
| `PagePolicy.UpdateIdempotent` | ios/Plugin/SwipeBackControlPlugin.swift:133-134 | making the same request twice gives the same set as making it once |
| `PagePolicy.LastWriteWins` | ios/Plugin/SwipeBackControlPlugin.swift:130-136 | of two requests for one key only the later one determines the set |
| `PagePolicy.UpdatesCommute` | ios/Plugin/SwipeBackControlPlugin.swift:130-136 | requests for different keys can be made in either order |
| `PagePolicy.ReplayMembership` | ios/Plugin/SwipeBackControlPlugin.swift:124-136 | starting from the empty set, a key is disabled iff the latest request naming it disabled it; a key never named is allowed |
| `IosPathPlugin.NormalizePath` | ios/Plugin/SwipeBackControlPlugin.swift:88-99 | the key is non-empty and starts with `/`; a trailing `/` of the path is always dropped and a leading `/` is added exactly when the path has none (`/` stays `/`) |
| `IosPathPlugin.NormalizeFixedPoints` | ios/Plugin/SwipeBackControlPlugin.swift:88-99 | normalisation leaves a string unchanged iff it starts with `/` and does not end with `/`, or is `/` |
| `IosPathPlugin.NormalizeYieldsPageKey` | ios/Plugin/SwipeBackControlPlugin.swift:91-97 | the result is such a fixed point iff the input does not end in `//` or is `//` |
| `IosPathPlugin.NormalizeIdempotentIff` | ios/Plugin/SwipeBackControlPlugin.swift:88-99 | normalising twice equals normalising once iff the input does not end in `//` or is `//` |
| `IosPathPlugin.NotIdempotentExample` | ios/Plugin/SwipeBackControlPlugin.swift:91-97 | `"a//"` normalises to `"/a/"` and then to `"/a"` |
| `IosPathPlugin.NormalizeSlashVariants` | ios/Plugin/SwipeBackControlPlugin.swift:91-97 | `"/a/"`, `"/a"`, `"a/"` and `"a"` all give `"/a"` when `a` has no slash at either end, and all give the root `/` when `a` is empty |
| `IosPathPlugin.EmptyPathIsRoot` | ios/Plugin/SwipeBackControlPlugin.swift:124-126 | the empty path (a missing `currentPage`) and `/` share the key `/` |
| `IosPathPlugin.CurrentPath` | ios/Plugin/SwipeBackControlPlugin.swift:101-108 | there is a current path iff the WebView has a URL, and it is the normalised URL path |
| `IosPathPlugin.SwipeBackControlPlugin.constructor` | ios/Plugin/SwipeBackControlPlugin.swift:7-7 | the disabled set starts empty |
| `IosPathPlugin.SwipeBackControlPlugin.EnableSwipeBack` | ios/Plugin/SwipeBackControlPlugin.swift:124-138 | `enabled` defaults to true and `currentPage` to `""`; the set is updated for the normalised key; the page is then allowed iff `enabled`; the call resolves |
| `IosPathPlugin.SwipeBackControlPlugin.DisableSwipeBack` | ios/Plugin/SwipeBackControlPlugin.swift:150-158 | without a URL the call rejects with "Cannot determine current path" and the set is unchanged; otherwise the normalised path is disabled and the call resolves |
| `IosPathPlugin.SwipeBackControlPlugin.HandleEdgePanGesture` | ios/Plugin/SwipeBackControlPlugin.swift:47-86 | no URL: nothing happens; a disabled page suppresses the gesture before any navigation; back navigation fires iff the page is allowed, the pan has ended, and translation > 50 or velocity > 300 |
| `AndroidPlugin.LastIndexOf` | android/src/main/java/com/getcapacitor/plugin/swipebackcontrol/SwipeBackControlPlugin.java:57-57 | the result is -1 iff the character is absent, and otherwise an occurrence with none after it |
| `AndroidPlugin.Substring` | android/src/main/java/com/getcapacitor/plugin/swipebackcontrol/SwipeBackControlPlugin.java:57-57 | throws iff the begin index is outside `0..length`; otherwise returns the suffix from that index |
| `AndroidPlugin.CurrentPage` | android/src/main/java/com/getcapacitor/plugin/swipebackcontrol/SwipeBackControlPlugin.java:53-60 | `""` with no WebView or URL; throws iff the URL has no `/`; otherwise a suffix of the URL that starts with `/` and has no other `/` |
| `AndroidPlugin.SwipeBackControlPlugin.constructor` | android/src/main/java/com/getcapacitor/plugin/swipebackcontrol/SwipeBackControlPlugin.java:20-20 | the disabled set starts empty and the window has not been touched |
| `AndroidPlugin.SwipeBackControlPlugin.UpdateBackGestureState` | android/src/main/java/com/getcapacitor/plugin/swipebackcontrol/SwipeBackControlPlugin.java:62-86 | with an activity on API level 29 or later the window's gesture state becomes `!disabledPages.contains(page)`; otherwise the window is untouched; the set never changes |
| `AndroidPlugin.SwipeBackControlPlugin.EnableSwipeBack` | android/src/main/java/com/getcapacitor/plugin/swipebackcontrol/SwipeBackControlPlugin.java:22-39 | `enabled` defaults to true and `currentPage` to `""`; the raw key is removed or added; the window then shows `enabled`; the call resolves |
| `AndroidPlugin.SwipeBackControlPlugin.DisableSwipeBack` | android/src/main/java/com/getcapacitor/plugin/swipebackcontrol/SwipeBackControlPlugin.java:41-51 | when `getCurrentPage` throws the call rejects and nothing changes; otherwise the page is added, the window shows it disabled, and the call resolves |
| `IosTitlePlugin.CurrentTitle` | ios/Plugin.swift:27-27 | the key is the top view controller's title, or `""` when the navigation controller, the top view controller or the title is missing |
| `IosTitlePlugin.SwipeBackControlPlugin.constructor` | ios/Plugin.swift:6-6 | the disabled set starts empty and the recogniser has not been touched |
| `IosTitlePlugin.SwipeBackControlPlugin.UpdateSwipeBackGesture` | ios/Plugin.swift:35-46 | where a pop recogniser exists it is enabled iff the current title is not disabled, and a disabled title clears its delegate for good; otherwise nothing changes |
| `IosTitlePlugin.SwipeBackControlPlugin.EnableSwipeBack` | ios/Plugin.swift:8-22 | `enabled` defaults to true and `currentPage` to `""`; the raw key is removed or inserted; the page is then enabled iff `enabled`; where a pop recogniser exists it is enabled iff the current title is not disabled and a disabled title clears its delegate, otherwise both are untouched; the call resolves |
| `IosTitlePlugin.SwipeBackControlPlugin.DisableSwipeBack` | ios/Plugin.swift:24-33 | with a view controller the current title (or `""`) is disabled and any pop recogniser switched off with its delegate cleared, a missing recogniser being left untouched; without a view controller nothing changes; the call resolves either way |

## Left out

- Installing, removing and retrying the edge-pan recogniser, `load`, `deinit` and `isInitialized` in `ios/Plugin/SwipeBackControlPlugin.swift` are UIKit plumbing. They do not touch the disabled set.
- `DispatchQueue.main.async` wrapping is not modelled; each call is one sequential step. The `[weak self]` "Plugin instance is deallocated" rejections are also left out: they are object-lifetime concerns.
- Running `window.history.back()` and all logging are not modelled. A back navigation is the returned `NavigateBack` action. Switching the recogniser off and on again is the returned `Suppressed` action.
- Translation and velocity are `real`, not CGFloat. Floating-point rounding is not modelled.
- How the host supplies its state is not modelled. `url.path` (percent-decoding; Foundation may already strip a trailing slash), `webView.getUrl()`, `getActivity()`, `Build.VERSION.SDK_INT` and the view-controller chain are parameters of the methods.
- `AndroidPlugin.SwipeBackControlPlugin.DisableSwipeBack`: the rejection message is only the prefix "Failed to disable swipe back: ". The Java exception's own message is appended in the source, but its text depends on the JDK and is not modelled.
- The `catch` in the Android `enableSwipeBack` is not modelled. Nothing in the modelled `try` block can throw, so the call always resolves.
- The Android window changes (`FLAG_LAYOUT_NO_LIMITS` and the navigation-bar colour) are reduced to one `Option<bool>`: the last gesture state written to the window.
- In `ios/Plugin.swift` the recogniser's `isEnabled` and `delegate` belong to the navigation controller. They are modelled as fields of the plugin, which assumes one navigation controller for the whole session.
- Strings are sequences of characters compared element by element. Swift's grapheme clusters and canonical-equivalence comparison are not modelled.
- Capacitor's argument extraction (`getBool`, `getString`, `getBoolean`) is modelled as `Option` arguments with the stated defaults. A value of the wrong type counts as absent.
- The `echo` stub in `ios/Sources/SwipeBackControlPlugin/SwipeBackControlPlugin.swift` is a template placeholder that never reads or writes the disabled set, so it is not modelled. The TypeScript definitions, the registration, `Package.swift` and the Objective-C header are interface and packaging only.
