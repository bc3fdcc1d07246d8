# Rawframe landing page: navbar and credit logic in Dafny

This project models the two pieces of logic in the Rawframe landing page's
front end. The rest of the page is markup.

- **The credit factory** (`src/utils/credits.js`). It takes a photo author's
  display name and Unsplash handle and builds an attribution record. The record
  holds the author, a profile link with referral parameters, the platform label
  `Unsplash` and the platform link. The model also covers the card overlay in
  `src/components/Showcase.jsx` that renders such a record, including its `||`
  fallbacks for the platform link and label (module `Card`).
- **The navigation bar** (`src/components/Navbar.jsx`). A scroll effect runs
  on every scroll position. It compares the position with the last one it
  recorded and then does one of three things:
  - at the top, it shows the bar flush;
  - scrolling down, it hides the bar and adds the `floating-nav` class;
  - scrolling up, it shows the bar and keeps it floating.

  The visibility flag and the mobile drawer's open flag each select a fixed
  animation target for the bar, the drawer and the drawer's overlay. Three
  clicks set the drawer flag: the menu button, the close button and a link
  inside the drawer.

Module `Navbar` gives the scroll effect a pure specification, `AfterScroll`
over a `ScrollState` value. Class `Navbar.NavbarState` holds the component's
state fields, and its methods update those fields in place; each method is
proved against that specification. The window's scroll position is a `nat`
parameter. The `floating-nav` entry of the container's class list is a boolean
field. The animation targets are datatypes. The tweening library itself is not
modelled.

One behaviour is stated as a proved invariant (`Consistent`): in every state
reachable from mount, the bar floats exactly when the page is away from the
top, and it is shown whenever it is at the top. It follows that seeing the
recorded position again never changes anything. That also holds for the
effect's own second run, which React triggers after the effect records the new
position.

## Model

| member | source | states |
|---|---|---|
| `Credits.Credit` | src/utils/credits.js:17-24 | Total on all strings. The author is kept unchanged. The author link is the profile prefix, then the handle verbatim, then the referral suffix (its length, prefix, middle and suffix are stated separately). Platform and platform link are the fixed constants. |
| `Credits.HandleOf` | src/utils/credits.js:20 | Reading a handle back from a link succeeds exactly when the link has the profile prefix and the referral suffix. When it succeeds, the link is exactly prefix, then the handle read back, then suffix. |
| `Credits.HandleOfOnlyAcceptsCredits` | src/utils/credits.js:20 | The converse of the round trip: every link a handle can be read from is the author link the factory builds for that handle, whatever the author. |
| `Credits.HandleRoundTrip` | src/utils/credits.js:20 | The handle read back from a built record's author link is the handle that went in. |
| `Credits.CreditInjective` | src/utils/credits.js:17-24 | Two built records are equal if and only if they had the same author and the same handle. |
| `Card.AttributionOf` | src/components/Showcase.jsx:89-110 | The overlay exists exactly when a credit is given. The author link uses the record's author link and author name. The platform link and label are never empty. Each is the record's own value when that value is non-empty, and otherwise the fallback `https://unsplash.com` or `Unsplash`. |
| `Card.FactoryCreditsNeedNoFallback` | src/components/Showcase.jsx:102-107 | For every record the credit factory builds, neither `||` fallback fires: the platform link is exactly the factory's platform link and label. |
| `Navbar.Classify` | src/components/Navbar.jsx:30-39 | The effect's case split is exhaustive and exclusive. Top means position 0, whatever the direction. Down and up are strict comparisons away from the top. Still is an unchanged position away from the top. |
| `Navbar.AfterScroll` | src/components/Navbar.jsx:29-43 | The new last position is the current one. At the top: shown, not floating. Down: hidden, floating. Up: shown, floating. Still: both flags unchanged. |
| `Navbar.Trace` | src/components/Navbar.jsx:29-43 | A sequence of scroll events gives one state per event. Each state records its own event's position and follows from the state before it by one run of the effect. |
| `Navbar.TraceConsistent` | src/components/Navbar.jsx:13-43 | Starting from a consistent state (the mount state is one), every state reached is consistent. That means floating exactly when away from the top, and shown at the top. |
| `Navbar.EffectRerunIsFixpoint` | src/components/Navbar.jsx:42-43 | Running the effect a second time on the same position leaves every field unchanged. |
| `Navbar.SamePositionChangesNothing` | src/components/Navbar.jsx:29-42 | In a consistent state, an event at the recorded position changes nothing, the top included. |
| `Navbar.TopAlwaysFlush` | src/components/Navbar.jsx:30-32 | After any history, an event at position 0 leaves the mount state: last 0, shown, not floating. |
| `Navbar.ExampleTrace` | src/components/Navbar.jsx:30-42 | From mount, positions 0, 50, 120, 80 give shown/flush, hidden/floating, hidden/floating and then shown/floating. |
| `Navbar.NavTarget` | src/components/Navbar.jsx:49-55 | The bar is in place (y 0) exactly when visible, and opaque exactly when visible. When hidden it moves 100 pixels up and is transparent. |
| `Navbar.MenuTarget` | src/components/Navbar.jsx:61-80 | The drawer is at x 0 exactly when open, and opaque exactly when open. When closed it is at x 100% and transparent. |
| `Navbar.OverlayTarget` | src/components/Navbar.jsx:69-85 | The overlay's opacity equals the drawer's. Its pointer events are `auto` exactly when open, and `none` otherwise. |
| `Navbar.TargetsDetermineFlags` | src/components/Navbar.jsx:49-87 | Each of the three targets is a one-to-one function of its flag. |
| `Navbar.ActionSets` | src/components/Navbar.jsx:107-148 | Only the menu button opens the drawer. The close button and a drawer link close it. |
| `Navbar.LastClickWins` | src/components/Navbar.jsx:107-148 | After any non-empty sequence of clicks, the drawer flag is the one the last click sets. It does not depend on the earlier clicks or the flag before them (so opening and then closing at once leaves it closed). |
| `Navbar.ClickIdempotent` | src/components/Navbar.jsx:107-148 | Repeating a click leaves the same flag as clicking once. |
| `Navbar.NavbarState.constructor` | src/components/Navbar.jsx:13-15 | Mount state: last position 0, shown, no `floating-nav` (the container's initial class list at line 96 lacks it), drawer closed. The state is consistent. |
| `Navbar.NavbarState.OnScroll` | src/components/Navbar.jsx:29-43 | The new scroll state is `AfterScroll` of the old one. Consistency is kept and the drawer flag is untouched. |
| `Navbar.NavbarState.OpenMenu` | src/components/Navbar.jsx:107 | The drawer flag becomes what the menu-button click sets (open). The scroll state is unchanged, and consistency is kept. |
| `Navbar.NavbarState.CloseMenu` | src/components/Navbar.jsx:138 | The drawer flag becomes what the close-button click sets (closed). The scroll state is unchanged, and consistency is kept. |
| `Navbar.NavbarState.FollowDrawerLink` | src/components/Navbar.jsx:148 | The drawer flag becomes what a drawer-link click sets (closed). The scroll state is unchanged, and consistency is kept. |
| `Navbar.NavbarState.Targets` | src/components/Navbar.jsx:49-87 | The three targets are exactly `NavTarget` of the visibility flag and `MenuTarget` and `OverlayTarget` of the drawer flag, so every value those functions state holds of them. The drawer and overlay opacities agree. |

## Left out

- Tween durations (0.05 s and 0.3 s) and easings (`power2.out`, `power2.in`), and the animation playback itself: only the end values handed to the tweening library are modelled.
- The overlay's target: `overlayRef` is never attached to an element in the component's markup, so the overlay tween in the running page has no element to act on. The model still states the target values the component asks for.
- Scroll positions are whole, non-negative numbers. Fractional positions and the negative positions of overscroll are not modelled. The hook that reports the window's scroll position is a parameter of `OnScroll`.
- React's render scheduling: each run of the scroll effect is one sequential call. The effect's second run, after it records the new position, appears as the lemma `EffectRerunIsFixpoint` rather than as a second call.
- The DOM class list: only the presence of `floating-nav` is modelled, as a boolean.
- The card tilt effect (`BentoTilt` in `src/components/Showcase.jsx`). It is floating-point arithmetic over element sizes plus a timer.
- The scroll-pinned clip animation in `src/components/About.jsx`. Its behaviour lives inside the scroll-trigger plugin, which is not part of this model.
- The favicon switch in `src/components/FaviconSwitcher.jsx`, which is an OS preference subscription.
- The static markup of `src/App.jsx`, `src/components/Hero.jsx`, `src/components/Footer.jsx`, and the rest of `Showcase.jsx` and `Navbar.jsx`.
- `Card.AttributionOf`: models JavaScript's `||` only for string fields, where the empty string is the one falsy value. A record missing a field entirely cannot arise from the credit factory and is not modelled.
