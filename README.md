# Chromer: remove target and app colour extraction, modelled in Dafny

This project models two pieces of decision logic from the Chromer Android browser.

**The remove target (`RemoveWebHead`).** This is the circle shown near the bottom of
the screen while a floating web head is dragged. A web head dropped on it is closed.
The view keeps:

- two flags, `hidden` and `grew`;
- a visibility;
- a scale spring, modelled only by its end value and its current value in tenths of
  full scale (0, 0.9 and 1.0 become 0, 9 and 10);
- its window position and a cached centre point.

A static field holds at most one instance. `get`, `init`, `destroy` and `disappear`
work on that field.

In `remove_web_head.dfy` (module `WebHeads`):

- The class `RemoveWebHead` has one method per transition (`Hide`, `Reveal`, `Grow`,
  `Shrink`), plus `GetCenterCoordinates` and `DestroySelf`.
- `RemoveWebHeadSingleton` plays the role of the static instance.
- Each method is specified by a pure step function on `TargetState`.
- The properties are lemmas about those step functions: idempotence, a state
  invariant kept by every sequence of calls, and the independence of the size flag
  from visibility.
- A ghost `events` trace records the calls the view makes on the window manager, its
  child view and the spring. This lets teardown order be stated.

**The colour extractor (`AppColorExtractorService`).** For one package name, the
service tries the themed `colorPrimary` attribute and then `android:colorPrimary`. It
rejects two reserved greys. If neither attribute gives a colour, it falls back to the
most populous palette swatch of the app icon. The result is saved keyed by package
name.

In `app_color_extractor_service.dfy` (module `DynamicToolbar`):

- The decision chain is a set of pure functions: `IsValidPackage`, `ThemedColor`,
  `ResourceColor`, `PreferredColorFromSwatches`, `IconColor` and `HandleIntent`.
- The service itself is a class whose methods follow the source's try/fallback code.
  Each method appends to a `saves` log wherever the source calls `saveColorToDb`.
- Each method is proved equal to its pure function.

Platform answers are inputs:

- attribute ids;
- styled values;
- `NameNotFoundException`, modelled as `Outcome.NameNotFound`;
- the swatch list;
- `NO_COLOR` and the two greys, held in `ColorConstants`.

`wrappers.dfy` holds the `Option` type used for Java's nullable references.

Notes on the code, which the model follows:

- `grow` is not restricted to a visible target. It works just as well on a hidden one,
  because the two flags are independent.
- The centre point is cached once at construction and recomputed only when it is null.
  It is not recomputed on every layout change.
- `destroyAnimator` does not return after running its callback when there is no
  instance (see Left out).
- No proximity test exists in `RemoveWebHead`. Only the threshold constant is declared there.

## Model

| member | source | states |
|---|---|---|
| `WebHeads.InitialStateIsConsistent` | app/src/main/java/arun/com/chromer/webheads/ui/views/RemoveWebHead.java:93-94 | a fresh view is hidden, not grown and INVISIBLE, and satisfies the state invariant |
| `WebHeads.TransitionPreservesInvariant` | app/src/main/java/arun/com/chromer/webheads/ui/views/RemoveWebHead.java:221-249 | each of hide, reveal, grow and shrink keeps the invariant: spring values are levels, a non-hidden target is VISIBLE and not heading for 0, a non-hidden non-grown one heads for 0.9 |
| `WebHeads.RunPreservesInvariant` | app/src/main/java/arun/com/chromer/webheads/ui/views/RemoveWebHead.java:221-249 | any sequence of transitions keeps that invariant |
| `WebHeads.TransitionIsIdempotent` | app/src/main/java/arun/com/chromer/webheads/ui/views/RemoveWebHead.java:221-249 | a second identical call changes nothing, for every transition |
| `WebHeads.RepeatedTransitionActsOnce` | app/src/main/java/arun/com/chromer/webheads/ui/views/RemoveWebHead.java:228-234 | n+1 repeated calls of a transition give the state a single call gives; a second reveal leaves the end value unchanged |
| `WebHeads.RedundantTransitionIsNoOp` | app/src/main/java/arun/com/chromer/webheads/ui/views/RemoveWebHead.java:221-249 | hide when hidden, reveal when shown, grow when grown and shrink when not grown leave the state unchanged |
| `WebHeads.RevealOnlyMovesSpringWhenHidden` | app/src/main/java/arun/com/chromer/webheads/ui/views/RemoveWebHead.java:228-234 | reveal always makes the view VISIBLE; the end value becomes 0.9 only if it was hidden; grow flag and current value untouched |
| `WebHeads.HideOnlyMovesSpringWhenShown` | app/src/main/java/arun/com/chromer/webheads/ui/views/RemoveWebHead.java:221-226 | hide sets the hidden flag; the end value becomes 0 only if it was shown; visibility and grow flag untouched |
| `WebHeads.SizeTransitionsAreOrthogonalToVisibility` | app/src/main/java/arun/com/chromer/webheads/ui/views/RemoveWebHead.java:236-249 | grow and shrink never change the hidden flag or the visibility; grow leaves the view grown, shrink not grown |
| `WebHeads.GrowThenShrinkReturnsToRevealed` | app/src/main/java/arun/com/chromer/webheads/ui/views/RemoveWebHead.java:236-249 | grow pops the current value to 0.9 and aims at 1.0; grow then shrink leaves end value 0.9 and not grown |
| `WebHeads.JavaDiv` | app/src/main/java/arun/com/chromer/webheads/ui/views/RemoveWebHead.java:97-99 | Java integer division by a positive divisor: the remainder takes the sign of the dividend and is smaller than the divisor |
| `WebHeads.AdaptWidth` | app/src/main/java/arun/com/chromer/webheads/ui/views/RemoveWebHead.java:176-178 | the result is the larger of the view width and the circle size |
| `WebHeads.InitialWindowPosition` | app/src/main/java/arun/com/chromer/webheads/ui/views/RemoveWebHead.java:97-99 | the initial window position has its centre at (dispWidth/2, dispHeight - dispHeight/6) for every width |
| `WebHeads.RemoveWebHead.constructor` | app/src/main/java/arun/com/chromer/webheads/ui/views/RemoveWebHead.java:76-105 | hidden, not grown, INVISIBLE, spring at 0; window at the initial position; cached centre (dispWidth/2, dispHeight - dispHeight/6); child added, spring set up, then attached to the window |
| `WebHeads.RemoveWebHead.GetCenterCoordinates` | app/src/main/java/arun/com/chromer/webheads/ui/views/RemoveWebHead.java:180-192 | a cached centre is returned unchanged; only a null one is recomputed from the window position and half the adapted width, and cached |
| `WebHeads.RemoveWebHead.Hide` | app/src/main/java/arun/com/chromer/webheads/ui/views/RemoveWebHead.java:221-226 | the new state is the hide step of the old one; nothing else changes |
| `WebHeads.RemoveWebHead.Reveal` | app/src/main/java/arun/com/chromer/webheads/ui/views/RemoveWebHead.java:228-234 | the new state is the reveal step of the old one; nothing else changes |
| `WebHeads.RemoveWebHead.Grow` | app/src/main/java/arun/com/chromer/webheads/ui/views/RemoveWebHead.java:236-242 | the new state is the grow step of the old one; nothing else changes |
| `WebHeads.RemoveWebHead.Shrink` | app/src/main/java/arun/com/chromer/webheads/ui/views/RemoveWebHead.java:244-249 | the new state is the shrink step of the old one; nothing else changes |
| `WebHeads.RemoveWebHead.DestroySelf` | app/src/main/java/arun/com/chromer/webheads/ui/views/RemoveWebHead.java:156-174 | spring stopped and destroyed, child removed, window detached, then centre and static instance cleared, in that order; all sub-objects released |
| `WebHeads.RemoveWebHeadSingleton.constructor` | app/src/main/java/arun/com/chromer/webheads/ui/views/RemoveWebHead.java:57 | the static instance starts out null |
| `WebHeads.RemoveWebHeadSingleton.Get` | app/src/main/java/arun/com/chromer/webheads/ui/views/RemoveWebHead.java:119-128 | returns the existing instance unchanged, or builds exactly one fresh instance in the initial state and publishes it |
| `WebHeads.RemoveWebHeadSingleton.Init` | app/src/main/java/arun/com/chromer/webheads/ui/views/RemoveWebHead.java:107-109 | afterwards an instance exists; an existing one is kept |
| `WebHeads.RemoveWebHeadSingleton.Destroy` | app/src/main/java/arun/com/chromer/webheads/ui/views/RemoveWebHead.java:130-134 | without an instance nothing happens; otherwise the instance is torn down in the teardown order; afterwards the static instance is null |
| `WebHeads.RemoveWebHeadSingleton.Disappear` | app/src/main/java/arun/com/chromer/webheads/ui/views/RemoveWebHead.java:136-140 | without an instance nothing happens; otherwise the instance takes the hide step and nothing else changes |
| `WebHeads.GetTwiceGivesOneInstance` | app/src/main/java/arun/com/chromer/webheads/ui/views/RemoveWebHead.java:119-128 | two gets with no destroy in between return the same instance, built at most once |
| `WebHeads.RebuildAfterDestroy` | app/src/main/java/arun/com/chromer/webheads/ui/views/RemoveWebHead.java:119-134 | destroy twice then get builds one fresh instance that is hidden, not grown and INVISIBLE |
| `DynamicToolbar.SkippedPackages` | app/src/main/java/arun/com/chromer/customtabs/dynamictoolbar/AppColorExtractorService.java:131-133 | for every name: one equal to the own package or to "android", ignoring letter case, is skipped, and so is "" |
| `DynamicToolbar.HandledPackages` | app/src/main/java/arun/com/chromer/customtabs/dynamictoolbar/AppColorExtractorService.java:131-133 | every non-empty name whose length differs from "android" and that is not the own package in any case is handled, including a name that only contains "android" |
| `DynamicToolbar.SkipIgnoresCase` | app/src/main/java/arun/com/chromer/customtabs/dynamictoolbar/AppColorExtractorService.java:131-133 | two names that differ only in letter case are skipped alike |
| `DynamicToolbar.ThemedColor` | app/src/main/java/arun/com/chromer/customtabs/dynamictoolbar/AppColorExtractorService.java:82-101 | -1 without resources or with id 0; otherwise a theme exception propagates exactly when the lookup throws; a grey becomes NO_COLOR, an unset value NO_COLOR, and any other styled value comes back unchanged |
| `DynamicToolbar.ResourceColor` | app/src/main/java/arun/com/chromer/customtabs/dynamictoolbar/AppColorExtractorService.java:51-80 | a saved colour is never NO_COLOR or a grey, and it is the styled value of an attribute with a positive id |
| `DynamicToolbar.AppCompatAttributeComesFirst` | app/src/main/java/arun/com/chromer/customtabs/dynamictoolbar/AppColorExtractorService.java:56-64 | a usable `colorPrimary` value is saved whatever `android:colorPrimary` holds |
| `DynamicToolbar.LollipopAttributeIsSecond` | app/src/main/java/arun/com/chromer/customtabs/dynamictoolbar/AppColorExtractorService.java:65-75 | when `colorPrimary` has id <= 0 (its theme value then never matters) or gives no colour, grey or NO_COLOR: nothing is saved if `android:colorPrimary` has id <= 0, its lookup throws, or it gives no colour, grey or NO_COLOR; otherwise its value is saved |
| `DynamicToolbar.ThemeFailureEndsResourceLookup` | app/src/main/java/arun/com/chromer/customtabs/dynamictoolbar/AppColorExtractorService.java:56-79 | a NameNotFoundException during the first attempt makes the whole lookup fail, without a second attempt |
| `DynamicToolbar.MaxFrom` | app/src/main/java/arun/com/chromer/customtabs/dynamictoolbar/AppColorExtractorService.java:137-145 | the Collections.max loop ends at the first swatch of largest population, null counting as 0 |
| `DynamicToolbar.FirstMostPopulousIsUnique` | app/src/main/java/arun/com/chromer/customtabs/dynamictoolbar/AppColorExtractorService.java:137-145 | only one index is the first swatch of largest population |
| `DynamicToolbar.PreferredColorFromSwatches` | app/src/main/java/arun/com/chromer/customtabs/dynamictoolbar/AppColorExtractorService.java:135-149 | the result is the rgb of the first most populous swatch, or -1 if that swatch is null |
| `DynamicToolbar.StrictlyMostPopulousSwatchWins` | app/src/main/java/arun/com/chromer/customtabs/dynamictoolbar/AppColorExtractorService.java:135-149 | a swatch more populous than all others gives its rgb |
| `DynamicToolbar.NullSwatchesGiveMinusOne` | app/src/main/java/arun/com/chromer/customtabs/dynamictoolbar/AppColorExtractorService.java:141-148 | a list of null swatches gives -1 |
| `DynamicToolbar.IconColor` | app/src/main/java/arun/com/chromer/customtabs/dynamictoolbar/AppColorExtractorService.java:103-123 | a colour is saved exactly when the icon is found and the preferred swatch colour is not NO_COLOR, and the saved colour is that preferred swatch colour |
| `DynamicToolbar.HandleIntent` | app/src/main/java/arun/com/chromer/customtabs/dynamictoolbar/AppColorExtractorService.java:37-49 | a save happens only for an intent with a package name that is not skipped, is keyed by that name, and never stores NO_COLOR |
| `DynamicToolbar.NothingSavedWithoutHandledPackage` | app/src/main/java/arun/com/chromer/customtabs/dynamictoolbar/AppColorExtractorService.java:38-42 | a null intent, a missing package name or a skipped package saves nothing |
| `DynamicToolbar.ResourceColorSkipsIcon` | app/src/main/java/arun/com/chromer/customtabs/dynamictoolbar/AppColorExtractorService.java:44-46 | a colour from the resources is saved, and the icon's answer does not matter |
| `DynamicToolbar.IconIsTheFallback` | app/src/main/java/arun/com/chromer/customtabs/dynamictoolbar/AppColorExtractorService.java:44-46 | without a resource colour, the icon colour is saved if there is one |
| `DynamicToolbar.GreyThemeFallsBackToIcon` | app/src/main/java/arun/com/chromer/customtabs/dynamictoolbar/AppColorExtractorService.java:44-101 | a theme whose primary colour is a reserved grey hands the decision to the icon |
| `DynamicToolbar.AppColorExtractorService.constructor` | app/src/main/java/arun/com/chromer/customtabs/dynamictoolbar/AppColorExtractorService.java:32-34 | a new service has saved nothing |
| `DynamicToolbar.AppColorExtractorService.OnHandleIntent` | app/src/main/java/arun/com/chromer/customtabs/dynamictoolbar/AppColorExtractorService.java:36-49 | at most one colour is saved per intent, and it is the one HandleIntent chooses |
| `DynamicToolbar.AppColorExtractorService.ExtractColorFromResources` | app/src/main/java/arun/com/chromer/customtabs/dynamictoolbar/AppColorExtractorService.java:51-80 | returns true exactly when the resource lookup finds a colour, and then saves exactly that colour; otherwise saves nothing |
| `DynamicToolbar.AppColorExtractorService.ExtractColorFromAppIcon` | app/src/main/java/arun/com/chromer/customtabs/dynamictoolbar/AppColorExtractorService.java:103-123 | saves the icon colour when there is one, otherwise nothing |
| `DynamicToolbar.AppColorExtractorService.SaveColorToDb` | app/src/main/java/arun/com/chromer/customtabs/dynamictoolbar/AppColorExtractorService.java:125-129 | appends exactly one (package, colour) entry to the saves log |

## Left out

- Spring physics: the Rebound damped-spring simulation, its tension/friction configuration, velocity and the per-tick listener that scales the circle use floating point and run on the render thread. Only the assignments of end value and current value are modelled. The current value is the last value set directly.
- Window and display plumbing: the layout-parameter flags and gravity, the window-manager service lookup and the display-metrics query. Display width and height, the view's laid-out width (`getWidth()`) and the circle's pixel size are parameters. Attaching and detaching are events in the ghost trace.
- WebHeads.InitialWindowPosition: does not model 32-bit `int` wrap-around, because screen sizes are far below 2^31. The offset is added and subtracted again, so wrap-around would cancel in the centre anyway.
- The `synchronized` qualifier on `get`: the model is single-threaded.
- Drawing: `RemoveHeadCircle`'s measuring, drawing, shadow and delete icon, including its float radius.
- `destroyAnimator`: this is a timed view animation. With no instance it runs the callback and then falls through and dereferences the null instance, so it is not a safe no-op.
- Magnetism: the threshold constant is only declared in the code modelled. The distance test lives in the drag controller, which is not part of this model.
- Calls after teardown that dereference a released field throw NullPointerException in the source. The methods instead require the field to be present: `hasSpring` for a transition whose guard fires, and layout parameters or a cached point for `GetCenterCoordinates`.
- Android internals of the colour service: PackageManager and theme resolution, `Palette` generation, bitmap conversion and recycling, the RxJava database write and logging. Their results are inputs, and a save is an entry in the `saves` log. An exception thrown by the save itself is not modelled.
- String.equalsIgnoreCase: only ASCII letters are case-mapped. Java's full Unicode case mapping is not modelled.
- `ColorUtil.getSwatchListFromPalette` is not part of this model. Its list is taken to be non-empty, because `Collections.max` throws on an empty list. The icon functions and methods require this.
- The swatch comparator subtracts two populations. Populations are pixel counts and never negative, so this subtraction cannot overflow and is modelled without wrap-around.
