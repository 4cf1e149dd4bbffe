# Cliste website: interaction state machines in Dafny

The Cliste marketing site is nearly all static markup. It holds a few
small, single-threaded state machines, and this project models them as
immutable records with pure transition functions, then proves properties
about those functions:

- **Sign-in page** (`SignIn`, `sign_in.dfy`). The email step asks the
  identity provider to send a one-time code. The six-slot code entry
  accepts one code unit per slot, moves the keyboard focus forward on
  input and back on Backspace, and submits the joined code when the last
  slot is filled and every slot holds a character. The step machine runs
  email → code → success, with Back as the only way from code to email.
  Each provider call is represented only by its outcome, which is a
  parameter.
- **Floating navigation bar** (`Navbar`, `navbar.dfy`). The bar hides
  while the page scrolls down and shows while it scrolls up. Moves within
  a width-dependent threshold (20px on phones, 5px elsewhere) are ignored,
  and there is a dead zone at the top. Scroll events are coalesced to at
  most one pending animation-frame callback. In-page links scroll to a
  clamped target and close the mobile menu.
- **Tabbed FAQ** (`Faq`, `faq.dfy`). The first category starts selected,
  and a tab click selects its category. Exactly the selected tab is marked.
  The list shows the selected category's questions in order. Each question
  has its own open/closed toggle.
- **Section reveal latches.** `BeforeAfter` in `before_after.dfy` covers
  the dealership split screen, with two observers, five latches, a
  mobile scroll trigger, a stored scroll offset and the image parallax.
  `SalonReveal` in `salon_reveal.dfy` covers the salon split screen, with
  one observer and four latches. Every latch is one-way. Root margins
  depend on viewport width, and an initial check reveals a section that
  already overlaps the viewport.
- `Viewport` (`viewport.dfy`) holds what these components read from the
  browser as plain values: rectangles, observer entries, root margins.
  `Optional` (`optional.dfy`) stands for `null`/`undefined`.

Browser inputs are parameters: `window.scrollY`, `innerWidth`,
`innerHeight`, bounding rectangles, `isIntersecting`, whether a ref is
attached, and the key pressed. Scroll offsets and rectangles are `real`.
Widths are `int`. JavaScript strings are `seq<char>`, and each element
stands for one UTF-16 code unit, so `|s|` is `length`.

Notes on how the model reads the code:

- **Stale visibility value in the navbar.** The navbar's scroll effect has
  `[]` dependencies, so its top-zone test reads the `isVisible` captured at
  mount, which is always `true`. `Navbar.ControlNavbar` takes the captured
  value as the parameter `capturedVisible`. `Navbar.FrameCallback` passes
  the mount value, `MountedVisible == true`, and so models the code as
  written. The event model (`Navbar.Apply`, `Navbar.Run`) uses this
  as-written callback. The corrected variant is listed under Findings.
- **FAQ tab switching.** Selecting a different FAQ tab replaces the list.
  The list is keyed by category, so its items mount afresh and all start
  closed. Re-selecting the current tab changes nothing.
- **Missed completion on the sign-in page.** The completion test runs only
  when the last slot receives a value. If the last slot is filled first,
  the code can end up complete, with Continue enabled, yet never be
  submitted. The Continue button has no click handler.
  `SignIn.LastSlotFirstNeverSubmits` shows this.
- **Zero-height parallax sections.** The parallax division by a
  zero-height section is modelled as JavaScript evaluates it. A positive
  distance gives Infinity, which clamps to the full 80px. A negative
  distance gives 0. A zero distance gives NaN, which is the `NotANumber`
  case.

## Model

| member | source | states |
|---|---|---|
| SignIn.Initial | app/sign-in/page.tsx:13-14 | The page starts at the email step with six empty slots and the focus on slot 0, so Continue is disabled. |
| SignIn.ReportError | app/sign-in/page.tsx:37-51 | An unknown-identifier error, and only that error, gives the account-not-found alert. Other API errors give an alert with their long message when it is non-empty. Otherwise, including an empty `errors` array, they give the fallback text "An error occurred. Please try again.". An exception without an `errors` array shows nothing. |
| SignIn.SubmitEmail | app/sign-in/page.tsx:18-52 | The page reaches the code step with the focus on slot 0 only when the SDK is loaded and both create and prepare resolve. Any failure keeps the state unchanged. A notice appears only after a rejection, and it reports the first rejected call. |
| SignIn.CodeChange | app/sign-in/page.tsx:78-92 | A value longer than one code unit is ignored entirely. Otherwise only slot `index` changes. A non-empty value below the last slot moves focus to `index+1`. An empty value, or a value in the last slot, keeps the focus. A submission happens iff the value went into the last slot, is non-empty, and the code is complete. |
| SignIn.Settle | app/sign-in/page.tsx:93-109 | The step becomes success iff the attempt resolves with status "complete" and the session is set. Any other outcome leaves step, slots and focus unchanged. |
| SignIn.HandleCodeChange | app/sign-in/page.tsx:78-113 | The whole change handler reaches success iff it submitted a code that was then verified and activated. Slots and focus are those of the synchronous write, whatever the verdict. |
| SignIn.KeyDown | app/sign-in/page.tsx:115-122 | Backspace on an empty slot with `index > 0` moves focus to `index-1`. No key press changes any slot, and every other key press changes nothing. |
| SignIn.BackClick | app/sign-in/page.tsx:124-127 | Back returns to the email step with six empty slots, which disables Continue. |
| SignIn.CodeChangePreservesValid | app/sign-in/page.tsx:79-82 | Six slots of at most one code unit each, with focus inside the slots, is an invariant of the change handler. |
| SignIn.JoinSpellsSlots | app/sign-in/page.tsx:91-94 | Joining a complete code gives one code unit per slot, in slot order. |
| SignIn.SubmittedCodeSpellsSlots | app/sign-in/page.tsx:90-98 | A submitted code has length 6, and its k-th character is slot k's content. |
| SignIn.ContinueMatchesCompletion | app/sign-in/page.tsx:288-297 | Under the slot-length invariant, Continue is enabled exactly when the completion test at line 91 would pass. |
| SignIn.EarlierSlotNeverSubmits | app/sign-in/page.tsx:89-92 | Writing any slot but the last never submits, even when the write completes the code. |
| SignIn.Apply | app/sign-in/page.tsx:144-300 | Each step renders only its own controls, so an event from a control that is off screen changes nothing. The slot invariant holds after every event. |
| SignIn.Run | app/sign-in/page.tsx:13-14 | The slot invariant holds after any sequence of events. |
| SignIn.SuccessIsFinal | app/sign-in/page.tsx:300-320 | The success step has no controls, so no event sequence leaves it. |
| SignIn.StepEdges | app/sign-in/page.tsx:18-127 | The step moves only email→code (email submit), code→email (Back) or code→success (a verified complete code typed into the last slot). |
| SignIn.FirstFiveDigitsSubmitNothing | app/sign-in/page.tsx:84-92 | Typing 1–5 into slots 0–4 submits nothing and leaves the focus on slot 5. |
| SignIn.LastDigitSubmitsCode | app/sign-in/page.tsx:90-106 | Typing 9 into slot 5 then submits "123459", and a verified code reaches success. |
| SignIn.BackspaceKeepsPreviousDigit | app/sign-in/page.tsx:119-121 | Backspace in the empty slot 1 moves focus to slot 0, which keeps its "1". |
| SignIn.LastSlotFirstNeverSubmits | app/sign-in/page.tsx:89-92 | Filling slot 5 first and then slots 0–4 completes the code and enables Continue, yet no step submits it. |
| Navbar.Initial | components/glassmorphism-nav.tsx:16-19 | The bar mounts shown, with the menu closed, last offset 0, `ticking` clear and no frame pending. |
| Navbar.Threshold | components/glassmorphism-nav.tsx:24-25 | The threshold is 20 exactly when `innerWidth < 768`, and 5 otherwise. |
| Navbar.ControlNavbar | components/glassmorphism-nav.tsx:22-46 | Every call records the offset and clears `ticking`. In the top zone, visibility becomes `visible \|\| !capturedVisible`. Elsewhere, a move down past the threshold hides the bar and a move up past it shows the bar. A move within the threshold, boundaries included, keeps visibility. |
| Navbar.FrameCallback | components/glassmorphism-nav.tsx:21-60 | With the mount-captured `isVisible` (true), the top zone never changes visibility. The pending-frame count drops by one. |
| Navbar.FrameCallbackLive | components/glassmorphism-nav.tsx:27-33 | Reading the live visibility, the bar is always shown in the top zone. |
| Navbar.HandleScroll | components/glassmorphism-nav.tsx:48-53 | A scroll event does nothing while `ticking` is set. Otherwise it requests exactly one frame and sets `ticking`. |
| Navbar.ScrollToSection | components/glassmorphism-nav.tsx:67-96 | An href starting with "/" changes nothing. Otherwise the menu closes, found or not. A scroll target exists iff the element is found. The target is ≥ 0, and it is either 0 or places the element exactly 100px below the top. |
| Navbar.ToggleMenu | components/glassmorphism-nav.tsx:169 | The menu button flips `isOpen` and changes nothing else. |
| Navbar.CloseMenu | components/glassmorphism-nav.tsx:105 | The backdrop closes the menu and changes nothing else. |
| Navbar.Apply | components/glassmorphism-nav.tsx:48-53 | Every event keeps "at most one frame pending, exactly when `ticking`". Only frame callbacks move visibility or the recorded offset. |
| Navbar.Run | components/glassmorphism-nav.tsx:48-53 | The coalescing invariant holds after any event sequence. |
| Navbar.AtMostOneFramePending | components/glassmorphism-nav.tsx:48-53 | From mount, at most one frame callback is ever pending. |
| Navbar.OnlyFramesMoveTheBar | components/glassmorphism-nav.tsx:22-53 | Without frame callbacks, any number of events leaves visibility and the recorded offset unchanged. |
| Navbar.JumpDownThenUp | components/glassmorphism-nav.tsx:36-45 | On a wide viewport, 0→500 hides the bar and 500→480 shows it again. |
| Navbar.HiddenBarStaysHiddenAtTop | components/glassmorphism-nav.tsx:27-33 | A bar hidden at 500 stays hidden after one frame at offset 0 as written. The live reading would show it. |
| Faq.InitialSelection | components/faq-tabs.tsx:15-16 | The first category key is selected, or nothing (`undefined`) when there are no categories. |
| Faq.TabMarks | components/faq-tabs.tsx:54-67 | A tab is marked iff its key equals the selection. |
| Faq.ExactlyOneTabMarked | components/faq-tabs.tsx:60-67 | With distinct keys, selecting a tab's key marks exactly one tab, that one. |
| Faq.NoTabMarked | components/faq-tabs.tsx:60-67 | A selection that is no tab's key marks no tab. |
| Faq.ShownIsSelectedTopic | components/faq-tabs.tsx:85-103 | With distinct keys, the list for a category is exactly its questions, one item per entry, in array order. |
| Faq.ShownEmptyWithoutMatch | components/faq-tabs.tsx:85-103 | A selection matching no `faqData` key lists nothing. |
| Faq.Mount | components/faq-tabs.tsx:96-109 | A mounted list has one item per listed question, all closed. |
| Faq.Init | components/faq-tabs.tsx:15-35 | The FAQ starts on the first category with every item closed, and its item states match its list. |
| Faq.SelectTab | components/faq-tabs.tsx:57 | After a tab click the selection is that key. The same key changes nothing. Another key gives a freshly mounted, all-closed list that matches the new selection. |
| Faq.ToggleItem | components/faq-tabs.tsx:108-120 | A click flips that item's open flag. Every other item and the selection are unchanged. |
| Faq.ToggleTwiceRestores | components/faq-tabs.tsx:120 | Two clicks on the same item restore the state. |
| Faq.ToggleKeepsConsistent | components/faq-tabs.tsx:108-109 | Toggling keeps the item states matched to the listed questions. |
| BeforeAfter.Initial | components/split-screen-before-after.tsx:8-13 | All five latches start unset, with stored offset 0. |
| BeforeAfter.Latch | components/split-screen-before-after.tsx:38-44 | Setting a latch sets only that target's latch and changes no other latch or the offset. |
| BeforeAfter.MainRootMargin | components/split-screen-before-after.tsx:22-26 | The root margin is exactly "0px 0px 600px 0px" below width 768 and "0px 0px -50px 0px" otherwise, in CSS top-right-bottom-left order. The bottom margin is positive exactly on phones. |
| BeforeAfter.TyreKickersRootMargin | components/split-screen-before-after.tsx:28-32 | The root margin is exactly "0px 0px 1500px 0px" below width 768 and "0px 0px -50px 0px" otherwise. The bottom margin is positive exactly on phones. |
| BeforeAfter.RootMarginChoice | components/split-screen-before-after.tsx:22-32 | On phones both observers reveal early, the tyre-kickers one further ahead. Elsewhere both use the same negative margin. |
| BeforeAfter.MainObserver | components/split-screen-before-after.tsx:34-48 | After a batch, a latch is set iff it was set before, or it belongs to section/WhatsApp/voice/service and some entry about it intersects. Tyre-kickers and unknown targets change nothing. |
| BeforeAfter.TyreKickersObserver | components/split-screen-before-after.tsx:51-57 | Only the tyre-kickers latch can change, and it is set iff some entry about that block intersects (or it was set already). |
| BeforeAfter.InitialCheck | components/split-screen-before-after.tsx:66-73 | The section latch ends up set iff it was set or its attached rectangle overlaps the viewport. No other latch changes. |
| BeforeAfter.OnScroll | components/split-screen-before-after.tsx:86-99 | At width ≥ 1024 the handler only stores `window.scrollY`. Below that it stores nothing, and the tyre-kickers latch ends up set iff it was set or the block's top is < innerHeight + 1200. |
| BeforeAfter.OnResize | components/split-screen-before-after.tsx:103-107 | Below width 1024 the stored offset resets to 0. Otherwise nothing changes, and no latch ever does. |
| BeforeAfter.Apply | components/split-screen-before-after.tsx:20-114 | No event clears a latch. Only the tyre-kickers observer and the scroll check touch the tyre-kickers latch. |
| BeforeAfter.LatchesAreOneWay | components/split-screen-before-after.tsx:34-99 | A latch once set stays set through any event sequence. |
| BeforeAfter.TyreKickersOwnTriggers | components/split-screen-before-after.tsx:34-57 | Without tyre-kickers batches and scroll events, the tyre-kickers latch never changes. |
| BeforeAfter.Clamp01 | components/split-screen-before-after.tsx:128 | The clamped progress lies in [0, 1] and equals its argument inside that range. |
| BeforeAfter.ParallaxOffset | components/split-screen-before-after.tsx:116-133 | The offset is 0 when the ref is missing or width < 1024. Every numeric result lies in [0, 80]. The result is NaN exactly for a zero-height block with zero scroll distance. |
| BeforeAfter.VoiceParallax | components/split-screen-before-after.tsx:135-136 | The voice offset lies in [0, 40]. It is NaN exactly when the block offset is, and otherwise it is exactly half the block offset. |
| BeforeAfter.ParallaxTracksProgress | components/split-screen-before-after.tsx:126-132 | For a positive-height block the offset is 0 before its top and 80 past its bottom. In between it is proportional to the distance scrolled. |
| BeforeAfter.VoiceParallaxTracksProgress | components/split-screen-before-after.tsx:126-136 | For a positive-height block the voice offset is 0 before its top and 40 past its bottom. In between it is `into * 40 / height`. |
| BeforeAfter.ParallaxMonotone | components/split-screen-before-after.tsx:127-132 | The offset never decreases as the stored scroll offset grows. |
| SalonReveal.Initial | components/salon-split-screen.tsx:6-9 | All four latches start unset. |
| SalonReveal.Latch | components/salon-split-screen.tsx:24-33 | Setting one latch leaves the other three unchanged. |
| SalonReveal.ObserverRootMargin | components/salon-split-screen.tsx:16-20 | The bottom margin is 800px exactly on phones and -50px otherwise. Only the bottom edge moves. |
| SalonReveal.Observe | components/salon-split-screen.tsx:22-36 | After a batch, a latch is set iff it was set before or some entry about its block intersects. |
| SalonReveal.InitialCheck | components/salon-split-screen.tsx:43-50 | The section latch ends up set iff it was set or the attached section rectangle overlaps the viewport. Nothing else changes. |
| SalonReveal.NonIntersectingEntriesIgnored | components/salon-split-screen.tsx:24 | A batch with no intersecting entry changes nothing. |
| SalonReveal.SingleEntrySetsOwnLatch | components/salon-split-screen.tsx:24-33 | One intersecting entry sets exactly its own block's latch. |
| SalonReveal.Apply | components/salon-split-screen.tsx:22-50 | No event clears a latch. |
| SalonReveal.LatchesAreMonotone | components/salon-split-screen.tsx:6-50 | Every latch set before any event sequence is still set after it. |

## Findings

| source | as written | input that shows it | evidently intended | confidence | as-written member | corrected member |
|---|---|---|---|---|---|---|
| components/glassmorphism-nav.tsx:27-33 | The top-zone branch tests an `isVisible` captured by an effect with `[]` dependencies, so it always reads `true` and never calls `setIsVisible(true)`. | The bar is hidden with last offset 500, and a single frame then runs at offset 0 (a jump to the top). The bar stays hidden at the top. | At the top the bar is always shown. | medium, not executed | Navbar.FrameCallback (exhibited by Navbar.HiddenBarStaysHiddenAtTop) | Navbar.FrameCallbackLive |

The event model (`Navbar.Apply`, `Navbar.Run`) follows the code as written.
Its coalescing invariant, which is the property proved over event
sequences, does not depend on which callback runs: both callbacks differ
only in the `visible` field.

## Left out

- Identity provider calls (`signIn.create`, `prepareFirstFactor`, `attemptFirstFactor`, `setActive`) are foreign services. Only their outcomes are modelled, as parameters. Google sign-in (`authenticateWithRedirect`, app/sign-in/page.tsx:55-67) changes no page state and only logs its errors, so it is not modelled. app/sso-callback/page.tsx is a single foreign call.
- The dynamic `import` in the not-found branch is assumed to succeed. If it fails, the source only logs.
- The email address field and `setEmail` are not modelled: the address is only handed to the provider.
- Timers and navigation are not modelled: the 2s redirect and `router.push`, and the 100ms delay before the initial visibility checks. The initial checks are events that may arrive at any point. The 500ms delayed focus of the first slot is folded into `SignIn.SubmitEmail`, which sets focus 0 as it enters the code step.
- DOM focus is modelled only as the index the handlers request. Real focus, `getBoundingClientRect`, intersection geometry, root-margin semantics, `requestAnimationFrame` scheduling and smooth `scrollTo` are browser behaviour; their results are inputs.
- Slots are not restricted to digits. `inputMode`, `pattern` and `maxLength` are HTML hints that the handler does not enforce.
- React closure races are not modelled. The change handler reads `code` from its render closure; each event is assumed to see the latest state. The awaited verification is treated as completing before the next event, and there is no re-entrancy guard, so nothing claims a code is verified only once.
- Exit animations (`AnimatePresence`) are not modelled. During them the old step's or category's controls stay briefly on screen; the model switches instantly.
- Server rendering is not modelled. In the `typeof window === "undefined"` branches of the split-screen components, no effect runs.
- Navbar.ScrollToSection: does not model `document.querySelector` throwing on an invalid selector such as "#" or "". In that case the menu would stay open. The three hrefs the bar passes (components/glassmorphism-nav.tsx:9-11) are valid ids, so no reachable click differs.
- `scrollToTop` (components/glassmorphism-nav.tsx:62-65) is never called. The `console.log` calls are output only.
- Observer `disconnect` and listener removal on unmount are not modelled. They only end the component's lifetime.
- JavaScript's ordering of integer-like object keys in `Object.keys`/`Object.entries` is not modelled. FAQ categories and topics are taken in the order given.
- Floating point is not modelled. Offsets are exact reals, and IEEE-754 rounding is ignored. Only the NaN and Infinity of a zero-height parallax block are modelled.
- components/salon-faq-section.tsx, components/dealership-faq-section.tsx and components/salon-testimonials-section.tsx are not part of this model. Each is static copy plus one reveal latch (with staggered fade timers in the testimonials) of the kind `SalonReveal` already covers. app/dashboard/page.tsx and app/salons-barbers/page.tsx are static composition.
