# Portfolio page interactivity, modelled in Dafny

A model of the client-side script of a personal portfolio site (`script.js`).
The browser is abstracted into plain state: the body's class set, the theme
icon's class set and local storage for the theme controller; the class sets
of the link list and of the menu button's icon for the mobile menu; the
inline styles of the `.fade-in` elements for scroll reveal; the ids of the
body's children, in order, and the overlay's display and text for the
alert dialog; and the form fields for the contact form.

Each component is one module. Where the script changes the page step by step
the model is a class whose fields are that state and whose methods are the
event handlers; the effect of each handler is also given as a function on a
value (`ThemeView`, `MenuView`, `ModalView`, a sequence of `Style`s), each
method's `ensures` ties the new state to that function of the old state, and
the lemmas state the component's properties about those functions.

- `Options` — the `Option` datatype (an absent element, key or field).
- `Theme` — `applyDarkTheme`, the theme resolution of the load handler, the
  toggle handler, and what any number of toggles does.
- `HomePage` — the `isHomePage` test and the back button's display.
- `MobileMenu` — the menu-button and nav-link handlers and any sequence of
  clicks on them.
- `ScrollReveal` — `fadeInOnScroll` as an in-place loop over an array of
  styles, a single pass as a function, and any number of passes.
- `Modal` — `showModal` with its lazily created single overlay and the three
  ways of dismissing it.
- `ContactForm` — the response branch of the submit handler: the one
  dialog message per submission and the reset on success.

Inputs the browser supplies are parameters: the answer of the
`prefers-color-scheme: dark` media query (`systemPrefersDark`), the path of
the page, the bounding-rectangle tops of the elements and the window's inner
height, the target of a window click, and the outcome of the request.

Points where the script's behaviour is easy to misread:

- The load handler never writes the theme to storage; only the toggle does.
- A missing saved preference gives dark whatever the system reports: the
  comment at script.js:31 speaks of checking the system preference, but
  both branches at script.js:32-37 apply the dark theme.
- A reply whose JSON body is `null` makes reading `result.success` (or
  `result.message`) throw, so the handler shows the connection message.
- A successful reply without a `message` sets the message paragraph's text
  to the empty string.

## Model

| member | source | states |
|---|---|---|
| Theme.Applied | script.js:6-20 | the body has `dark-theme` iff `enable`; a present icon then has `fa-sun` and not `fa-moon` when dark, `fa-moon` and not `fa-sun` when light; no other body or icon class and no storage changes; an absent icon stays absent |
| Theme.ResolveOnLoad | script.js:25-38 | saved `dark` gives dark, saved `light` gives light, any other or no saved value gives dark |
| Theme.Saved | script.js:25 | the saved preference: the value under `theme`, or none when the key is absent |
| Theme.Loaded | script.js:23-38 | after load the page is dark iff the saved value is not `light`; the icon matches and stays present or absent with its other classes, other body classes and storage are unchanged |
| Theme.Toggled | script.js:42-46 | a click inverts the theme, leaves the icon present (when it was) and matching, with its other classes kept, saves `dark` iff the new theme is dark, and keeps every other storage key and body class |
| Theme.Clicks | script.js:42-46 | the page after n successive clicks; its properties are stated by `ClicksParity` |
| Theme.LoadIgnoresSystemPreference | script.js:25-38 | the load result is the same whatever the system preference; it is dark iff the saved value is not `light`; the icon matches and storage is untouched |
| Theme.TwoClicksRestore | script.js:42-46 | two clicks restore the body's classes, restore an icon that matched the body, and leave the original theme saved |
| Theme.ClicksParity | script.js:42-46 | after n clicks the theme is the start flipped n mod 2 times, other body classes are unchanged, the icon stays present or absent with its other classes, and after at least one click the icon matches and storage names the theme shown |
| Theme.ThemeController.constructor | script.js:2-3 | the controller holds the page's body classes, icon (present only with the toggle) and storage |
| Theme.ThemeController.ApplyDarkTheme | script.js:6-20 | the new state is `Applied` of the old one |
| Theme.ThemeController.OnLoad | script.js:23-38 | the new state is the old one with the resolved theme applied |
| Theme.ThemeController.OnToggleClick | script.js:41-46 | with the toggle present the new state is `Toggled` of the old one; without it nothing changes |
| HomePage.EndsWith | script.js:61 | `endsWith`: the last characters of the path are the suffix; characterised by `EndsWithIffConcat` |
| HomePage.IsHomePage | script.js:61 | the path ends with `index.html`, is `/`, or ends with `/Portfolio/`; characterised by `IsHomePageIff` |
| HomePage.EndsWithIffConcat | script.js:61 | the suffix test by slicing holds iff the path is some prefix followed by the suffix |
| HomePage.IsHomePageIff | script.js:61 | the path is the home page iff it is `/`, or is some prefix followed by `index.html` or by `/Portfolio/` |
| HomePage.HomePageExamples | script.js:61 | any path ending in `index.html` or `/Portfolio/` and `/` are home; `/Portfolio`, `/about.html` and the empty path are not |
| HomePage.BackButtonDisplay | script.js:63-65 | the back button's display is `none` iff the path is the home page, else `block` |
| HomePage.BackButton.constructor | script.js:50 | a back button whose inline display is not set |
| HomePage.ShowBackButtonFor | script.js:60-65 | a present back button gets `BackButtonDisplay(path)`; an absent one changes nothing |
| MobileMenu.ButtonClicked | script.js:74-84 | a button click flips `active`, a present icon then shows `fa-times` iff open and `fa-bars` iff closed, and nothing else changes |
| MobileMenu.LinkClicked | script.js:86-95 | a link click leaves the menu closed with the `fa-bars` icon and keeps all other classes |
| MobileMenu.LinkClickIdempotent | script.js:87-94 | a second link click changes nothing |
| MobileMenu.Step | script.js:74-95 | dispatches a click to the button handler or the nav-link handler |
| MobileMenu.Run | script.js:74-95 | the menu after a sequence of clicks, handled in order; its properties are stated by `RunState` |
| MobileMenu.RunState | script.js:74-95 | after any non-empty sequence of clicks the icon tracks the menu, and the menu is open iff an odd number of button clicks followed the last link click (or, with no link click, the starting state flipped by the button clicks' parity) |
| MobileMenu.Menu.constructor | script.js:70-73 | the menu holds the link list's and icon's classes and whether both elements exist |
| MobileMenu.Menu.OnButtonClick | script.js:73-84 | when wired the new state is `ButtonClicked` of the old one, otherwise unchanged |
| MobileMenu.Menu.OnLinkClick | script.js:86-95 | when wired the new state is `LinkClicked` of the old one, otherwise unchanged |
| ScrollReveal.InView | script.js:102-105 | the element's top is strictly above `innerHeight - 150` |
| ScrollReveal.RevealOne | script.js:102-109 | an element in view gets the visible style (opacity `1`, `translateY(0)`, the transition); one out of view is left as it was |
| ScrollReveal.RevealOneReveals | script.js:105-109 | after its turn an element is revealed iff it was revealed or is in view |
| ScrollReveal.Pass | script.js:99-111 | one pass gives each element, independently and in place, the visible style when its top is below `innerHeight - 150` and leaves it as it was otherwise |
| ScrollReveal.PassReveals | script.js:105-109 | after a pass an element is revealed iff it was already revealed or is in view; an element not in view is untouched |
| ScrollReveal.PassIdempotent | script.js:99-111 | a second pass over the same layout changes nothing |
| ScrollReveal.Passes | script.js:113-114 | one pass per scroll or load event keeps the number of elements |
| ScrollReveal.SeenInViewSplit | script.js:113-114 | an element was in view at one of a sequence of events iff it was in view before the last event or at it |
| ScrollReveal.PassesReveal | script.js:99-114 | over any sequence of events an element ends revealed iff it started revealed or was in view at some event, so no event un-reveals it |
| ScrollReveal.FadeInOnScroll | script.js:99-111 | the loop leaves the array equal to `Pass` of its old contents |
| Modal.Shown | script.js:148-179 | after a call the overlay exists, is displayed `flex` with the given text; it is appended to the body only if it did not exist, so the body holds exactly one |
| Modal.Hidden | script.js:163-175 | a dismissal sets the display to `none`, keeps the text and does not remove the overlay |
| Modal.Step | script.js:148-179 | dispatches a call, a close-glyph click, an OK click or a window click (hiding only when its target is the overlay) |
| Modal.Run | script.js:148-179 | the dialog after a sequence of calls and clicks, handled in order; its properties are stated by `RunKeepsSingle`, `ShowCallsLeaveOne` and `MessageOutlivesDismissals` |
| Modal.RunKeepsSingle | script.js:148-179 | under any sequence of calls and clicks the body never holds more than one overlay, an existing overlay is never removed, and at most the one overlay element is added |
| Modal.ShowCallsLeaveOne | script.js:148-179 | after any non-empty sequence of calls exactly one overlay exists, displayed `flex` with the last message |
| Modal.MessageOutlivesDismissals | script.js:163-177 | clicks after the last call keep the overlay and its text |
| Modal.Overlay.constructor | script.js:151-161 | a new overlay has no inline display and an empty message |
| Modal.Page.constructor | script.js:149-150 | a page without the overlay |
| Modal.Page.ShowModal | script.js:148-179 | the new state is `Shown` of the old; the existing overlay is reused, otherwise a fresh one is made |
| Modal.Page.OnCloseClick | script.js:163-165 | the close glyph hides the overlay |
| Modal.Page.OnOkClick | script.js:167-169 | the OK button hides the overlay |
| Modal.Page.OnWindowClick | script.js:171-175 | a window click hides the overlay iff its target is the overlay itself |
| ContactForm.OrFallback | script.js:210 | a non-empty message is kept, an absent or empty one becomes the generic error text |
| ContactForm.SuccessText | script.js:207 | the server's message when present, the empty string when it is absent |
| ContactForm.Succeeded | script.js:206 | the request responded with `ok` and a body whose `success` is truthy |
| ContactForm.Submit | script.js:204-216 | every outcome shows exactly one dialog, first; the form is reset iff both `ok` and `success` hold; the success text is the server's message, a refusal shows `Error: ` and the message or the fallback, and a transport failure or `null` body the connection message |
| ContactForm.ModalText | script.js:204-216 | the text of the one dialog the submission shows: it is in the trace and every dialog in the trace has it |
| ContactForm.ModalTextCases | script.js:206-215 | the dialog text is the server's message on success, the connection message on a failure or `null` body, and `Error: ` with the message or fallback on a refusal |
| ContactForm.SubmitSent | script.js:206-208 | `{success: true, message: "Sent"}` shows `Sent` and resets |
| ContactForm.SubmitBadEmail | script.js:209-211 | a refusal by flag or by HTTP status with `Bad email` shows `Error: Bad email` without reset |
| ContactForm.SubmitNoMessage | script.js:209-211 | a refusal with no or an empty message shows the prefixed fallback text |
| ContactForm.SubmitUnreachable | script.js:213-215 | a failed request shows the connection message without reset |
| ContactForm.FailureTexts | script.js:209-215 | the text shown on an unsuccessful submission is the connection message or starts with `Error: ` |
| ContactForm.Form.constructor | script.js:182 | a form holding its default values |
| ContactForm.Form.Reset | script.js:208 | reset restores the default values |
| ContactForm.OnOutcome | script.js:204-216 | the page shows exactly the one dialog of `Submit`, and the form is reset to its defaults iff the submission succeeded |

## Left out

- The card tilt effect (script.js:117-145): floating-point transform arithmetic producing CSS strings, purely visual.
- The particle background (script.js:227-315): a remote library, `Math.random`, Float32 buffers and an endless animation loop.
- The `fetch` call, the JSON serialisation of the request, `preventDefault` and `console.error`: network I/O and logging; the model starts from the outcome of the request.
- A request that never settles shows no dialog at all (the script has no timeout); the one-dialog-per-submission rows cover requests that settle.
- `goBack` and the `logoLink.href` assignment: thin browser calls with nothing to state.
- `getBoundingClientRect`, `localStorage`, `matchMedia`, `getElementById` and event registration: replaced by fields and parameters; the DOM tree itself is not modelled, and clicks are assumed to arrive only after the load handler has run.
- ScrollReveal: tops are exact reals, so IEEE-754 rounding in the comparison is not modelled.
- ContactForm: a `message` that is not a string (a number, an object) is outside the model; its stringification is not modelled.
- MobileMenu.ButtonClicked: with no `<i>` in the button the script throws a TypeError after toggling the menu; the model keeps only the toggle.
- Modal.Page.ShowModal: requires that no element with the overlay's id was on the page before the script made one.
