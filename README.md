# Portfolio page interactions: navigation menu and navbar scroll

A Dafny model of the two stateful handlers in `script.js`, the client-side
script of a static portfolio site.

- **Mobile navigation menu** (`menu.dfy`, module `MobileMenu`). The menu is
  open or closed. Three pieces of page state hold that state and must agree:
  - the `open` class on the link container;
  - the toggle control's text: `close` while open, `menu` while closed;
  - the toggle's `aria-expanded` attribute: `"true"` or `"false"`.

  A click on the toggle flips the class. It then writes the text and the
  attribute from the class's new value. A click on a navigation link removes
  the class and writes the closed text and attribute. Both handlers are
  installed only when the toggle control and the link container are both on
  the page. The class `Menu` holds the page state, with methods `Toggle`,
  `LinkClick` and `Handle`. The pure functions `Toggled`, `LinkClicked`,
  `Step` and `Run` specify those methods and support the lemmas about event
  sequences. The menu's text field is called `toggleLabel`, because `label` is
  a Dafny keyword.
- **Navbar scroll effect** (`navbar.dfy`, module `NavbarScroll`). On every
  scroll event the bar gets the `scrolled` class when the vertical offset is
  greater than 20 pixels, and loses it otherwise. The class `Navbar` holds that
  flag. `ScrollRun` gives the flag after a series of scroll events.

`script.js` has no other menu triggers: no Escape key and no resize handler
close the menu. The toggle text is `menu` / `close`. A nav-link click always
rewrites all three values, even when the menu is already closed; on a
consistent closed menu this yields the same state (`LinkClickIdempotent`).

## Model

| member | source | states |
|---|---|---|
| `MobileMenu.LabelFor` | script.js:21 | the toggle text is `close` exactly when the menu is open and `menu` exactly when it is closed |
| `MobileMenu.AriaString` | script.js:22 | `String(isOpen)` is `"true"` exactly when open and `"false"` exactly when closed |
| `MobileMenu.Toggled` | script.js:19-23 | a toggle click negates the open state and always leaves text and attribute consistent with it, whatever they held before |
| `MobileMenu.LinkClicked` | script.js:27-31 | a nav-link click leaves the menu closed, with text `menu` and `aria-expanded` `"false"`, whatever the prior state |
| `MobileMenu.Step` | script.js:18-33 | with both elements present an event leaves the menu consistent (a link click yields the closed state, a toggle negates the open flag); with either element missing an event changes nothing |
| `MobileMenu.Run` | script.js:18-33 | a consistent menu stays consistent after any sequence of toggle and link clicks; with both elements present, any nonempty sequence makes it consistent; with an element missing no sequence changes anything |
| `MobileMenu.RunSnoc` | script.js:18-33 | events are handled in order: one more event after a run is one more step |
| `MobileMenu.RunAppend` | script.js:18-33 | running two event sequences back to back equals running their concatenation |
| `MobileMenu.LastLinkClickCloses` | script.js:27-31 | whatever came before, a sequence ending in a nav-link click leaves the menu closed |
| `MobileMenu.ToggleTwice` | script.js:19-23 | two toggles restore the open state; they restore the whole state (text and attribute too) exactly when it was consistent |
| `MobileMenu.LinkClickIdempotent` | script.js:27-31 | a second nav-link click changes nothing, and a consistent closed menu is unchanged by one |
| `MobileMenu.TogglesParity` | script.js:19-23 | after n toggles the menu is open iff it was open and n is even, or closed and n is odd |
| `MobileMenu.EvenTogglesRestore` | script.js:19-23 | an even number of toggles restores a consistent menu exactly |
| `MobileMenu.Menu.constructor` | script.js:15-18 | the menu is present exactly when both the toggle control and the link container exist; the initial state is the markup's |
| `MobileMenu.Menu.Toggle` | script.js:19-23 | when present: open is negated, text is `close`/`menu` and `aria-expanded` is `"true"`/`"false"` from the new value; when absent: nothing changes |
| `MobileMenu.Menu.LinkClick` | script.js:27-31 | when present: closed, text `menu`, `aria-expanded` `"false"`; when absent: nothing changes |
| `MobileMenu.Menu.Handle` | script.js:18-33 | dispatches an event as `Step` does and preserves consistency |
| `NavbarScroll.ScrollRun` | script.js:6-11 | after a nonempty series of scroll events the bar is scrolled iff the last offset is greater than 20; an empty series leaves it as it was |
| `NavbarScroll.ThresholdIsStrict` | script.js:7 | the comparison is strict: offset 20 clears the class, 21 sets it |
| `NavbarScroll.RepeatedOffsetIdempotent` | script.js:7-11 | scrolling to the same offset again changes nothing |
| `NavbarScroll.Navbar.constructor` | script.js:4 | the bar starts with the class as its markup has it |
| `NavbarScroll.Navbar.OnScroll` | script.js:6-11 | after a scroll event the bar is scrolled iff `scrollY > 20` (the test `ScrolledAt`), whatever it was before |

## Left out

- Fractional scroll offsets: `window.scrollY` is a floating-point number; the model uses integer pixels, so an offset such as 20.5 (which sets the class) is not represented.
- A missing navbar element: `script.js:4` does not check that `navbar` exists, so every scroll event would throw; the model assumes the element is present.
- Event-listener registration (`addEventListener`, `querySelectorAll(...).forEach`): the handler bodies are modelled as methods, not the binding to page elements.
- The second nav-link handler (`script.js:36-41`): it calls `preventDefault` and logs to the console; both are foreign calls with no state of their own.
- Project-card hover transforms, transitions and click logging (`script.js:43-60`): visual style writes and logging, with no invariant.
- The IntersectionObserver reveal (`script.js:62-77`): a browser callback driven by a floating-point threshold and root margin.
- The social-link press animation and the page-load fade (`script.js:79-97`): timer-driven visual effects.
- The final console message (`script.js:99`): logging only.
