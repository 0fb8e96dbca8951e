# Sidebar state controller and field-error content, in Dafny

This project models the two pieces of the `foomo/ui` component library that
carry decisions of their own; the rest of the library forwards props to an
external accessible-component toolkit and joins class strings.

- **The sidebar controller** (`src/components/sidebar.tsx`). `SidebarProvider`
  keeps the desktop flag `_open` (seeded from `defaultOpen`, which defaults to
  true) and the mobile flag `openMobile` (false on mount). It reads the
  optional `open` and `onOpenChange` props and the `isMobile` viewport signal.
  `setOpen`, `setOpenMobile` and `toggleSidebar` change that state. Every
  `setOpen` writes the `sidebar_state` cookie, and a Cmd/Ctrl+B key handler
  toggles the sidebar. The model has two layers:
  - a value layer: the `Provider` datatype, whose member functions are the
    transitions, with lemmas about them;
  - an object layer: the `SidebarProvider` class, with the same fields, whose
    methods are proved to perform exactly those transitions.

  Pure functions model the decisions the descendants take from the shared
  context: `useSidebar`'s guard, `data-state` and `data-collapsible`, which of
  the three shapes `Sidebar` renders, and the menu-button tooltip's `hidden`
  flag.
- **`FieldError` and `FieldSeparator`** (`src/components/field.tsx`).
  `FieldError` chooses its alert content from `children` and an optional list
  of optional `{ message }` entries. The result is the children, nothing, one
  bare message, or an order-preserving list of the truthy messages.
  `FieldSeparator` flags `data-content` and shows its label span when its
  children are truthy.

`js.dfy` holds the JavaScript notions both files rely on: `undefined`-able
values, thrown errors, truthiness, and what React renders for a child.

Two facts about `sidebar.tsx` shape the controller model:
- `setOpen` writes the cookie on every call, including when `onOpenChange` is
  given, and on mobile and desktop alike.
- The value read (`open ?? _open`) and the write path (`onOpenChange` present
  or not) depend on two independent props. `Sidebar.SetOpenVisibleEffect` and
  `Sidebar.TogglesControlled` state the consequences.

## Model

| member | source | states |
|---|---|---|
| Js.FalsyButVisible | src/components/field.tsx:173-180 | a falsy child still renders something exactly when it is the number 0 |
| Field.ListItems | src/components/field.tsx:206-212 | the list never has more items than there are entries, and every item is a non-empty message |
| Field.ListItemsSelects | src/components/field.tsx:208-211 | the list items are the truthy messages of the entries, one per such entry, in the entries' order; undefined entries and entries without a message are skipped |
| Field.ListItemsAppend | src/components/field.tsx:208-211 | the items for two concatenated error lists are the two lists of items concatenated |
| Field.FieldErrorContent | src/components/field.tsx:193-214 | the content is the children iff they are truthy; it is null iff the children are falsy and `errors` is undefined; a single bare message only for exactly one entry with a truthy message; otherwise the list of truthy messages |
| Field.FieldErrorRendersIff | src/components/field.tsx:216-232 | the `role="alert"` container is rendered iff the children are truthy or `errors` is defined, whatever the list holds |
| Field.ChildrenTakePrecedence | src/components/field.tsx:194-196 | truthy children are the content whatever `errors` holds, and the alert renders |
| Field.SingleErrorIsBareMessage | src/components/field.tsx:202-204 | one entry with a non-empty message gives that message string, not a list |
| Field.EmptyListStillRenders | src/components/field.tsx:202-218 | an empty list, or one entry without a truthy message, gives an empty list that is still rendered |
| Field.ShownMessagesAreTruthyMessages | src/components/field.tsx:202-212 | without children, the texts shown are the truthy messages in order, whether as a bare message or as a list |
| Field.SeparatorSlotAsWritten | src/components/field.tsx:173-180 | the label slot holds a span around the children when they are truthy, and the falsy children themselves otherwise |
| Field.SeparatorZeroLabelShows | src/components/field.tsx:165-180 | with the label 0, `data-content` is false yet the slot renders the text "0" |
| Field.SeparatorSlot | src/components/field.tsx:173-180 | corrected slot: the span when the children are truthy, and nothing visible otherwise |
| Field.SeparatorSlotAgreesWithFlag | src/components/field.tsx:165-180 | the corrected slot shows something iff `data-content` is true, and it differs from the as-written slot only on the label 0 |
| Sidebar.DecimalText | src/components/sidebar.tsx:90 | a number interpolated into the cookie is a non-empty string of decimal digits with no leading zero |
| Sidebar.MaxAgeText | src/components/sidebar.tsx:26 | the max-age of 60·60·24·7 seconds is written as "604800" |
| Sidebar.SidebarCookieText | src/components/sidebar.tsx:90 | `setOpen(v)` assigns exactly `sidebar_state=<v>; path=/; max-age=604800` |
| Sidebar.SidebarCookieTextInjective | src/components/sidebar.tsx:90 | the cookie texts for true and false differ |
| Sidebar.MountState | src/components/sidebar.tsx:62-79 | on mount `_open` is `defaultOpen`, or true when absent; `openMobile` is false; nothing has been called or written; `open` is the prop when defined and `_open` otherwise |
| Sidebar.SetOpenEffect | src/components/sidebar.tsx:80-91 | with `onOpenChange`, `setOpen(v)` calls it once with `v` and leaves `_open` alone; without it, `_open` becomes `v`; either way it writes the `sidebar_state=<v>` cookie and leaves the mobile flag, viewport and props unchanged |
| Sidebar.SetOpenVisibleEffect | src/components/sidebar.tsx:79-87 | after `setOpen(v)`, `open` is the prop when it is defined, unchanged when only a callback is given, and `v` otherwise |
| Sidebar.ToggleOnMobile | src/components/sidebar.tsx:96-98 | on mobile a toggle flips `openMobile` only: `_open`, `open`, the callback log and the cookie are unchanged |
| Sidebar.ToggleOnDesktop | src/components/sidebar.tsx:96-99 | on desktop a toggle is `setOpen(!open)`; `openMobile` is unchanged and the last cookie records `!open` |
| Sidebar.ToggleTwiceRestores | src/components/sidebar.tsx:96-99 | on an uncontrolled provider two toggles restore `open`, `_open` and `openMobile` |
| Sidebar.TogglesParityDesktop | src/components/sidebar.tsx:80-100 | uncontrolled desktop: after n toggles `open` is flipped n times, n cookies were written, and the last one matches the new `open` |
| Sidebar.TogglesParityMobile | src/components/sidebar.tsx:96-98 | mobile: after n toggles `openMobile` is flipped n times, and `_open`, the callback log and the cookie are untouched |
| Sidebar.TogglesControlled | src/components/sidebar.tsx:79-100 | controlled desktop with no re-render in between: `open` stays the prop, and each toggle asks `onOpenChange` for the same value `!open` |
| Sidebar.ToggleChangesState | src/components/sidebar.tsx:96-99 | every toggle changes the state: the mobile flag flips, or a cookie is written |
| Sidebar.KeyDownActsOnShortcutOnly | src/components/sidebar.tsx:104-112 | the key handler changes state iff the key is "b" with Cmd or Ctrl, and then it toggles |
| Sidebar.RerenderKeepsState | src/components/sidebar.tsx:73-79 | a re-render keeps `_open`, `openMobile`, the callback log and the cookie; `open` reads the new prop or `_open` |
| Sidebar.SidebarProvider.constructor | src/components/sidebar.tsx:62-78 | the mounted provider is the mount state |
| Sidebar.SidebarProvider.Context | src/components/sidebar.tsx:118-133 | the context value is `state`, `open`, `openMobile` and `isMobile` of the current state |
| Sidebar.SidebarProvider.SetOpen | src/components/sidebar.tsx:80-93 | the new state is the `setOpen` transition of the old one |
| Sidebar.SidebarProvider.SetOpenMobile | src/components/sidebar.tsx:74 | the new state differs from the old one only in `openMobile` |
| Sidebar.SidebarProvider.ToggleSidebar | src/components/sidebar.tsx:96-100 | the new state is the toggle transition of the old one |
| Sidebar.SidebarProvider.HandleKeyDown | src/components/sidebar.tsx:104-112 | `preventDefault` is called iff the event is the shortcut, and the new state is the key-handler transition |
| Sidebar.SidebarProvider.Rerender | src/components/sidebar.tsx:61-79 | a new render replaces the props and the viewport signal and keeps the rest of the state |
| Sidebar.ContextOf | src/components/sidebar.tsx:118-133 | `state` is expanded iff `open`, and the context carries the provider's `open`, `openMobile` and `isMobile` |
| Sidebar.UseSidebar | src/components/sidebar.tsx:44-51 | the context is returned iff a provider is present; otherwise it throws "useSidebar must be used within a SidebarProvider." |
| Sidebar.SidebarShapeOf | src/components/sidebar.tsx:183-231 | `collapsible == "none"` gives the plain panel, then the mobile viewport gives the sheet bound to `openMobile`, then the desktop panel, whose `data-state` is the state and whose `data-collapsible` is non-empty iff collapsed |
| Sidebar.SidebarView | src/components/sidebar.tsx:174-183 | `Sidebar` throws iff there is no provider, and otherwise renders the shape for its `collapsible`, which defaults to "offcanvas": with the default, a collapsed desktop sidebar renders the desktop panel with `data-collapsible` "offcanvas" |
| Sidebar.MenuButtonView | src/components/sidebar.tsx:573-603 | the menu button throws iff there is no provider; it is bare iff the tooltip is absent or empty; a label tooltip, and a props object without its own `hidden`, are hidden unless the state is collapsed and not mobile; a props object's own `hidden` wins |
| Sidebar.NoProviderThrows | src/components/sidebar.tsx:44-48 | outside a provider, `Sidebar` and `SidebarMenuButton` throw the provider-missing error whatever their props |
| Sidebar.DesktopAttributes | src/components/sidebar.tsx:224-231 | the desktop panel has `data-state` "expanded" iff open; `data-collapsible` is `collapsible` when collapsed and "" otherwise, and never "none" |
| Sidebar.LabelTooltipShownOnCollapsedDesktop | src/components/sidebar.tsx:586-603 | a label tooltip is hidden iff open or mobile; it is shown iff the sidebar renders its collapsed desktop panel |

## Left out

- JSX markup, class strings, CSS custom properties and the width constants (`src/components/sidebar.tsx:27-29`) are presentational and not modelled.
- The other components of `sidebar.tsx`, such as `SidebarTrigger`, `SidebarRail`, groups, menus and the random skeleton width, are not modelled. `SidebarTrigger` calls the caller's `onClick` and then `toggleSidebar`; `SidebarRail` sets `onClick={toggleSidebar}` before spreading the caller's props, so a caller's `onClick` replaces the toggle. Their click wiring is not modelled; the toggle itself is `SidebarProvider.ToggleSidebar`.
- React memoisation (`useCallback`, `useMemo`) is not modelled. Each event is one sequential step.
- The stale closure of `setOpen` is not modelled: `toggleSidebar`'s updater is applied to the `open` of the current state, not the `open` of an earlier render.
- The functional-updater form of the exposed `setOpen` is modelled only as `toggleSidebar` uses it. `SidebarProvider.SetOpen` takes a value.
- `onOpenChange` is foreign code. The model keeps only whether it is given and the values it was called with. How a parent reacts is modelled only as a later `Rerender` with new props.
- `useIsMobile` is an external viewport observer. Its value is an input that `Rerender` updates.
- `document.cookie` has no browser semantics here. It is the log of assignments, and `CookieText` gives each assignment's string. Nothing in `sidebar.tsx` reads the cookie back, and neither does the model.
- Mounting and unmounting the window keydown listener are environment lifecycle and not modelled. Only the handler is modelled.
- Numbers in children are integers: NaN (falsy, yet rendered as "NaN") is not modelled.
- Tooltip props other than `hidden` are passed through to the external tooltip and are not modelled.
- Sidebar.MenuButtonView: a props object that spells out `hidden: undefined` overrides the computed flag through the spread, leaving `hidden` undefined. `Option<bool>` cannot tell that apart from an absent `hidden`, so the model gives both the computed flag.
- All other component files, `src/main.tsx` and `vite.config.ts` are not part of this model. They forward props to external primitives or configure the build.

## Findings

| source | as written | input that shows it | evidently intended | confidence | as-written member | corrected member |
|---|---|---|---|---|---|---|
| src/components/field.tsx:173-180 | `{children && <span>…</span>}` evaluates to `children` itself when it is falsy, and React renders a number | `FieldSeparator` with children `0`: `data-content` is false, yet an unstyled "0" appears in the separator | no label content at all when `data-content` is false | medium, not executed | Field.SeparatorSlotAsWritten (shown by Field.SeparatorZeroLabelShows) | Field.SeparatorSlot (proved by Field.SeparatorSlotAgreesWithFlag) |
