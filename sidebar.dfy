/** The sidebar's state controller (`SidebarProvider`), the `useSidebar`
    guard, and the decisions the `Sidebar` and `SidebarMenuButton`
    components take from the shared state. */
module Sidebar {
  import opened Js

  const CookieName: string := "sidebar_state"
  /** Seven days, in seconds. */
  const CookieMaxAge: nat := 60 * 60 * 24 * 7
  const KeyboardShortcut: string := "b"
  const ProviderMissing: string := "useSidebar must be used within a SidebarProvider."

  // ---------------------------------------------------------------------
  // The cookie text
  // ---------------------------------------------------------------------

  /** `${b}` for a boolean. */
  function BoolText(b: bool): string {
    if b then "true" else "false"
  }

  function DigitChar(d: nat): (c: char)
    requires d < 10
    ensures '0' <= c <= '9'
    ensures (c as int) - ('0' as int) == d
  {
    "0123456789"[d]
  }

  /** `${n}` for the non-negative integers below 10^21 that JavaScript prints
      in plain decimal (the one interpolated here is the cookie's max-age):
      the decimal digits, most significant first, with no leading zero. */
  function DecimalText(n: nat): (s: string)
    ensures s != []
    ensures forall k :: 0 <= k < |s| ==> '0' <= s[k] <= '9'
    ensures s[0] == '0' ==> n == 0
  {
    if n < 10 then [DigitChar(n)] else DecimalText(n / 10) + [DigitChar(n % 10)]
  }

  /** The text interpolated for the cookie's max-age. */
  lemma MaxAgeText()
    ensures DecimalText(CookieMaxAge) == "604800"
  {
    assert CookieMaxAge == 604800;
    assert DecimalText(6) == "6";
    assert DecimalText(60) == "60";
    assert DecimalText(604) == "604";
    assert DecimalText(6048) == "6048";
    assert DecimalText(60480) == "60480";
  }

  /** One assignment to `document.cookie`:
      `${name}=${value}; path=${path}; max-age=${maxAge}`. */
  datatype CookieAssignment = CookieAssignment(name: string, value: bool, path: string, maxAge: nat)

  /** The string the template literal builds for an assignment. */
  function CookieText(c: CookieAssignment): string {
    c.name + "=" + BoolText(c.value) + "; path=" + c.path + "; max-age=" + DecimalText(c.maxAge)
  }

  /** The assignment `setOpen(open)` performs. */
  function SidebarCookie(open: bool): CookieAssignment {
    CookieAssignment(CookieName, open, "/", CookieMaxAge)
  }

  lemma CookieTextWithDigits(c: CookieAssignment, digits: string)
    requires DecimalText(c.maxAge) == digits
    ensures CookieText(c) == c.name + "=" + BoolText(c.value) + "; path=" + c.path + "; max-age=" + digits
  {
  }

  lemma SidebarCookiePartsTrue()
    ensures CookieName + "=" + BoolText(true) + "; path=" + "/" + "; max-age=" + "604800"
              == "sidebar_state=true; path=/; max-age=604800"
  {
    assert CookieName + "=" + BoolText(true) == "sidebar_state=true";
  }

  lemma SidebarCookiePartsFalse()
    ensures CookieName + "=" + BoolText(false) + "; path=" + "/" + "; max-age=" + "604800"
              == "sidebar_state=false; path=/; max-age=604800"
  {
    assert CookieName + "=" + BoolText(false) == "sidebar_state=false";
  }

  /** The text `setOpen(open)` assigns is exactly
      `sidebar_state=<open>; path=/; max-age=604800`. */
  lemma SidebarCookieText(open: bool)
    ensures CookieText(SidebarCookie(open))
              == if open then "sidebar_state=true; path=/; max-age=604800"
                 else "sidebar_state=false; path=/; max-age=604800"
  {
    MaxAgeText();
    CookieTextWithDigits(SidebarCookie(open), "604800");
    if open {
      SidebarCookiePartsTrue();
    } else {
      SidebarCookiePartsFalse();
    }
  }

  /** Different values give different cookie texts. */
  lemma SidebarCookieTextInjective(a: bool, b: bool)
    ensures CookieText(SidebarCookie(a)) == CookieText(SidebarCookie(b)) <==> a == b
  {
    SidebarCookieText(a);
    SidebarCookieText(b);
    assert |CookieText(SidebarCookie(true))| != |CookieText(SidebarCookie(false))|;
  }

  // ---------------------------------------------------------------------
  // Provider state and its transitions
  // ---------------------------------------------------------------------

  /** A keydown event as far as the shortcut handler looks at it. */
  datatype KeyEvent = KeyEvent(key: string, metaKey: bool, ctrlKey: bool)

  /** The shortcut is the key "b" exactly, with Cmd or Ctrl held. */
  predicate IsToggleShortcut(e: KeyEvent) {
    e.key == KeyboardShortcut && (e.metaKey || e.ctrlKey)
  }

  /** The state a mounted `SidebarProvider` holds, with its environment:
      `internalOpen` is `_open`; `openProp` and `hasOnOpenChange` are the
      `open` and `onOpenChange` props of the current render;
      `openChangeCalls` lists the values passed to `onOpenChange`;
      `isMobile` is the viewport signal; `cookieWrites` lists the assignments
      to `document.cookie`, oldest first. */
  datatype Provider = Provider(
    internalOpen: bool,
    openProp: Option<bool>,
    hasOnOpenChange: bool,
    openChangeCalls: seq<bool>,
    openMobile: bool,
    isMobile: bool,
    cookieWrites: seq<CookieAssignment>)
  {
    /** `openProp ?? _open`: the prop wins whenever it is defined, whether or
        not `onOpenChange` is given. */
    function Open(): bool {
      openProp.GetOr(internalOpen)
    }

    /** `setOpen(value)`: hand the value to `onOpenChange` when there is one,
        otherwise store it in `_open`; write the cookie in both cases. */
    function SetOpen(value: bool): Provider {
      var delegated :=
        if hasOnOpenChange then this.(openChangeCalls := openChangeCalls + [value])
        else this.(internalOpen := value);
      delegated.(cookieWrites := cookieWrites + [SidebarCookie(value)])
    }

    /** `setOpenMobile(value)`, the plain state setter. */
    function SetOpenMobile(value: bool): Provider {
      this.(openMobile := value)
    }

    /** `toggleSidebar()`: on a mobile viewport flip `openMobile`, otherwise
        `setOpen(!open)`. */
    function ToggleSidebar(): Provider {
      if isMobile then this.(openMobile := !openMobile) else SetOpen(!Open())
    }

    /** The window keydown handler. */
    function KeyDown(e: KeyEvent): Provider {
      if IsToggleShortcut(e) then ToggleSidebar() else this
    }

    /** A new render with new props or a new viewport signal; `_open` and
        `openMobile` keep their values (`defaultOpen` is only read on mount). */
    function Rerender(openProp': Option<bool>, hasOnOpenChange': bool, isMobile': bool): Provider {
      this.(openProp := openProp', hasOnOpenChange := hasOnOpenChange', isMobile := isMobile')
    }
  }

  /** The state right after mounting; `defaultOpen` defaults to true. */
  function Mount(defaultOpen: Option<bool>, openProp: Option<bool>, hasOnOpenChange: bool, isMobile: bool): Provider {
    Provider(defaultOpen.GetOr(true), openProp, hasOnOpenChange, [], false, isMobile, [])
  }

  /** The last assignment to `document.cookie`, if any. */
  function LastCookie(p: Provider): Option<CookieAssignment> {
    if p.cookieWrites == [] then None else Some(p.cookieWrites[|p.cookieWrites| - 1])
  }

  /** `n` toggles in a row, each its own event. */
  function Toggles(p: Provider, n: nat): Provider {
    if n == 0 then p else Toggles(p, n - 1).ToggleSidebar()
  }

  /** A provider neither prop controls. */
  predicate Uncontrolled(p: Provider) {
    p.openProp.None? && !p.hasOnOpenChange
  }

  /** Mounting: `_open` is `defaultOpen` (true when absent), `openMobile` is
      false, nothing has been called or written, and `open` is the prop when
      given and `_open` otherwise. */
  lemma MountState(defaultOpen: Option<bool>, openProp: Option<bool>, hasOnOpenChange: bool, isMobile: bool)
    ensures var p := Mount(defaultOpen, openProp, hasOnOpenChange, isMobile);
      && p.internalOpen == (defaultOpen != Some(false))
      && !p.openMobile
      && p.openChangeCalls == [] && p.cookieWrites == []
      && p.Open() == (if openProp.Some? then openProp.value else defaultOpen != Some(false))
  {
  }

  /** `setOpen(v)` with `onOpenChange` calls it once with `v` and leaves
      `_open` alone; without it, `_open` becomes `v`. Either way the cookie
      `sidebar_state=<v>; path=/; max-age=604800` is written, and nothing on
      the mobile side changes. */
  lemma SetOpenEffect(p: Provider, v: bool)
    ensures var q := p.SetOpen(v);
      && (p.hasOnOpenChange ==> q.openChangeCalls == p.openChangeCalls + [v] && q.internalOpen == p.internalOpen)
      && (!p.hasOnOpenChange ==> q.openChangeCalls == p.openChangeCalls && q.internalOpen == v)
      && q.cookieWrites == p.cookieWrites + [SidebarCookie(v)]
      && CookieText(LastCookie(q).value) == (if v then "sidebar_state=true; path=/; max-age=604800"
                                             else "sidebar_state=false; path=/; max-age=604800")
      && q.openMobile == p.openMobile && q.isMobile == p.isMobile
      && q.openProp == p.openProp && q.hasOnOpenChange == p.hasOnOpenChange
  {
    SidebarCookieText(v);
  }

  /** What `open` reads after `setOpen(v)`: the read side looks only at
      `openProp`, the write side only at `onOpenChange`, so a defined
      `openProp` hides the write and a callback without `openProp` leaves
      `open` as it was until the parent re-renders. */
  lemma SetOpenVisibleEffect(p: Provider, v: bool)
    ensures p.SetOpen(v).Open()
              == if p.openProp.Some? then p.openProp.value
                 else if p.hasOnOpenChange then p.Open()
                 else v
  {
  }

  /** On a mobile viewport a toggle flips `openMobile` only: `_open`, `open`,
      the callback log and the cookie stay as they are. */
  lemma ToggleOnMobile(p: Provider)
    requires p.isMobile
    ensures var q := p.ToggleSidebar();
      && q.openMobile == !p.openMobile
      && q.internalOpen == p.internalOpen && q.Open() == p.Open()
      && q.openChangeCalls == p.openChangeCalls && q.cookieWrites == p.cookieWrites
  {
  }

  /** On a desktop viewport a toggle is `setOpen(!open)` and leaves
      `openMobile` alone; its cookie records the negation of `open`. */
  lemma ToggleOnDesktop(p: Provider)
    requires !p.isMobile
    ensures var q := p.ToggleSidebar();
      && q == p.SetOpen(!p.Open())
      && q.openMobile == p.openMobile
      && LastCookie(q) == Some(SidebarCookie(!p.Open()))
  {
  }

  /** On an uncontrolled provider two toggles restore `open`, `_open` and
      `openMobile`, on either viewport. */
  lemma ToggleTwiceRestores(p: Provider)
    requires Uncontrolled(p)
    ensures var q := p.ToggleSidebar().ToggleSidebar();
      && q.Open() == p.Open() && q.internalOpen == p.internalOpen && q.openMobile == p.openMobile
  {
  }

  /** Desktop, uncontrolled: after `n` toggles `open` is its first value
      flipped `n` times, one cookie was written per toggle, and the last
      cookie matches the new `open`. */
  lemma {:induction false} TogglesParityDesktop(p: Provider, n: nat)
    requires Uncontrolled(p) && !p.isMobile
    ensures var q := Toggles(p, n);
      && q.Open() == (if n % 2 == 0 then p.Open() else !p.Open())
      && q.openMobile == p.openMobile
      && q.openChangeCalls == p.openChangeCalls
      && |q.cookieWrites| == |p.cookieWrites| + n
      && (n > 0 ==> LastCookie(q) == Some(SidebarCookie(q.Open())))
      && Uncontrolled(q) && !q.isMobile
  {
    if n > 0 {
      TogglesParityDesktop(p, n - 1);
      var r := Toggles(p, n - 1);
      assert Toggles(p, n) == r.SetOpen(!r.Open());
    }
  }

  /** Mobile: after `n` toggles `openMobile` is flipped `n` times and the
      desktop side (`_open`, callback log, cookie) is untouched. */
  lemma {:induction false} TogglesParityMobile(p: Provider, n: nat)
    requires p.isMobile
    ensures var q := Toggles(p, n);
      && q.openMobile == (if n % 2 == 0 then p.openMobile else !p.openMobile)
      && q.internalOpen == p.internalOpen && q.Open() == p.Open()
      && q.openChangeCalls == p.openChangeCalls && q.cookieWrites == p.cookieWrites
      && q.isMobile
  {
    if n > 0 {
      TogglesParityMobile(p, n - 1);
      var r := Toggles(p, n - 1);
      assert Toggles(p, n) == r.(openMobile := !r.openMobile);
    }
  }

  /** Desktop, fully controlled, with a parent that does not re-render in
      between: `open` keeps reading the prop, so every toggle asks
      `onOpenChange` for the same value `!open`, and `_open` never moves. */
  lemma {:induction false} TogglesControlled(p: Provider, n: nat)
    requires p.openProp.Some? && p.hasOnOpenChange && !p.isMobile
    ensures var q := Toggles(p, n);
      && q.Open() == p.Open()
      && q.openChangeCalls == p.openChangeCalls + seq(n, _ => !p.Open())
      && q.internalOpen == p.internalOpen
      && |q.cookieWrites| == |p.cookieWrites| + n
      && q.openProp == p.openProp && q.hasOnOpenChange && !q.isMobile
  {
    if n > 0 {
      TogglesControlled(p, n - 1);
      var r := Toggles(p, n - 1);
      assert Toggles(p, n) == r.SetOpen(!r.Open());
      assert seq(n, _ => !p.Open()) == seq(n - 1, _ => !p.Open()) + [!p.Open()];
    }
  }

  /** A toggle always leaves a trace: `openMobile` flips on mobile, a cookie
      is written on desktop. */
  lemma ToggleChangesState(p: Provider)
    ensures p.ToggleSidebar() != p
  {
    if !p.isMobile {
      assert |p.ToggleSidebar().cookieWrites| == |p.cookieWrites| + 1;
    }
  }

  /** The keydown handler acts exactly on the shortcut: on it the sidebar is
      toggled, on any other event nothing changes. */
  lemma KeyDownActsOnShortcutOnly(p: Provider, e: KeyEvent)
    ensures p.KeyDown(e) != p <==> IsToggleShortcut(e)
    ensures IsToggleShortcut(e) ==> p.KeyDown(e) == p.ToggleSidebar()
  {
    ToggleChangesState(p);
  }

  /** A new render keeps `_open`, `openMobile`, the callback log and the
      cookie; `defaultOpen` plays no part after mounting. */
  lemma RerenderKeepsState(p: Provider, openProp: Option<bool>, hasOnOpenChange: bool, isMobile: bool)
    ensures var q := p.Rerender(openProp, hasOnOpenChange, isMobile);
      && q.internalOpen == p.internalOpen && q.openMobile == p.openMobile
      && q.openChangeCalls == p.openChangeCalls && q.cookieWrites == p.cookieWrites
      && q.Open() == openProp.GetOr(p.internalOpen)
  {
  }

  // ---------------------------------------------------------------------
  // The provider as an object
  // ---------------------------------------------------------------------

  /** A mounted provider. Each method is one event handled to completion. */
  class SidebarProvider {
    var internalOpen: bool
    var openProp: Option<bool>
    var hasOnOpenChange: bool
    var openChangeCalls: seq<bool>
    var openMobile: bool
    var isMobile: bool
    var cookieWrites: seq<CookieAssignment>

    /** The provider's state as a value. */
    function Snapshot(): Provider
      reads this
    {
      Provider(internalOpen, openProp, hasOnOpenChange, openChangeCalls, openMobile, isMobile, cookieWrites)
    }

    constructor (defaultOpen: Option<bool>, openProp: Option<bool>, hasOnOpenChange: bool, isMobile: bool)
      ensures Snapshot() == Mount(defaultOpen, openProp, hasOnOpenChange, isMobile)
    {
      this.internalOpen := defaultOpen.GetOr(true);
      this.openProp := openProp;
      this.hasOnOpenChange := hasOnOpenChange;
      this.openChangeCalls := [];
      this.openMobile := false;
      this.isMobile := isMobile;
      this.cookieWrites := [];
    }

    /** The context value handed to descendants. */
    method Context() returns (ctx: SidebarContext)
      ensures ctx == ContextOf(Snapshot())
    {
      var open := openProp.GetOr(internalOpen);
      ctx := SidebarContext(if open then Expanded else Collapsed, open, openMobile, isMobile);
    }

    method SetOpen(value: bool)
      modifies this
      ensures Snapshot() == old(Snapshot()).SetOpen(value)
    {
      if hasOnOpenChange {
        openChangeCalls := openChangeCalls + [value];
      } else {
        internalOpen := value;
      }
      cookieWrites := cookieWrites + [SidebarCookie(value)];
    }

    method SetOpenMobile(value: bool)
      modifies this
      ensures Snapshot() == old(Snapshot()).SetOpenMobile(value)
    {
      openMobile := value;
    }

    method ToggleSidebar()
      modifies this
      ensures Snapshot() == old(Snapshot()).ToggleSidebar()
    {
      if isMobile {
        openMobile := !openMobile;
      } else {
        SetOpen(!openProp.GetOr(internalOpen));
      }
    }

    /** The window keydown listener; reports whether it called
        `preventDefault`. */
    method HandleKeyDown(e: KeyEvent) returns (defaultPrevented: bool)
      modifies this
      ensures defaultPrevented == IsToggleShortcut(e)
      ensures Snapshot() == old(Snapshot()).KeyDown(e)
    {
      defaultPrevented := false;
      if e.key == KeyboardShortcut && (e.metaKey || e.ctrlKey) {
        defaultPrevented := true;
        ToggleSidebar();
      }
    }

    method Rerender(openProp': Option<bool>, hasOnOpenChange': bool, isMobile': bool)
      modifies this
      ensures Snapshot() == old(Snapshot()).Rerender(openProp', hasOnOpenChange', isMobile')
    {
      openProp, hasOnOpenChange, isMobile := openProp', hasOnOpenChange', isMobile';
    }
  }

  // ---------------------------------------------------------------------
  // What descendants read
  // ---------------------------------------------------------------------

  datatype SidebarState = Expanded | Collapsed {
    /** The `data-state` text. */
    function Name(): string {
      match this
      case Expanded => "expanded"
      case Collapsed => "collapsed"
    }
  }

  /** The context value: `state`, `open`, `openMobile`, `isMobile` (the
      setters are the methods of `SidebarProvider`). */
  datatype SidebarContext = SidebarContext(state: SidebarState, open: bool, openMobile: bool, isMobile: bool)

  function ContextOf(p: Provider): (ctx: SidebarContext)
    ensures ctx.state == Expanded <==> ctx.open
    ensures ctx.open == p.Open() && ctx.openMobile == p.openMobile && ctx.isMobile == p.isMobile
  {
    SidebarContext(if p.Open() then Expanded else Collapsed, p.Open(), p.openMobile, p.isMobile)
  }

  /** `useSidebar()`: the context when a provider is above, otherwise it
      throws. */
  function UseSidebar(context: Option<SidebarContext>): (r: Result<SidebarContext>)
    ensures r.Ok? <==> context.Some?
    ensures r.Ok? ==> r.value == context.value
    ensures r.Thrown? ==> r.message == ProviderMissing
  {
    match context
    case Some(ctx) => Ok(ctx)
    case None => Thrown(ProviderMissing)
  }

  /** The `collapsible` prop of `Sidebar`. */
  datatype Collapsible = Offcanvas | Icon | NonCollapsible {
    function Name(): string {
      match this
      case Offcanvas => "offcanvas"
      case Icon => "icon"
      case NonCollapsible => "none"
    }
  }

  /** Which of its three shapes `Sidebar` renders: a plain panel, the mobile
      sheet (open when `openMobile`), or the desktop panel with its
      `data-state` and `data-collapsible` attributes. */
  datatype SidebarShape =
    | PlainPanel
    | MobileSheet(open: bool)
    | DesktopPanel(dataState: string, dataCollapsible: string)

  /** The shape for a given context: `collapsible == "none"` first, then the
      mobile viewport, then the desktop panel. */
  function SidebarShapeOf(ctx: SidebarContext, collapsible: Collapsible): (s: SidebarShape)
    ensures s.PlainPanel? <==> collapsible == NonCollapsible
    ensures s.MobileSheet? <==> collapsible != NonCollapsible && ctx.isMobile
    ensures s.MobileSheet? ==> s.open == ctx.openMobile
    ensures s.DesktopPanel? ==> s.dataState == ctx.state.Name()
    ensures s.DesktopPanel? ==> (s.dataCollapsible != "" <==> ctx.state == Collapsed)
  {
    if collapsible == NonCollapsible then PlainPanel
    else if ctx.isMobile then MobileSheet(ctx.openMobile)
    else DesktopPanel(ctx.state.Name(), if ctx.state == Collapsed then collapsible.Name() else "")
  }

  /** Rendering `Sidebar`: `useSidebar` first (so it throws outside a
      provider whatever the props), then the shape; `collapsible` defaults to
      "offcanvas". */
  function SidebarView(context: Option<SidebarContext>, collapsible: Option<Collapsible>): (r: Result<SidebarShape>)
    ensures r.Thrown? <==> context.None?
    ensures r.Thrown? ==> r.message == ProviderMissing
    ensures context.Some? ==> r == Ok(SidebarShapeOf(context.value, collapsible.GetOr(Offcanvas)))
    ensures (collapsible.None? && context.Some? && !context.value.isMobile) ==> r.Ok? && r.value.DesktopPanel?
    ensures (collapsible.None? && context.Some? && !context.value.isMobile && context.value.state == Collapsed) ==>
              r == Ok(DesktopPanel("collapsed", "offcanvas"))
  {
    match UseSidebar(context)
    case Thrown(m) => Thrown(m)
    case Ok(ctx) => Ok(SidebarShapeOf(ctx, collapsible.GetOr(Offcanvas)))
  }

  /** The `tooltip` prop of `SidebarMenuButton`: absent, a label, or a props
      object that may carry its own `hidden`. */
  datatype TooltipArg = NoTooltip | Label(text: string) | TooltipProps(hidden: Option<bool>)

  /** What `SidebarMenuButton` renders: the bare button, or the button inside
      a tooltip whose content has the given `hidden` flag. */
  datatype MenuButtonShape = BareButton | WithTooltip(hidden: bool)

  /** `hidden={state !== "collapsed" || isMobile}`. */
  predicate TooltipHidden(ctx: SidebarContext) {
    ctx.state != Collapsed || ctx.isMobile
  }

  /** Rendering `SidebarMenuButton`: `useSidebar` first; an empty or absent
      tooltip gives the bare button; a label becomes `{ children: label }`;
      the tooltip props are spread after `hidden`, so their own `hidden`
      wins. */
  function MenuButtonView(context: Option<SidebarContext>, tooltip: TooltipArg): (r: Result<MenuButtonShape>)
    ensures r.Thrown? <==> context.None?
    ensures r == Ok(BareButton) <==> context.Some? && (tooltip == NoTooltip || tooltip == Label(""))
    ensures (context.Some? && tooltip.Label? && tooltip.text != "") ==>
              r == Ok(WithTooltip(context.value.state != Collapsed || context.value.isMobile))
    ensures (context.Some? && tooltip.TooltipProps? && tooltip.hidden.Some?) ==>
              r == Ok(WithTooltip(tooltip.hidden.value))
    ensures (context.Some? && tooltip.TooltipProps? && tooltip.hidden.None?) ==>
              r == Ok(WithTooltip(TooltipHidden(context.value)))
  {
    match UseSidebar(context)
    case Thrown(m) => Thrown(m)
    case Ok(ctx) =>
      match tooltip
      case NoTooltip => Ok(BareButton)
      case Label(text) => if text == "" then Ok(BareButton) else Ok(WithTooltip(TooltipHidden(ctx)))
      case TooltipProps(hidden) => Ok(WithTooltip(hidden.GetOr(TooltipHidden(ctx))))
  }

  /** Outside a provider both components throw the provider-missing error,
      whatever their props, even when they would not otherwise use the
      state. */
  lemma NoProviderThrows(collapsible: Option<Collapsible>, tooltip: TooltipArg)
    ensures SidebarView(None, collapsible) == Thrown(ProviderMissing)
    ensures MenuButtonView(None, tooltip) == Thrown(ProviderMissing)
  {
  }

  /** `state` is "expanded" exactly when the sidebar is open, and the
      desktop panel carries `data-collapsible` equal to `collapsible` when
      collapsed and "" otherwise; it never carries "none". */
  lemma DesktopAttributes(p: Provider, collapsible: Collapsible)
    requires collapsible != NonCollapsible && !p.isMobile
    ensures SidebarShapeOf(ContextOf(p), collapsible)
              == DesktopPanel(if p.Open() then "expanded" else "collapsed",
                              if p.Open() then "" else collapsible.Name())
    ensures SidebarShapeOf(ContextOf(p), collapsible).dataCollapsible != "none"
  {
  }

  /** A label tooltip is shown only when the sidebar is collapsed on a
      desktop viewport, and that is exactly when a collapsible sidebar shows
      its desktop panel with `data-collapsible` set. */
  lemma LabelTooltipShownOnCollapsedDesktop(p: Provider, text: string, collapsible: Collapsible)
    requires text != "" && collapsible != NonCollapsible
    ensures MenuButtonView(Some(ContextOf(p)), Label(text)) == Ok(WithTooltip(p.Open() || p.isMobile))
    ensures (MenuButtonView(Some(ContextOf(p)), Label(text)) == Ok(WithTooltip(false)))
              <==> SidebarShapeOf(ContextOf(p), collapsible) == DesktopPanel("collapsed", collapsible.Name())
  {
  }
}
