/**
 * Button bindings of ROX-Filer (bind.c): which action a mouse-button event
 * triggers, given where it happened and the user's binding options.
 */
module Bind {

  /** Where the button event happened. */
  datatype BindContext = Directory | DirectoryIcon | Panel | PanelIcon | Pinboard | PinboardIcon

  /** The GDK event types of a button event. */
  datatype EventType = ButtonPress | DoubleClick | TripleClick | ButtonRelease

  /** The parts of a GdkEventButton that bind_lookup_bev reads; the state mask is reduced to its two modifiers. */
  datatype ButtonEvent = ButtonEvent(button: int, kind: EventType, shift: bool, ctrl: bool)

  /** The options bind_menu_button_2, bind_single_click and bind_single_pinboard. */
  datatype BindOptions = BindOptions(menuButton2: bool, singleClick: bool, singlePinboard: bool)

  datatype BindAction =
    | Ignore | PopupMenu | OpenItem | EditItem | Resize
    | LassoClear | LassoModify | SlideClearPanel | SlidePanel | ClearSelection
    | PrimeAndToggle | MoveIcon | PrimeAndSelect | PrimeForDnd

  function MenuButton(opts: BindOptions): int
  {
    if opts.menuButton2 then 2 else 3
  }

  /** An icon on the pinboard or a panel. */
  predicate IsIcon(ctx: BindContext)
  {
    ctx == PinboardIcon || ctx == PanelIcon
  }

  /** Something that can be opened: an icon or an item in a directory view. */
  predicate IsItem(ctx: BindContext)
  {
    IsIcon(ctx) || ctx == DirectoryIcon
  }

  predicate IsBackground(ctx: BindContext)
  {
    ctx == Pinboard || ctx == Panel || ctx == Directory
  }

  /** Items of a directory view or the pinboard open on a double click when single-click mode is off there. */
  predicate DoubleClickMode(ctx: BindContext, opts: BindOptions)
  {
    (ctx == DirectoryIcon && !opts.singleClick) || (ctx == PinboardIcon && !opts.singlePinboard)
  }

  /** A button the table handles at all: 3 or below and not the menu button. */
  predicate Handled(ev: ButtonEvent, opts: BindOptions)
  {
    ev.button <= 3 && ev.button != MenuButton(opts)
  }

  /** The events that open an item: a double click in double-click mode, or a plain release in single-click mode. */
  predicate Opens(ctx: BindContext, ev: ButtonEvent, opts: BindOptions)
  {
    Handled(ev, opts) && IsItem(ctx) &&
    ((ev.kind == DoubleClick && DoubleClickMode(ctx, opts)) ||
     (ev.kind == ButtonRelease && !DoubleClickMode(ctx, opts) && !ev.ctrl &&
      (ev.button == 1 || ctx == DirectoryIcon)))
  }

  /** A press of a handled button. */
  predicate Pressed(ev: ButtonEvent, opts: BindOptions)
  {
    Handled(ev, opts) && ev.kind == ButtonPress
  }

  /**
   * bind_lookup_bev. Each ensures clause below gives, for one action, exactly
   * the events that produce it; Ignore is whatever none of them covers.
   */
  function LookupBev(ctx: BindContext, ev: ButtonEvent, opts: BindOptions): (a: BindAction)
    ensures ev.button > 3 ==> a == Ignore
    ensures a == PopupMenu <==> ev.button == MenuButton(opts) && ev.kind == ButtonPress
    ensures ev.button == MenuButton(opts) && ev.kind != ButtonPress ==> a == Ignore
    ensures a == Resize <==> Handled(ev, opts) && ev.kind == DoubleClick && ctx == Directory
    ensures a == OpenItem <==> Opens(ctx, ev, opts) && !ev.shift
    ensures a == EditItem <==> Opens(ctx, ev, opts) && ev.shift
    // the background of a directory view: lasso
    ensures a == LassoClear <==> Pressed(ev, opts) && ctx == Directory && !ev.ctrl && ev.button == 1
    ensures a == LassoModify <==> Pressed(ev, opts) && ctx == Directory && (ev.ctrl || ev.button != 1)
    // the background of a panel: slide
    ensures a == SlideClearPanel <==> Pressed(ev, opts) && ctx == Panel && !ev.ctrl && ev.button == 1
    ensures a == SlidePanel <==> Pressed(ev, opts) && ctx == Panel && (ev.ctrl || ev.button != 1)
    // the pinboard background: only a plain select press does anything
    ensures a == ClearSelection <==> Pressed(ev, opts) && ctx == Pinboard && !ev.ctrl && ev.button == 1
    // pressing on an item
    ensures a == PrimeAndToggle <==>
              Pressed(ev, opts) && IsItem(ctx) && (ev.ctrl || (ev.button != 1 && DoubleClickMode(ctx, opts)))
    ensures a == MoveIcon <==> Pressed(ev, opts) && ctx == PanelIcon && !ev.ctrl && ev.button != 1
    ensures a == PrimeAndSelect <==>
              Pressed(ev, opts) && IsItem(ctx) && DoubleClickMode(ctx, opts) && !ev.ctrl && ev.button == 1
    ensures a == PrimeForDnd <==>
              Pressed(ev, opts) && IsItem(ctx) && !DoubleClickMode(ctx, opts) && !ev.ctrl &&
              !(ctx == PanelIcon && ev.button != 1)
    // every non-press that does not open or resize is ignored
    ensures ev.kind != ButtonPress && !Opens(ctx, ev, opts) && a != Resize ==> a == Ignore
  {
    var b := ev.button;
    var icon := IsIcon(ctx);
    var item := IsItem(ctx);
    var background := IsBackground(ctx);
    var press := ev.kind == ButtonPress;
    var release := ev.kind == ButtonRelease;
    var select := b == 1;   // (old RISC OS names)
    var adjust := b != 1;
    var dclick := ev.kind == DoubleClick;
    var dclickMode := DoubleClickMode(ctx, opts);

    if b > 3 then Ignore
    else if b == MenuButton(opts) then (if press then PopupMenu else Ignore)
    else if item && dclick && dclickMode then (if ev.shift then EditItem else OpenItem)
    else if dclick && ctx == Directory then Resize
    else if !press then
      if release && item && !dclickMode && !ev.ctrl && (select || (adjust && ctx == DirectoryIcon))
      then (if ev.shift then EditItem else OpenItem)
      else Ignore
    else if background then
      var clear := !ev.ctrl && select;
      if ctx == Directory then (if clear then LassoClear else LassoModify)
      else if ctx == Panel then (if clear then SlideClearPanel else SlidePanel)
      else (if clear then ClearSelection else Ignore)
    else if ev.ctrl || (adjust && dclickMode) then PrimeAndToggle
    else if ctx == PanelIcon && adjust then MoveIcon
    else if dclickMode then PrimeAndSelect
    else PrimeForDnd
  }

  /** With the default options (menu on button 3, single-click everywhere) nothing is in double-click mode. */
  lemma DefaultsAreSingleClick(ctx: BindContext)
    ensures !DoubleClickMode(ctx, BindOptions(false, true, true))
  {
  }

  /**
   * The two menu-button settings only swap the roles of buttons 2 and 3:
   * button 1 behaves the same under both.
   */
  lemma SelectIndependentOfMenuButton(ctx: BindContext, ev: ButtonEvent, opts: BindOptions)
    requires ev.button == 1
    ensures LookupBev(ctx, ev, opts) == LookupBev(ctx, ev, opts.(menuButton2 := !opts.menuButton2))
  {
  }
}
