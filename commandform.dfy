/** The command settings form (src/gui/commandwidget.cpp:78-242): copying a
    command record into the form and back, and the rule that decides which
    parts of the form are shown or enabled. */
module CommandForm {
  import opened Shortcuts

  /** A user-defined command as the form reads and writes it. Regular
      expressions are kept as their pattern text; the icon as its name. */
  datatype Command = Command(
    name: string,
    matchPattern: string,
    windowPattern: string,
    matchCmd: string,
    cmd: string,
    sep: string,
    input: string,
    output: string,
    wait: bool,
    automatic: bool,
    inMenu: bool,
    transform: bool,
    remove: bool,
    hideWindow: bool,
    enable: bool,
    icon: string,
    shortcuts: seq<string>,
    globalShortcuts: seq<string>,
    tab: string,
    outputTab: string)

  /** The shown/enabled state of the parts of the form that updateWidgets sets. */
  datatype WidgetFlags = WidgetFlags(
    globalShortcutButtonEnabled: bool,
    matchItemsVisible: bool,
    commandVisible: bool,
    actionVisible: bool,
    inMenuVisible: bool,
    commandOptionsHidden: bool)

  /** The visibility rule of updateWidgets (src/gui/commandwidget.cpp:224-242).
      `globalShortcutsSupported` is false on builds without global shortcuts,
      where a global shortcut never counts as set. */
  function Visibility(
    inMenu: bool, automatic: bool, globalChecked: bool, globalCount: nat,
    commandEmpty: bool, globalShortcutsSupported: bool): (f: WidgetFlags)
    ensures f.globalShortcutButtonEnabled <==> globalChecked
    ensures f.inMenuVisible <==> inMenu
    ensures f.matchItemsVisible <==> inMenu || automatic
    ensures f.actionVisible <==> inMenu || automatic
    ensures f.commandVisible <==>
      inMenu || automatic || (globalShortcutsSupported && globalChecked && globalCount > 0)
    ensures f.commandOptionsHidden <==> !(inMenu || automatic) || commandEmpty
  {
    var copyOrExecute := inMenu || automatic;
    var globalShortcut := globalShortcutsSupported && globalChecked && globalCount > 0;
    WidgetFlags(
      globalChecked,
      copyOrExecute,
      copyOrExecute || globalShortcut,
      copyOrExecute,
      inMenu,
      !copyOrExecute || commandEmpty)
  }

  /** The command options are never shown without the command group that
      holds them, and the in-menu group never without the match group. */
  lemma VisibilityNesting(
    inMenu: bool, automatic: bool, globalChecked: bool, globalCount: nat,
    commandEmpty: bool, globalShortcutsSupported: bool)
    ensures var f := Visibility(inMenu, automatic, globalChecked, globalCount,
                                commandEmpty, globalShortcutsSupported);
      && (!f.commandOptionsHidden ==> f.commandVisible && f.matchItemsVisible)
      && (f.inMenuVisible ==> f.matchItemsVisible && f.commandVisible)
      && f.matchItemsVisible == f.actionVisible
  {
  }

  /** A command that is neither in the menu nor automatic shows its command
      group only for a checked global shortcut set with at least one
      shortcut, and then hides the command options. */
  lemma GlobalShortcutOnly(
    globalChecked: bool, globalCount: nat, commandEmpty: bool, globalShortcutsSupported: bool)
    ensures var f := Visibility(false, false, globalChecked, globalCount,
                                commandEmpty, globalShortcutsSupported);
      && (f.commandVisible <==> globalShortcutsSupported && globalChecked && globalCount > 0)
      && f.commandOptionsHidden
      && !f.matchItemsVisible && !f.inMenuVisible
  {
  }

  /** The part of a command that the form copies field by field without any
      rule attached: everything except the command text, the automatic and
      in-menu flags, the enable flag and the shortcut lists. */
  datatype Details = Details(
    name: string,
    matchPattern: string,
    windowPattern: string,
    matchCmd: string,
    sep: string,
    input: string,
    output: string,
    wait: bool,
    transform: bool,
    remove: bool,
    hideWindow: bool,
    icon: string,
    tab: string,
    outputTab: string)

  /** The details of `c`. */
  function DetailsOf(c: Command): Details
  {
    Details(c.name, c.matchPattern, c.windowPattern, c.matchCmd, c.sep, c.input, c.output,
            c.wait, c.transform, c.remove, c.hideWindow, c.icon, c.tab, c.outputTab)
  }

  /** The form (src/gui/commandwidget.cpp:78-242). The command editor and the
      automatic and in-menu check boxes, which the visibility rule reads, are
      fields of their own; the other line edits, combo boxes and check boxes
      are held together as `details`. The two shortcut buttons and the
      global-shortcut check box are objects, because the decoder writes to
      them. */
  class CommandWidget {
    var details: Details
    var cmd: string
    var automatic: bool
    var inMenu: bool
    const shortcutButton: ShortcutButton
    const shortcutButtonGlobal: ShortcutButton
    const checkBoxGlobalShortcut: CheckBox
    /** Whether global shortcuts exist on this build. */
    const globalShortcutsSupported: bool
    /** What updateWidgets last set. */
    var flags: WidgetFlags

    /** The two shortcut buttons are different objects, and neither holds
        the marker: a key sequence's portable text is never "DISABLED", and
        the decoder never adds it. */
    ghost predicate Valid()
      reads this, shortcutButton, shortcutButtonGlobal
    {
      && shortcutButton != shortcutButtonGlobal
      && Disabled !in shortcutButton.shortcuts
      && Disabled !in shortcutButtonGlobal.shortcuts
    }

    /** The rule applied to the form's current state. */
    function CurrentVisibility(): WidgetFlags
      reads this, shortcutButtonGlobal, checkBoxGlobalShortcut
    {
      Visibility(inMenu, automatic, checkBoxGlobalShortcut.checked,
                 shortcutButtonGlobal.ShortcutCount(), cmd == "", globalShortcutsSupported)
    }

    /** An empty form whose flags already follow the rule
        (src/gui/commandwidget.cpp:78-84). */
    constructor (globalShortcutsSupported: bool)
      ensures Valid()
      ensures this.globalShortcutsSupported == globalShortcutsSupported
      ensures fresh(shortcutButton) && fresh(shortcutButtonGlobal) && fresh(checkBoxGlobalShortcut)
      ensures shortcutButton.shortcuts == [] && shortcutButtonGlobal.shortcuts == []
      ensures !checkBoxGlobalShortcut.checked && !inMenu && !automatic && cmd == ""
      ensures flags == CurrentVisibility()
    {
      details := Details("", "", "", "", "", "", "", false, false, false, false, "", "", "");
      cmd, automatic, inMenu := "", false, false;
      shortcutButton := new ShortcutButton();
      shortcutButtonGlobal := new ShortcutButton();
      checkBoxGlobalShortcut := new CheckBox();
      this.globalShortcutsSupported := globalShortcutsSupported;
      new;
      flags := CurrentVisibility();
    }

    /** Applies the visibility rule to the form (src/gui/commandwidget.cpp:224-242). */
    method UpdateWidgets()
      modifies this`flags
      ensures flags == CurrentVisibility()
    {
      flags := CurrentVisibility();
    }

    /** Reads the form into a command (src/gui/commandwidget.cpp:123-150).
        The command is always enabled; the local shortcuts are encoded as
        enabled, so they never carry the marker; the global shortcuts carry it
        exactly when their check box is off and there is a shortcut, and are
        always in canonical form. */
    method GetCommand() returns (c: Command)
      requires Valid()
      ensures c.enable
      ensures Disabled !in c.shortcuts && Canonical(c.globalShortcuts)
      ensures c.shortcuts == shortcutButton.shortcuts
      ensures c.globalShortcuts == Serialized(shortcutButtonGlobal.shortcuts, checkBoxGlobalShortcut.checked)
      ensures DetailsOf(c) == details
      ensures c.cmd == cmd && c.automatic == automatic && c.inMenu == inMenu
    {
      var local := SerializeShortcuts(shortcutButton.shortcuts, true);
      var global := SerializeShortcuts(shortcutButtonGlobal.shortcuts, checkBoxGlobalShortcut.checked);
      var d := details;
      c := Command(d.name, d.matchPattern, d.windowPattern, d.matchCmd, cmd, d.sep, d.input, d.output,
                   d.wait, automatic, inMenu, d.transform, d.remove, d.hideWindow, true, d.icon,
                   local, global, d.tab, d.outputTab);
      SerializedCanonical(shortcutButtonGlobal.shortcuts, checkBoxGlobalShortcut.checked);
    }

    /** Writes a command into the form (src/gui/commandwidget.cpp:152-176).
        The `enable` flag is not shown by this form and is dropped; markers in
        the local list are dropped without touching any check box. Every input
        of the visibility rule that changes here has a handler that re-runs
        updateWidgets before the setter returns (src/gui/commandwidget.cpp:
        193-222); one run on the final state stands for them. */
    method SetCommand(c: Command)
      requires Valid()
      modifies this, shortcutButton, shortcutButtonGlobal, checkBoxGlobalShortcut
      ensures Valid() && flags == CurrentVisibility()
      ensures details == DetailsOf(c)
      ensures cmd == c.cmd && automatic == c.automatic && inMenu == c.inMenu
      ensures shortcutButton.shortcuts == WithoutMarker(c.shortcuts)
      ensures shortcutButtonGlobal.shortcuts == WithoutMarker(c.globalShortcuts)
      ensures checkBoxGlobalShortcut.checked == DecodedEnabled(c.globalShortcuts)
    {
      details := DetailsOf(c);
      cmd, automatic, inMenu := c.cmd, c.automatic, c.inMenu;
      DeserializeShortcuts(c.shortcuts, shortcutButton, null);
      DeserializeShortcuts(c.globalShortcuts, shortcutButtonGlobal, checkBoxGlobalShortcut);
      UpdateWidgets();
    }
  }

  /** Loading a command into the form and reading it back gives the same
      command, except that it is enabled, its local shortcuts lose any marker,
      and its global shortcuts are brought to canonical form. */
  method Reload(form: CommandWidget, c: Command) returns (back: Command)
    requires form.Valid()
    modifies form, form.shortcutButton, form.shortcutButtonGlobal, form.checkBoxGlobalShortcut
    ensures back == c.(enable := true,
                       shortcuts := WithoutMarker(c.shortcuts),
                       globalShortcuts := Serialized(WithoutMarker(c.globalShortcuts), DecodedEnabled(c.globalShortcuts)))
    ensures Canonical(c.globalShortcuts) ==> back.globalShortcuts == c.globalShortcuts
    ensures c.enable && Disabled !in c.shortcuts && Canonical(c.globalShortcuts) ==> back == c
  {
    form.SetCommand(c);
    back := form.GetCommand();
    ReencodeIffCanonical(c.globalShortcuts);
    if Disabled !in c.shortcuts {
      WithoutMarkerIdentity(c.shortcuts);
    }
  }
}
