/**
 * The parts of Synfig Studio's main window that are logic rather than GTK
 * plumbing: escaping underscores in menu labels, naming the actions of the
 * "Open Recent" menu, the menu descriptions built for them, and the toolbar
 * and menubar visibility toggles.
 */
module StudioMainWindow {
  import opened Wrappers

  /** `std::string::find(c, from)`: the first index at or after `from` that holds `c`. */
  function Find(s: string, c: char, from: nat): (r: Option<nat>)
    ensures r.Some? ==> from <= r.value < |s| && s[r.value] == c
    ensures r.Some? ==> forall k :: from <= k < r.value ==> s[k] != c
    ensures r.None? ==> forall k :: from <= k < |s| ==> s[k] != c
    decreases |s| - from
  {
    if from >= |s| then None
    else if s[from] == c then Some(from)
    else Find(s, c, from + 1)
  }

  /** The number of times `c` occurs in `s`. */
  function Count(s: string, c: char): nat
  {
    if s == [] then 0 else (if s[0] == c then 1 else 0) + Count(s[1..], c)
  }

  /** A menu label that shows `s` literally: every underscore doubled, everything else kept in order. */
  function Quoted(s: string): string
  {
    if s == [] then [] else (if s[0] == '_' then "__" else [s[0]]) + Quoted(s[1..])
  }

  /**
   * The text GTK shows for a menu label with mnemonics: a doubled underscore
   * shows one underscore, a single underscore marks the next character as the
   * mnemonic and is not shown.
   */
  function Displayed(text: string): string
  {
    if |text| >= 2 && text[0] == '_' && text[1] == '_' then "_" + Displayed(text[2..])
    else if |text| >= 2 && text[0] == '_' then [text[1]] + Displayed(text[2..])
    else if text == [] then []
    else [text[0]] + Displayed(text[1..])
  }

  lemma {:induction false} QuotedLength(s: string)
    ensures |Quoted(s)| == |s| + Count(s, '_')
  {
    if s != [] {
      QuotedLength(s[1..]);
    }
  }

  lemma {:induction false} QuotedWithoutUnderscore(s: string)
    requires forall k :: 0 <= k < |s| ==> s[k] != '_'
    ensures Quoted(s) == s
  {
    if s != [] {
      QuotedWithoutUnderscore(s[1..]);
    }
  }

  lemma {:induction false} QuotedAppend(a: string, b: string)
    ensures Quoted(a + b) == Quoted(a) + Quoted(b)
  {
    if a == [] {
      assert a + b == b;
    } else {
      assert (a + b)[0] == a[0] && (a + b)[1..] == a[1..] + b;
      QuotedAppend(a[1..], b);
    }
  }

  /** The quoted label shows exactly the original name in the menu. */
  lemma {:induction false} DisplayedQuoted(s: string)
    ensures Displayed(Quoted(s)) == s
  {
    if s != [] {
      DisplayedQuoted(s[1..]);
      var head := if s[0] == '_' then "__" else [s[0]];
      var q := Quoted(s);
      assert q == head + Quoted(s[1..]);
      if s[0] == '_' {
        assert q[0] == '_' && q[1] == '_' && q[2..] == Quoted(s[1..]);
      } else {
        assert q[0] == s[0] && q[1..] == Quoted(s[1..]);
      }
    }
  }

  /** Different names never get the same label. */
  lemma QuotedInjective(a: string, b: string)
    requires Quoted(a) == Quoted(b)
    ensures a == b
  {
    DisplayedQuoted(a);
    DisplayedQuoted(b);
  }

  /** Mnemonic rendering never lengthens a label. */
  lemma {:induction false} DisplayedNoLonger(text: string)
    ensures |Displayed(text)| <= |text|
    decreases |text|
  {
    if |text| >= 2 && text[0] == '_' {
      DisplayedNoLonger(text[2..]);
    } else if text != [] {
      DisplayedNoLonger(text[1..]);
    }
  }

  /**
   * Without the quoting, a name with an underscore anywhere before its last
   * character is not shown as it is: the underscore is taken as a mnemonic
   * marker (or pairs with the one before it), and the label shown is shorter.
   */
  lemma {:induction false} UnquotedNameLosesUnderscore(s: string, i: nat)
    requires i < |s| - 1 && s[i] == '_'
    ensures |Displayed(s)| < |s|
    ensures Displayed(s) != s
    decreases |s|
  {
    if s[0] == '_' {
      DisplayedNoLonger(s[2..]);
    } else {
      assert s[1..][i - 1] == '_';
      UnquotedNameLosesUnderscore(s[1..], i - 1);
    }
  }

  /**
   * The underscore-escaping loop shared by `on_recent_files_changed` and
   * `on_dockable_registered`: copy up to and including each underscore found,
   * add a second underscore, then copy the rest.
   */
  method QuoteUnderscores(raw: string) returns (quoted: string)
    ensures quoted == Quoted(raw)
  {
    quoted := "";
    var pos: nat := 0;
    var lastPos: nat := 0;
    var found := Find(raw, '_', pos);
    while found.Some?
      invariant lastPos == pos <= |raw|
      invariant found == Find(raw, '_', pos)
      invariant quoted == Quoted(raw[..lastPos])
      decreases |raw| - pos
    {
      var at := found.value;
      QuoteThroughUnderscore(raw, lastPos, at);
      pos := at + 1;
      quoted := quoted + raw[lastPos..pos] + "_";
      lastPos := pos;
      found := Find(raw, '_', pos);
    }
    QuoteRest(raw, lastPos);
    quoted := quoted + raw[lastPos..];
  }

  /** One turn of the quoting loop: the text up to the next underscore, that underscore, and one more. */
  lemma QuoteThroughUnderscore(raw: string, lastPos: nat, at: nat)
    requires lastPos <= at < |raw| && raw[at] == '_'
    requires forall k :: lastPos <= k < at ==> raw[k] != '_'
    ensures Quoted(raw[..at + 1]) == Quoted(raw[..lastPos]) + raw[lastPos..at + 1] + "_"
  {
    var plain := raw[lastPos..at];
    assert raw[..at + 1] == raw[..lastPos] + plain + "_";
    QuotedAppend(raw[..lastPos] + plain, "_");
    QuotedAppend(raw[..lastPos], plain);
    QuotedWithoutUnderscore(plain);
    assert raw[lastPos..at + 1] == plain + "_";
  }

  /** After the last underscore the rest of the text is copied as it is. */
  lemma QuoteRest(raw: string, lastPos: nat)
    requires lastPos <= |raw|
    requires forall k :: lastPos <= k < |raw| ==> raw[k] != '_'
    ensures Quoted(raw) == Quoted(raw[..lastPos]) + raw[lastPos..]
  {
    var done, rest := raw[..lastPos], raw[lastPos..];
    assert done + rest == raw;
    QuotedWithoutUnderscore(rest);
    assert Quoted(rest) == rest;
    QuotedAppend(done, rest);
    assert Quoted(done + rest) == Quoted(done) + Quoted(rest);
  }

  /** A decimal digit as a character. */
  function DigitChar(d: nat): char
    requires d < 10
  {
    "0123456789"[d]
  }

  /** The value of a decimal digit character. */
  function DigitValue(c: char): nat
  {
    if '0' <= c <= '9' then (c as int - '0' as int) as nat else 0
  }

  /** `%d` for a non-negative integer: its decimal digits, most significant first, without leading zeros. */
  function DecimalString(n: nat): (s: string)
    ensures |s| > 0
    ensures forall k :: 0 <= k < |s| ==> '0' <= s[k] <= '9'
    ensures s[0] == '0' <==> n == 0
    ensures |s| > 1 ==> s[0] != '0'
  {
    if n < 10 then [DigitChar(n)] else DecimalString(n / 10) + [DigitChar(n % 10)]
  }

  /** Reads a string of decimal digits back as a number. */
  function ParseDecimal(s: string): nat
  {
    if s == [] then 0 else ParseDecimal(s[..|s| - 1]) * 10 + DigitValue(s[|s| - 1])
  }

  lemma {:induction false} ParseDecimalString(n: nat)
    ensures ParseDecimal(DecimalString(n)) == n
  {
    var s := DecimalString(n);
    if n < 10 {
      assert s[..|s| - 1] == [];
    } else {
      ParseDecimalString(n / 10);
      assert s[..|s| - 1] == DecimalString(n / 10);
      assert DigitValue(DigitChar(n % 10)) == n % 10;
    }
  }

  const RecentPrefix: string := "file-recent-"

  /** The action name given to the `index`-th recent file. */
  function RecentActionName(index: nat): string
  {
    RecentPrefix + DecimalString(index)
  }

  /** Two recent files never share an action name. */
  lemma RecentActionNamesDistinct(i: nat, j: nat)
    requires i != j
    ensures RecentActionName(i) != RecentActionName(j)
  {
    ParseDecimalString(i);
    ParseDecimalString(j);
    assert RecentActionName(i)[|RecentPrefix|..] == DecimalString(i);
    assert RecentActionName(j)[|RecentPrefix|..] == DecimalString(j);
  }

  /** A menu action: its name, its caption and the file it opens. */
  datatype RecentAction = RecentAction(name: string, caption: string, path: string)

  function MenuItem(actionName: string): string
  {
    "<menuitem action='" + actionName + "' />"
  }

  /** The menu items of `actions`, in order. */
  function MenuItems(actions: seq<RecentAction>): string
  {
    if actions == [] then "" else MenuItems(actions[..|actions| - 1]) + MenuItem(actions[|actions| - 1].name)
  }

  function PopupUi(info: string): string
  {
    "<ui><popup action='menu-main'>" + info + "</popup></ui>"
  }

  function MenubarUi(info: string): string
  {
    "<ui><menubar action='menubar-main'>" + info + "</menubar></ui>"
  }

  function RecentMenuInfo(menuItems: string): string
  {
    "<menu action='menu-file'><menu action='menu-open-recent'>" + menuItems + "</menu></menu>"
  }

  /**
   * `on_recent_files_changed`: one action per recent file, in list order,
   * named `file-recent-<index>` and labelled with the file's quoted base name,
   * and the popup and menubar descriptions listing them.
   */
  method OnRecentFilesChanged(recentFiles: seq<string>, basename: string -> string)
    returns (actions: seq<RecentAction>, uiPopup: string, uiMenubar: string)
    ensures |actions| == |recentFiles|
    ensures forall k :: 0 <= k < |actions| ==>
              actions[k] == RecentAction(RecentActionName(k), Quoted(basename(recentFiles[k])), recentFiles[k])
    ensures uiPopup == PopupUi(RecentMenuInfo(MenuItems(actions)))
    ensures uiMenubar == MenubarUi(RecentMenuInfo(MenuItems(actions)))
  {
    var index: nat := 0;
    var menuItems := "";
    actions := [];
    while index < |recentFiles|
      invariant index <= |recentFiles| && |actions| == index
      invariant forall k :: 0 <= k < index ==>
                  actions[k] == RecentAction(RecentActionName(k), Quoted(basename(recentFiles[k])), recentFiles[k])
      invariant menuItems == MenuItems(actions)
    {
      var path := recentFiles[index];
      var quoted := QuoteUnderscores(basename(path));
      var actionName := RecentActionName(index);
      index := index + 1;
      menuItems := menuItems + MenuItem(actionName);
      ghost var before := actions;
      actions := actions + [RecentAction(actionName, quoted, path)];
      assert actions[..|actions| - 1] == before;
    }
    var uiInfo := RecentMenuInfo(menuItems);
    uiPopup := PopupUi(uiInfo);
    uiMenubar := MenubarUi(uiInfo);
  }

  function WindowMenuInfo(actionName: string): string
  {
    "<menu action='menu-window'>" + MenuItem(actionName) + "</menu>"
  }

  /** A "Window" menu action: its name and its caption. */
  datatype PanelAction = PanelAction(name: string, caption: string)

  /**
   * `on_dockable_registered`: the "Window" menu action of a panel, named
   * after the panel and labelled with its quoted local name, and the popup
   * and menubar descriptions holding it.
   */
  method OnDockableRegistered(name: string, localName: string)
    returns (action: PanelAction, uiPopup: string, uiMenubar: string)
    ensures action.name == "panel-" + name
    ensures action.caption == Quoted(localName)
    ensures uiPopup == PopupUi(WindowMenuInfo(action.name))
    ensures uiMenubar == MenubarUi(WindowMenuInfo(action.name))
  {
    var quoted := QuoteUnderscores(localName);
    action := PanelAction("panel-" + name, quoted);
    var uiInfo := WindowMenuInfo("panel-" + name);
    uiPopup := PopupUi(uiInfo);
    uiMenubar := MenubarUi(uiInfo);
  }

  /** The application-wide settings the main window reads and writes (`App::enable_mainwin_*`). */
  class AppSettings {
    var enableMainwinToolbar: bool
    var enableMainwinMenubar: bool

    constructor (toolbar: bool, menubar: bool)
      ensures enableMainwinToolbar == toolbar && enableMainwinMenubar == menubar
    {
      enableMainwinToolbar := toolbar;
      enableMainwinMenubar := menubar;
    }
  }

  /** The main window's own visibility flags and the visibility of its two bars. */
  class MainWindow {
    const app: AppSettings
    var togglingShowToolbar: bool
    var togglingShowMenubar: bool
    var toolbarShown: bool
    var menubarShown: bool

    /**
     * The flags start from the application settings, and a bar that the
     * settings disable is hidden; the bars are taken to start visible.
     */
    constructor (app: AppSettings)
      ensures this.app == app
      ensures togglingShowMenubar == app.enableMainwinMenubar && togglingShowToolbar == app.enableMainwinToolbar
      ensures menubarShown == app.enableMainwinMenubar && toolbarShown == app.enableMainwinToolbar
    {
      this.app := app;
      togglingShowMenubar := app.enableMainwinMenubar;
      togglingShowToolbar := app.enableMainwinToolbar;
      menubarShown := true;
      toolbarShown := true;
      new;
      if !app.enableMainwinMenubar { menubarShown := false; }
      if !app.enableMainwinToolbar { toolbarShown := false; }
    }

    /** `toggle_show_toolbar`: flip the toolbar and record the new setting; twice restores the flag. */
    method ToggleShowToolbar()
      modifies this, app
      ensures togglingShowToolbar == !old(togglingShowToolbar)
      ensures toolbarShown == togglingShowToolbar && app.enableMainwinToolbar == togglingShowToolbar
      ensures togglingShowMenubar == old(togglingShowMenubar) && menubarShown == old(menubarShown)
      ensures app.enableMainwinMenubar == old(app.enableMainwinMenubar)
    {
      if togglingShowToolbar {
        toolbarShown := false;
        togglingShowToolbar := false;
      } else {
        toolbarShown := true;
        togglingShowToolbar := true;
      }
      app.enableMainwinToolbar := togglingShowToolbar;
    }

    /** `toggle_show_menubar`: flip the menubar and record the new setting; twice restores the flag. */
    method ToggleShowMenubar()
      modifies this, app
      ensures togglingShowMenubar == !old(togglingShowMenubar)
      ensures menubarShown == togglingShowMenubar && app.enableMainwinMenubar == togglingShowMenubar
      ensures togglingShowToolbar == old(togglingShowToolbar) && toolbarShown == old(toolbarShown)
      ensures app.enableMainwinToolbar == old(app.enableMainwinToolbar)
    {
      if togglingShowMenubar {
        menubarShown := false;
        togglingShowMenubar := false;
      } else {
        menubarShown := true;
        togglingShowMenubar := true;
      }
      app.enableMainwinMenubar := togglingShowMenubar;
    }
  }
}
