/**
 * The Plugins menu of the main window: two fixed actions and a separator,
 * then one entry per plugin widget, rebuilt from the plugin manager's widget
 * list and updated as plugins are registered and unregistered.
 */
module Menus {
  import opened Common

  /** What triggering an action calls. */
  datatype Handler =
    | ShowInstallDialog
    | ShowErrorReporter
    | AddDockWidget(plugin: string, widget: string)
    | AddFunctionWidget(plugin: string, widget: string)

  /** A `QAction`: its text, whether it is checkable, and what it triggers. */
  datatype MenuAction = MenuAction(text: string, checkable: bool, handler: Handler)

  /** A top-level entry of the menu: an action, a separator, or a submenu with its actions. */
  datatype Entry = Item(action: MenuAction) | Separator | Submenu(title: string, actions: seq<MenuAction>)

  /** One result of `plugin_manager.iter_widgets()`: the hook type, the plugin and its widget names. */
  datatype WidgetGroup = WidgetGroup(hookType: string, plugin: string, widgets: seq<string>)

  /** The text of an entry's action: a separator's is empty, a submenu's is its title. */
  function EntryText(e: Entry): string {
    match e
    case Item(a) => a.text
    case Separator => ""
    case Submenu(title, _) => title
  }

  const InstallText: string := "Install/Uninstall Plugins..."

  const ErrorsText: string := "Plugin Errors..."

  /** The entries every build starts with. */
  const Fixed: seq<Entry> :=
    [Item(MenuAction(InstallText, false, ShowInstallDialog)), Item(MenuAction(ErrorsText, false, ShowErrorReporter)), Separator]

  /** The `_add_widget` closure: dock widgets for the `dock` hook, function widgets otherwise. */
  function WidgetHandler(hookType: string, plugin: string, widget: string): (h: Handler)
    ensures h.AddDockWidget? <==> hookType == "dock"
    ensures h.AddDockWidget? || h.AddFunctionWidget?
    ensures h.plugin == plugin && h.widget == widget
  {
    if hookType == "dock" then AddDockWidget(plugin, widget) else AddFunctionWidget(plugin, widget)
  }

  predicate HasActionText(acts: seq<MenuAction>, t: string) {
    exists i :: 0 <= i < |acts| && acts[i].text == t
  }

  predicate HasEntryText(es: seq<Entry>, t: string) {
    exists i :: 0 <= i < |es| && EntryText(es[i]) == t
  }

  /** The submenu's actions after adding the widgets `ws` of `g`, each under its bare name unless already there. */
  function SubActions(g: WidgetGroup, ws: seq<string>): seq<MenuAction> {
    if ws == [] then []
    else
      var acts, w := SubActions(g, ws[..|ws| - 1]), ws[|ws| - 1];
      if HasActionText(acts, w) then acts else acts + [MenuAction(w, true, WidgetHandler(g.hookType, g.plugin, w))]
  }

  /** The menu after adding the widgets `ws` of `g` at top level, under the template name unless already there. */
  function TopLevel(es: seq<Entry>, g: WidgetGroup, ws: seq<string>, template: (string, string) -> string): seq<Entry> {
    if ws == [] then es
    else
      var prev, w := TopLevel(es, g, ws[..|ws| - 1], template), ws[|ws| - 1];
      var t := template(g.plugin, w);
      if HasEntryText(prev, t) then prev else prev + [Item(MenuAction(t, true, WidgetHandler(g.hookType, g.plugin, w)))]
  }

  /** One iteration of the widget loop of `_build`: a submenu for several widgets, top-level items otherwise. */
  function AddGroup(es: seq<Entry>, g: WidgetGroup, template: (string, string) -> string): seq<Entry> {
    if |g.widgets| > 1 then es + [Submenu(g.plugin, SubActions(g, g.widgets))] else TopLevel(es, g, g.widgets, template)
  }

  function AddGroups(es: seq<Entry>, gs: seq<WidgetGroup>, template: (string, string) -> string): seq<Entry> {
    if gs == [] then es else AddGroup(AddGroups(es, gs[..|gs| - 1], template), gs[|gs| - 1], template)
  }

  /** The menu `_build` produces from the widget groups. */
  function Built(gs: seq<WidgetGroup>, template: (string, string) -> string): seq<Entry> {
    AddGroups(Fixed, gs, template)
  }

  /** The groups of plugin `value`, in order. */
  function Matching(gs: seq<WidgetGroup>, value: string): seq<WidgetGroup> {
    if gs == [] then []
    else Matching(gs[..|gs| - 1], value) + (if gs[|gs| - 1].plugin == value then [gs[|gs| - 1]] else [])
  }

  /** The entries `_remove_unregistered_widget` keeps: those whose text does not contain `value`. */
  function Kept(es: seq<Entry>, value: string): seq<Entry> {
    if es == [] then []
    else Kept(es[..|es| - 1], value) + (if Contains(EntryText(es[|es| - 1]), value) then [] else [es[|es| - 1]])
  }

  /** How many entries contain `value`. */
  function RemovedCount(es: seq<Entry>, value: string): nat {
    if es == [] then 0
    else RemovedCount(es[..|es| - 1], value) + (if Contains(EntryText(es[|es| - 1]), value) then 1 else 0)
  }

  /** `n` copies of `value`. */
  function Repeat(value: string, n: nat): seq<string> {
    if n == 0 then [] else Repeat(value, n - 1) + [value]
  }

  /**
   * No top-level item repeats the text of an earlier entry and no submenu
   * repeats an action text; submenu titles are not checked.
   */
  predicate NoDuplicateActions(es: seq<Entry>) {
    && (forall i, j :: 0 <= i < j < |es| && es[j].Item? ==> EntryText(es[i]) != EntryText(es[j]))
    && (forall k :: 0 <= k < |es| && es[k].Submenu? ==> DistinctTexts(es[k].actions))
  }

  predicate DistinctTexts(acts: seq<MenuAction>) {
    forall i, j :: 0 <= i < j < |acts| ==> acts[i].text != acts[j].text
  }

  /** Every widget action is checkable and triggers the widget of plugin `plugin` (any plugin when `plugin` is None). */
  predicate WidgetAction(a: MenuAction, plugin: Option<string>) {
    && a.checkable
    && (a.handler.AddDockWidget? || a.handler.AddFunctionWidget?)
    && (plugin.Some? ==> a.handler.plugin == plugin.value)
  }

  /** An entry created for a widget group (of `plugin`, when given). */
  predicate FromWidgets(e: Entry, plugin: Option<string>) {
    match e
    case Item(a) => WidgetAction(a, plugin)
    case Separator => false
    case Submenu(title, acts) =>
      && (plugin.Some? ==> title == plugin.value)
      && forall i :: 0 <= i < |acts| ==> WidgetAction(acts[i], plugin) && acts[i].handler.widget == acts[i].text
  }

  lemma {:induction false} SubActionsShape(g: WidgetGroup, ws: seq<string>)
    ensures DistinctTexts(SubActions(g, ws))
    ensures forall i :: 0 <= i < |SubActions(g, ws)| ==>
      var a := SubActions(g, ws)[i];
      a.text in ws && a == MenuAction(a.text, true, WidgetHandler(g.hookType, g.plugin, a.text))
    ensures forall w :: w in ws ==> HasActionText(SubActions(g, ws), w)
  {
    if ws != [] {
      var init := ws[..|ws| - 1];
      SubActionsShape(g, init);
      assert ws == init + [ws[|ws| - 1]];
      var acts := SubActions(g, init);
      assert acts <= SubActions(g, ws);
      forall w | w in ws
        ensures HasActionText(SubActions(g, ws), w)
      {
        if w in init {
          var i :| 0 <= i < |acts| && acts[i].text == w;
          assert SubActions(g, ws)[i].text == w;
        } else {
          assert w == ws[|ws| - 1];
          if !HasActionText(acts, w) {
            assert SubActions(g, ws)[|acts|].text == w;
          }
        }
      }
    }
  }

  /**
   * A group with several widgets adds one submenu titled with the plugin,
   * holding one checkable action per distinct bare widget name.
   */
  lemma MultiWidgetGroupIsSubmenu(es: seq<Entry>, g: WidgetGroup, template: (string, string) -> string)
    requires |g.widgets| > 1
    ensures var r := AddGroup(es, g, template);
      && |r| == |es| + 1 && r[..|es|] == es && r[|es|].Submenu? && r[|es|].title == g.plugin
      && DistinctTexts(r[|es|].actions)
      && (forall w :: w in g.widgets <==> HasActionText(r[|es|].actions, w))
      && (forall i :: 0 <= i < |r[|es|].actions| ==>
            r[|es|].actions[i] == MenuAction(r[|es|].actions[i].text, true, WidgetHandler(g.hookType, g.plugin, r[|es|].actions[i].text)))
  {
    SubActionsShape(g, g.widgets);
    var r := AddGroup(es, g, template);
    assert r[..|es|] == es;
  }

  /**
   * A group with one widget adds a single top-level checkable item named by
   * the template, unless some entry already has that text.
   */
  lemma SingleWidgetGroupIsItem(es: seq<Entry>, g: WidgetGroup, template: (string, string) -> string)
    requires |g.widgets| == 1
    ensures var t := template(g.plugin, g.widgets[0]);
      && (HasEntryText(es, t) ==> AddGroup(es, g, template) == es)
      && (!HasEntryText(es, t) ==>
            AddGroup(es, g, template) == es + [Item(MenuAction(t, true, WidgetHandler(g.hookType, g.plugin, g.widgets[0])))])
  {
    assert g.widgets[..0] == [];
    assert AddGroup(es, g, template) == TopLevel(es, g, g.widgets, template);
    assert TopLevel(es, g, g.widgets[..0], template) == es;
  }

  lemma {:induction false} TopLevelKeeps(es: seq<Entry>, g: WidgetGroup, ws: seq<string>, template: (string, string) -> string,
                                         plugin: Option<string>)
    requires NoDuplicateActions(es)
    requires plugin.Some? ==> g.plugin == plugin.value
    ensures var r := TopLevel(es, g, ws, template);
      && es <= r && NoDuplicateActions(r)
      && forall k :: |es| <= k < |r| ==> FromWidgets(r[k], plugin)
  {
    if ws != [] {
      TopLevelKeeps(es, g, ws[..|ws| - 1], template, plugin);
    }
  }

  /**
   * Adding a group only appends; the appended entries are widget entries of
   * the group's plugin; no top-level item repeats an earlier entry's text and
   * no submenu repeats an action text.
   */
  lemma AddGroupKeeps(es: seq<Entry>, g: WidgetGroup, template: (string, string) -> string, plugin: Option<string>)
    requires NoDuplicateActions(es)
    requires plugin.Some? ==> g.plugin == plugin.value
    ensures var r := AddGroup(es, g, template);
      && es <= r && NoDuplicateActions(r)
      && forall k :: |es| <= k < |r| ==> FromWidgets(r[k], plugin)
  {
    if |g.widgets| > 1 {
      SubActionsShape(g, g.widgets);
    } else {
      TopLevelKeeps(es, g, g.widgets, template, plugin);
    }
  }

  lemma {:induction false} AddGroupsKeeps(es: seq<Entry>, gs: seq<WidgetGroup>, template: (string, string) -> string,
                                          plugin: Option<string>)
    requires NoDuplicateActions(es)
    requires plugin.Some? ==> forall i :: 0 <= i < |gs| ==> gs[i].plugin == plugin.value
    ensures var r := AddGroups(es, gs, template);
      && es <= r && NoDuplicateActions(r)
      && forall k :: |es| <= k < |r| ==> FromWidgets(r[k], plugin)
  {
    if gs != [] {
      var init := gs[..|gs| - 1];
      AddGroupsKeeps(es, init, template, plugin);
      AddGroupKeeps(AddGroups(es, init, template), gs[|gs| - 1], template, plugin);
    }
  }

  /**
   * A built menu starts with the two fixed actions and the separator, holds
   * no two top-level actions with one text, and everything after the separator is a
   * checkable widget entry.
   */
  lemma BuiltShape(gs: seq<WidgetGroup>, template: (string, string) -> string)
    ensures var r := Built(gs, template);
      && Fixed <= r && NoDuplicateActions(r)
      && forall k :: 3 <= k < |r| ==> FromWidgets(r[k], None)
  {
    AddGroupsKeeps(Fixed, gs, template, None);
  }

  lemma {:induction false} MatchingOnly(gs: seq<WidgetGroup>, value: string)
    ensures forall i :: 0 <= i < |Matching(gs, value)| ==> Matching(gs, value)[i].plugin == value
    ensures (forall i :: 0 <= i < |gs| ==> gs[i].plugin != value) ==> Matching(gs, value) == []
  {
    if gs != [] {
      MatchingOnly(gs[..|gs| - 1], value);
    }
  }

  /**
   * `_add_registered_widget` only appends, and only entries of plugin
   * `value`; with no group of that plugin the menu is unchanged.
   */
  lemma AddRegisteredAppends(es: seq<Entry>, gs: seq<WidgetGroup>, value: string, template: (string, string) -> string)
    requires NoDuplicateActions(es)
    ensures var r := AddGroups(es, Matching(gs, value), template);
      && es <= r && NoDuplicateActions(r)
      && (forall k :: |es| <= k < |r| ==> FromWidgets(r[k], Some(value)))
      && ((forall i :: 0 <= i < |gs| ==> gs[i].plugin != value) ==> r == es)
  {
    MatchingOnly(gs, value);
    AddGroupsKeeps(es, Matching(gs, value), template, Some(value));
  }

  /** `_remove_unregistered_widget` keeps exactly the entries whose text does not contain `value`. */
  lemma {:induction false} KeptExactly(es: seq<Entry>, value: string)
    ensures forall e :: e in Kept(es, value) <==> e in es && !Contains(EntryText(e), value)
  {
    if es != [] {
      var init, e := es[..|es| - 1], es[|es| - 1];
      KeptExactly(init, value);
      assert es == init + [e];
    }
  }

  /** One removal is counted per entry that is not kept. */
  lemma {:induction false} KeptCount(es: seq<Entry>, value: string)
    ensures |Kept(es, value)| + RemovedCount(es, value) == |es|
  {
    if es != [] {
      KeptCount(es[..|es| - 1], value);
    }
  }

  /** A menu none of whose entries contains `value` is left as it is. */
  lemma {:induction false} KeptAll(es: seq<Entry>, value: string)
    requires forall i :: 0 <= i < |es| ==> !Contains(EntryText(es[i]), value)
    ensures Kept(es, value) == es
  {
    if es != [] {
      var init := es[..|es| - 1];
      KeptAll(init, value);
      assert es == init + [es[|es| - 1]];
    }
  }

  lemma {:induction false} KeptConcat(a: seq<Entry>, b: seq<Entry>, value: string)
    ensures Kept(a + b, value) == Kept(a, value) + Kept(b, value)
  {
    if b != [] {
      var init, e := b[..|b| - 1], b[|b| - 1];
      KeptConcat(a, init, value);
      assert (a + b)[..|a + b| - 1] == a + init;
    } else {
      assert a + b == a;
    }
  }

  /** Appending an item whose text is new, or a submenu whose actions do not repeat, keeps `NoDuplicateActions`. */
  lemma NoDuplicatesAppend(p: seq<Entry>, e: Entry)
    requires NoDuplicateActions(p)
    requires e.Item? ==> forall x :: x in p ==> EntryText(x) != EntryText(e)
    requires e.Submenu? ==> DistinctTexts(e.actions)
    ensures NoDuplicateActions(p + [e])
  {
    var r := p + [e];
    forall i, j | 0 <= i < j < |r| && r[j].Item?
      ensures EntryText(r[i]) != EntryText(r[j])
    {
      if j == |p| {
        assert r[i] in p;
      } else {
        assert r[i] == p[i] && r[j] == p[j];
      }
    }
  }

  /** Removal keeps `NoDuplicateActions`. */
  lemma {:induction false} KeptKeepsInvariants(es: seq<Entry>, value: string)
    requires NoDuplicateActions(es)
    ensures NoDuplicateActions(Kept(es, value))
  {
    if es != [] {
      var init, e := es[..|es| - 1], es[|es| - 1];
      assert NoDuplicateActions(init) by {
        assert forall i :: 0 <= i < |init| ==> init[i] == es[i];
      }
      KeptKeepsInvariants(init, value);
      if !Contains(EntryText(e), value) {
        var p := Kept(init, value);
        KeptExactly(init, value);
        if e.Item? {
          forall x | x in p
            ensures EntryText(x) != EntryText(e)
          {
            var i :| 0 <= i < |init| && init[i] == x;
            assert es[i] == x;
          }
        }
        NoDuplicatesAppend(p, e);
      }
    }
  }

  /** The menu before and after the `i`-th listed action is visited. */
  lemma VisitStep(snapshot: seq<Entry>, i: nat, value: string)
    requires i < |snapshot|
    ensures var before, k := Kept(snapshot[..i], value) + snapshot[i..], |Kept(snapshot[..i], value)|;
      && k < |before|
      && (Contains(EntryText(snapshot[i]), value) ==>
            && before[..k] + before[k + 1..] == Kept(snapshot[..i + 1], value) + snapshot[i + 1..]
            && RemovedCount(snapshot[..i + 1], value) == RemovedCount(snapshot[..i], value) + 1)
      && (!Contains(EntryText(snapshot[i]), value) ==>
            && before == Kept(snapshot[..i + 1], value) + snapshot[i + 1..]
            && RemovedCount(snapshot[..i + 1], value) == RemovedCount(snapshot[..i], value))
  {
    SplitAt(snapshot, i);
    KeptStep(snapshot, i, value);
    if Contains(EntryText(snapshot[i]), value) {
      DropAt(Kept(snapshot[..i], value), snapshot[i], snapshot[i + 1..]);
    }
  }

  lemma DropAt(a: seq<Entry>, x: Entry, b: seq<Entry>)
    ensures var s := a + [x] + b; s[..|a|] + s[|a| + 1..] == a + b
  {
    var s := a + [x] + b;
    assert s[..|a|] == a;
    assert s[|a| + 1..] == b;
  }

  lemma SplitAt(s: seq<Entry>, i: nat)
    requires i < |s|
    ensures s[i..] == [s[i]] + s[i + 1..]
  {
  }

  /** One more entry of `s` either is kept or counts as one more removal. */
  lemma KeptStep(s: seq<Entry>, i: nat, value: string)
    requires i < |s|
    ensures Contains(EntryText(s[i]), value) ==>
      Kept(s[..i + 1], value) == Kept(s[..i], value) && RemovedCount(s[..i + 1], value) == RemovedCount(s[..i], value) + 1
    ensures !Contains(EntryText(s[i]), value) ==>
      Kept(s[..i + 1], value) == Kept(s[..i], value) + [s[i]] && RemovedCount(s[..i + 1], value) == RemovedCount(s[..i], value)
  {
    assert s[..i + 1][..i] == s[..i];
    assert Kept(s[..i], value) + [] == Kept(s[..i], value);
  }

  /** The `PluginsMenu`: its entries, and the dock-widget removals it has asked the window for. */
  class PluginsMenu {
    var entries: seq<Entry>
    /** The event values `_remove_dock_widget` was called with, in order. */
    var removedDocks: seq<string>

    ghost predicate Valid()
      reads this
    {
      NoDuplicateActions(entries)
    }

    /** `__init__`: build from the widget groups the plugin manager discovered. */
    constructor (gs: seq<WidgetGroup>, template: (string, string) -> string)
      ensures Valid() && entries == Built(gs, template) && removedDocks == []
    {
      entries := [];
      removedDocks := [];
      new;
      Build(gs, template);
    }

    /** `_build`: clear the menu, add the fixed entries, then one iteration per widget group. */
    method Build(gs: seq<WidgetGroup>, template: (string, string) -> string)
      modifies this`entries
      ensures Valid() && entries == Built(gs, template)
    {
      entries := [];
      entries := entries + [Item(MenuAction(InstallText, false, ShowInstallDialog))];
      entries := entries + [Item(MenuAction(ErrorsText, false, ShowErrorReporter))];
      entries := entries + [Separator];
      var i := 0;
      while i < |gs|
        invariant 0 <= i <= |gs|
        invariant entries == AddGroups(Fixed, gs[..i], template)
      {
        assert gs[..i + 1][..i] == gs[..i];
        AddWidgetGroup(gs[i], template);
        i := i + 1;
      }
      assert gs[..i] == gs;
      BuiltShape(gs, template);
    }

    /** The body of the widget loop shared by `_build` and `_add_registered_widget`. */
    method AddWidgetGroup(g: WidgetGroup, template: (string, string) -> string)
      modifies this`entries
      ensures entries == AddGroup(old(entries), g, template)
    {
      if |g.widgets| > 1 {
        var sub: seq<MenuAction> := [];
        var j := 0;
        while j < |g.widgets|
          invariant 0 <= j <= |g.widgets|
          invariant sub == SubActions(g, g.widgets[..j])
        {
          assert g.widgets[..j + 1][..j] == g.widgets[..j];
          var w := g.widgets[j];
          var action := MenuAction(w, true, WidgetHandler(g.hookType, g.plugin, w));
          if !HasActionText(sub, action.text) {
            sub := sub + [action];
          }
          j := j + 1;
        }
        assert g.widgets[..j] == g.widgets;
        entries := entries + [Submenu(g.plugin, sub)];
      } else {
        var j := 0;
        while j < |g.widgets|
          invariant 0 <= j <= |g.widgets|
          invariant entries == TopLevel(old(entries), g, g.widgets[..j], template)
        {
          assert g.widgets[..j + 1][..j] == g.widgets[..j];
          var w := g.widgets[j];
          var action := MenuAction(template(g.plugin, w), true, WidgetHandler(g.hookType, g.plugin, w));
          if !HasEntryText(entries, action.text) {
            entries := entries + [Item(action)];
          }
          j := j + 1;
        }
        assert g.widgets[..j] == g.widgets;
      }
    }

    /** `_add_registered_widget`: the widget loop over the groups of plugin `value` only. */
    method AddRegistered(value: string, gs: seq<WidgetGroup>, template: (string, string) -> string)
      requires Valid()
      modifies this`entries
      ensures Valid()
      ensures entries == AddGroups(old(entries), Matching(gs, value), template)
    {
      var i := 0;
      while i < |gs|
        invariant 0 <= i <= |gs|
        invariant entries == AddGroups(old(entries), Matching(gs[..i], value), template)
      {
        assert gs[..i + 1][..i] == gs[..i];
        if gs[i].plugin == value {
          ghost var m := Matching(gs[..i], value);
          assert Matching(gs[..i + 1], value) == m + [gs[i]];
          assert (m + [gs[i]])[..|m|] == m;
          AddWidgetGroup(gs[i], template);
        } else {
          assert Matching(gs[..i + 1], value) == Matching(gs[..i], value) + [] == Matching(gs[..i], value);
        }
        i := i + 1;
      }
      assert gs[..i] == gs;
      AddRegisteredAppends(old(entries), gs, value, template);
    }

    /**
     * One iteration of `_remove_unregistered_widget`'s loop over the actions
     * it listed first: the `i`-th of them is removed, and its dock widget
     * asked for, when its text contains `value`.
     */
    method VisitAction(snapshot: seq<Entry>, i: nat, value: string, ghost docs0: seq<string>)
      requires i < |snapshot|
      requires entries == Kept(snapshot[..i], value) + snapshot[i..]
      requires removedDocks == docs0 + Repeat(value, RemovedCount(snapshot[..i], value))
      modifies this`entries, this`removedDocks
      ensures entries == Kept(snapshot[..i + 1], value) + snapshot[i + 1..]
      ensures removedDocks == docs0 + Repeat(value, RemovedCount(snapshot[..i + 1], value))
    {
      VisitStep(snapshot, i, value);
      if Contains(EntryText(snapshot[i]), value) {
        var k := |Kept(snapshot[..i], value)|;
        entries := entries[..k] + entries[k + 1..];
        removedDocks := removedDocks + [value];
      }
    }

    /** `_remove_unregistered_widget`: drop each entry whose text contains `value`, asking the window to remove its dock widget. */
    method RemoveUnregistered(value: string)
      requires Valid()
      modifies this
      ensures Valid()
      ensures entries == Kept(old(entries), value)
      ensures removedDocks == old(removedDocks) + Repeat(value, RemovedCount(old(entries), value))
    {
      var snapshot := entries;
      var i := 0;
      while i < |snapshot|
        invariant 0 <= i <= |snapshot|
        invariant entries == Kept(snapshot[..i], value) + snapshot[i..]
        invariant removedDocks == old(removedDocks) + Repeat(value, RemovedCount(snapshot[..i], value))
      {
        VisitAction(snapshot, i, value, old(removedDocks));
        i := i + 1;
      }
      assert snapshot[..i] == snapshot;
      KeptKeepsInvariants(snapshot, value);
    }
  }
}
