/**
 * The plugin dialog's list bookkeeping: the installed and available plugin
 * lists, tagging outdated items, filtering, rebuilding the installed list
 * from the plugin manager, and installing what the user typed.
 */
module PluginDialog {
  import opened Common
  import opened PluginInstall

  /** A parsed version: its release numbers, compared as `parse_version` does for plain releases. */
  type Version = seq<nat>

  /** The first release number, a missing one read as `0`. */
  function Head(a: Version): nat {
    if a == [] then 0 else a[0]
  }

  /** The release numbers after the first. */
  function Tail(a: Version): Version {
    if a == [] then [] else a[1..]
  }

  /**
   * Release numbers compared position by position, the shorter one padded
   * with zeros: `1.0` and `1.0.0` are the same version.
   */
  predicate VersionLess(a: Version, b: Version)
    decreases |a| + |b|
  {
    if a == [] && b == [] then false
    else if Head(a) != Head(b) then Head(a) < Head(b)
    else VersionLess(Tail(a), Tail(b))
  }

  /** The two versions agree at every position once padded with zeros. */
  predicate VersionSame(a: Version, b: Version)
    decreases |a| + |b|
  {
    if a == [] && b == [] then true
    else Head(a) == Head(b) && VersionSame(Tail(a), Tail(b))
  }

  lemma {:induction false} VersionLessIrreflexive(a: Version)
    ensures !VersionLess(a, a)
    decreases |a|
  {
    if a != [] {
      VersionLessIrreflexive(Tail(a));
    }
  }

  lemma {:induction false} VersionLessTransitive(a: Version, b: Version, c: Version)
    requires VersionLess(a, b) && VersionLess(b, c)
    ensures VersionLess(a, c)
    decreases |a| + |b| + |c|
  {
    if Head(a) == Head(b) && Head(b) == Head(c) {
      VersionLessTransitive(Tail(a), Tail(b), Tail(c));
    }
  }

  /** Any two versions are the same up to trailing zeros or ordered one way or the other, and only one of these. */
  lemma {:induction false} VersionLessTotal(a: Version, b: Version)
    ensures VersionSame(a, b) || VersionLess(a, b) || VersionLess(b, a)
    ensures VersionSame(a, b) ==> !VersionLess(a, b) && !VersionLess(b, a)
    ensures !(VersionLess(a, b) && VersionLess(b, a))
    decreases |a| + |b|
  {
    if !(a == [] && b == []) && Head(a) == Head(b) {
      VersionLessTotal(Tail(a), Tail(b));
    }
  }

  /** Trailing zeros do not change a version; versions of one length are the same only when equal. */
  lemma {:induction false} VersionSameTrailingZero(a: Version, b: Version)
    ensures VersionSame(a, a + [0])
    ensures |a| == |b| ==> (VersionSame(a, b) <==> a == b)
    decreases |a|
  {
    if a == [] {
      assert Tail([0]) == [];
    } else {
      assert Tail(a + [0]) == Tail(a) + [0];
      if |a| == |b| {
        assert a == [Head(a)] + Tail(a) && b == [Head(b)] + Tail(b);
      }
      VersionSameTrailingZero(Tail(a), Tail(b));
    }
  }

  /** `ProjectInfo`: a package's name, version, url, summary, author and license. */
  datatype ProjectInfo = ProjectInfo(name: string, version: Version, url: string, summary: string, author: string,
                                     license: string)

  /** The metadata of a plugin without a distribution: every field empty. */
  const EmptyInfo: ProjectInfo := ProjectInfo("", [], "", "", "", "")

  /**
   * One list row: its searchable text, version, the install state and
   * enabled box of its widget, whether it is hidden, and the version its
   * update button offers once the item is tagged outdated.
   */
  datatype ListItem = ListItem(text: string, version: Version, installed: bool, enabled: bool, hidden: bool,
                               update: Option<Version>)

  /** A character as Qt's case-insensitive matching sees it: an ASCII capital read as its small letter. */
  function LowerChar(c: char): char {
    if 'A' <= c <= 'Z' then (c as int - 'A' as int + 'a' as int) as char else c
  }

  /** A string as Qt's case-insensitive matching sees it. */
  function Folded(s: string): (r: string)
    ensures |r| == |s|
  {
    seq(|s|, i requires 0 <= i < |s| => LowerChar(s[i]))
  }

  /** Folding keeps everything but capitals, leaves no capital behind and is idempotent. */
  lemma FoldedFacts(s: string)
    ensures forall i :: 0 <= i < |s| && !('A' <= s[i] <= 'Z') ==> Folded(s)[i] == s[i]
    ensures forall i :: 0 <= i < |s| ==> !('A' <= Folded(s)[i] <= 'Z')
    ensures Folded(Folded(s)) == Folded(s)
  {
  }

  /** Folding commutes with slicing and concatenation. */
  lemma FoldedSlices(s: string, t: string, k: nat)
    requires k <= |s|
    ensures Folded(s)[..k] == Folded(s[..k]) && Folded(s)[k..] == Folded(s[k..])
    ensures Folded(s + t) == Folded(s) + Folded(t)
  {
  }

  /** `findItems(name, Qt.MatchFixedString)` finds something: a row whose text is `s` up to case. */
  predicate HasText(items: seq<ListItem>, s: string) {
    exists i :: 0 <= i < |items| && Folded(items[i].text) == Folded(s)
  }

  /** The row `addItem` creates: name and summary are searchable together. */
  function NewItem(info: ProjectInfo, installed: bool, enabled: bool): ListItem {
    ListItem(info.name + " " + info.summary, info.version, installed, enabled, false, None)
  }

  /** The list after `addItem`; `pluginName` is `""` when the source passes none. */
  function WithItem(items: seq<ListItem>, info: ProjectInfo, installed: bool, pluginName: string, enabled: bool): (r: seq<ListItem>)
    ensures items <= r && |r| <= |items| + 1
    ensures r == items <==> HasText(items, info.name) && pluginName == ""
    ensures r != items ==> r == items + [NewItem(info, installed, enabled)]
  {
    if HasText(items, info.name) && pluginName == "" then items else items + [NewItem(info, installed, enabled)]
  }

  /**
   * The duplicate check compares the bare name with texts that also hold the
   * summary, so it misses the project's own row: adding the same project
   * twice lists it twice.
   */
  lemma DuplicateCheckMissesOwnItem(items: seq<ListItem>, info: ProjectInfo, installed: bool, enabled: bool)
    requires !HasText(items, info.name)
    ensures WithItem(WithItem(items, info, installed, "", enabled), info, installed, "", enabled)
            == items + [NewItem(info, installed, enabled), NewItem(info, installed, enabled)]
  {
    var once := items + [NewItem(info, installed, enabled)];
    assert !HasText(once, info.name) by {
      assert |Folded(once[|items|].text)| > |Folded(info.name)|;
    }
  }

  /** A fresh row is found by `tag_outdated` for its name and shown by `filter` for its summary. */
  lemma NewItemIsFound(info: ProjectInfo, installed: bool, enabled: bool)
    ensures StartsWith(Folded(NewItem(info, installed, enabled).text), Folded(info.name))
    ensures Contains(Folded(NewItem(info, installed, enabled).text), Folded(info.summary))
    ensures Contains(Folded(NewItem(info, installed, enabled).text), Folded(info.name))
  {
    var t := NewItem(info, installed, enabled).text;
    assert t[..|info.name|] == info.name;
    assert t[|info.name| + 1..] == info.summary;
    FoldedSlices(t, "", |info.name|);
    FoldedSlices(t, "", |info.name| + 1);
    SuffixIsContained(Folded(t), |info.name| + 1, Folded(info.summary));
  }

  /** A string contains every one of its suffixes. */
  lemma {:induction false} SuffixIsContained(s: string, k: nat, sub: string)
    requires k <= |s| && s[k..] == sub
    ensures Contains(s, sub)
    decreases k
  {
    if k == 0 {
      assert s[..|sub|] == sub;
    } else {
      assert s[1..][k - 1..] == sub;
      SuffixIsContained(s[1..], k - 1, sub);
    }
  }

  /** `tag_outdated` tags `item`: found by name up to case, strictly older, and not tagged yet. */
  predicate Tags(item: ListItem, info: ProjectInfo) {
    StartsWith(Folded(item.text), Folded(info.name)) && VersionLess(item.version, info.version) && item.update.None?
  }

  /** What `tag_outdated` does to one row. */
  function Tagged(item: ListItem, info: ProjectInfo): (r: ListItem)
    ensures r.(update := item.update) == item
    ensures r != item ==> item.update.None? && r.update == Some(info.version)
    ensures Tags(item, info) ==> r == item.(update := Some(info.version))
  {
    if Tags(item, info)
    then item.(update := Some(info.version))
    else item
  }

  function TagAll(items: seq<ListItem>, info: ProjectInfo): (r: seq<ListItem>)
    ensures |r| == |items|
  {
    seq(|items|, i requires 0 <= i < |items| => Tagged(items[i], info))
  }

  /**
   * Exactly the untagged rows matching the name whose version is strictly
   * older are tagged, with the latest version; rows already tagged keep
   * their tag.
   */
  lemma TagOnlyOlder(items: seq<ListItem>, info: ProjectInfo)
    ensures forall i :: 0 <= i < |items| && TagAll(items, info)[i] != items[i] ==>
      && StartsWith(Folded(items[i].text), Folded(info.name))
      && VersionLess(items[i].version, info.version)
      && items[i].update == None
      && TagAll(items, info)[i] == items[i].(update := Some(info.version))
    ensures forall i :: 0 <= i < |items| && Tags(items[i], info) ==> TagAll(items, info)[i] == items[i].(update := Some(info.version))
    ensures forall i :: 0 <= i < |items| && items[i].update.Some? ==> TagAll(items, info)[i] == items[i]
    ensures forall i :: 0 <= i < |items| && !VersionLess(items[i].version, info.version) ==> TagAll(items, info)[i] == items[i]
    ensures forall i :: 0 <= i < |items| && VersionSame(items[i].version, info.version) ==> TagAll(items, info)[i] == items[i]
  {
    forall i | 0 <= i < |items| && VersionSame(items[i].version, info.version)
      ensures TagAll(items, info)[i] == items[i]
    {
      VersionLessTotal(items[i].version, info.version);
    }
  }

  /** Tagging twice with the same project is tagging once. */
  lemma TagIdempotent(items: seq<ListItem>, info: ProjectInfo)
    ensures TagAll(TagAll(items, info), info) == TagAll(items, info)
  {
  }

  /** `findItems(text, Qt.MatchContains)` finds `item`: its text contains `text` up to case. */
  predicate Matches(item: ListItem, text: string) {
    Contains(Folded(item.text), Folded(text))
  }

  /**
   * Matching ignores case on both sides: the filter `Napari` finds the row
   * of `napari-foo`, and folding the filter or the row changes nothing.
   */
  lemma MatchesIgnoresCase(item: ListItem, text: string)
    ensures Matches(item, text) == Matches(item, Folded(text)) == Matches(item.(text := Folded(item.text)), text)
    ensures item.text == "napari-foo A plugin" ==> Matches(item, "Napari")
  {
    FoldedFacts(text);
    FoldedFacts(item.text);
    if item.text == "napari-foo A plugin" {
      assert Folded("Napari") == "napari";
      assert Folded(item.text)[..6] == "napari";
    }
  }

  /** `filter`: a row is hidden exactly when its text does not contain `text`. */
  function Filtered(items: seq<ListItem>, text: string): (r: seq<ListItem>)
    ensures |r| == |items|
  {
    seq(|items|, i requires 0 <= i < |items| => items[i].(hidden := !Matches(items[i], text)))
  }

  lemma {:induction false} ContainsEmpty(s: string)
    ensures Contains(s, "")
  {
    assert s[..0] == "";
  }

  /**
   * After `filter(text)` a row is hidden iff it is not a match, everything
   * else about it is unchanged, the empty filter shows every row, and only
   * the last filter counts.
   */
  lemma FilterHidesNonMatches(items: seq<ListItem>, text: string, next: string)
    ensures forall i :: 0 <= i < |items| ==>
      Filtered(items, text)[i].hidden == !Matches(items[i], text)
      && Filtered(items, text)[i].(hidden := items[i].hidden) == items[i]
    ensures text == "" ==> forall i :: 0 <= i < |items| ==> !Filtered(items, text)[i].hidden
    ensures Filtered(Filtered(items, text), next) == Filtered(items, next)
  {
    if text == "" {
      forall i | 0 <= i < |items|
        ensures Matches(items[i], text)
      {
        ContainsEmpty(Folded(items[i].text));
      }
    }
  }

  /** A `QPluginList`. */
  class PluginList {
    var items: seq<ListItem>

    constructor ()
      ensures items == []
    {
      items := [];
    }

    method Clear()
      modifies this
      ensures items == []
    {
      items := [];
    }

    /** `addItem`: append a row unless the bare name already is some row's text and no plugin name is given. */
    method AddItem(info: ProjectInfo, installed: bool, pluginName: string, enabled: bool)
      modifies this
      ensures items == WithItem(old(items), info, installed, pluginName, enabled)
      ensures old(items) <= items && |items| <= |old(items)| + 1
      ensures items != old(items) ==> items == old(items) + [NewItem(info, installed, enabled)]
    {
      if HasText(items, info.name) && pluginName == "" {
        return;
      }
      items := items + [NewItem(info, installed, enabled)];
    }

    /** `tag_outdated`. */
    method TagOutdated(info: ProjectInfo)
      modifies this
      ensures items == TagAll(old(items), info)
    {
      var i := 0;
      while i < |items|
        invariant 0 <= i <= |items| == |old(items)|
        invariant forall j :: 0 <= j < i ==> items[j] == Tagged(old(items)[j], info)
        invariant items[i..] == old(items)[i..]
      {
        assert items[i] == old(items)[i] by {
          assert items[i..][0] == old(items)[i..][0];
        }
        var item := items[i];
        if Tags(item, info) {
          items := items[i := item.(update := Some(info.version))];
        }
        assert items[i + 1..] == old(items)[i + 1..] by {
          assert items[i + 1..] == items[i..][1..];
        }
        i := i + 1;
      }
    }

    /** `filter`. */
    method Filter(text: string)
      modifies this
      ensures items == Filtered(old(items), text)
    {
      var i := 0;
      while i < |items|
        invariant 0 <= i <= |items| == |old(items)|
        invariant forall j :: 0 <= j < i ==> items[j] == old(items)[j].(hidden := !Matches(old(items)[j], text))
        invariant items[i..] == old(items)[i..]
      {
        assert items[i] == old(items)[i] by {
          assert items[i..][0] == old(items)[i..][0];
        }
        items := items[i := items[i].(hidden := !Matches(items[i], text))];
        assert items[i + 1..] == old(items)[i + 1..] by {
          assert items[i + 1..] == items[i..][1..];
        }
        i := i + 1;
      }
    }
  }

  /** One result of `plugin_manager.iter_available()`. */
  datatype Available = Available(pluginName: string, modName: string, distname: string)

  /** The plugin the dialog never shows. */
  const Engine: string := "napari_plugin_engine"

  /** `already_installed` after `refresh` has gone through `avail`. */
  function Seen(avail: seq<Available>): set<string> {
    if avail == [] then {}
    else
      var e := avail[|avail| - 1];
      Seen(avail[..|avail| - 1]) + (if e.pluginName != Engine && e.distname != "" then {e.distname} else {})
  }

  /** The entries `refresh` hands to `addItem`, in order. */
  function Picked(avail: seq<Available>): seq<Available> {
    if avail == [] then []
    else
      var prev, e := avail[..|avail| - 1], avail[|avail| - 1];
      Picked(prev) + (if e.pluginName == Engine || e.distname in Seen(prev) then [] else [e])
  }

  /** The metadata `refresh` builds for a distribution name; `meta` stands for `standard_metadata` and `normalized_name`. */
  function InfoFor(distname: string, meta: string -> ProjectInfo): ProjectInfo {
    if distname != "" then meta(distname) else EmptyInfo
  }

  /** The installed list after adding `picked`, in order, to `items`. */
  function AddAll(items: seq<ListItem>, picked: seq<Available>, meta: string -> ProjectInfo, blocked: set<string>): seq<ListItem> {
    if picked == [] then items
    else
      var e := picked[|picked| - 1];
      WithItem(AddAll(items, picked[..|picked| - 1], meta, blocked), InfoFor(e.distname, meta), true, "", e.pluginName !in blocked)
  }

  /** What one more available plugin does to the installed set, the listed entries and the installed list. */
  lemma RefreshStep(avail: seq<Available>, i: nat, meta: string -> ProjectInfo, blocked: set<string>)
    requires i < |avail|
    ensures var e := avail[i];
      Seen(avail[..i + 1]) == Seen(avail[..i]) + (if e.pluginName != Engine && e.distname != "" then {e.distname} else {})
    ensures var e := avail[i];
      e.pluginName == Engine || e.distname in Seen(avail[..i]) ==>
        Picked(avail[..i + 1]) == Picked(avail[..i])
    ensures var e := avail[i];
      e.pluginName != Engine && e.distname !in Seen(avail[..i]) ==>
        AddAll([], Picked(avail[..i + 1]), meta, blocked)
        == WithItem(AddAll([], Picked(avail[..i]), meta, blocked), InfoFor(e.distname, meta), true, "", e.pluginName !in blocked)
  {
    var e, prev := avail[i], avail[..i];
    assert avail[..i + 1][..i] == prev;
    var p := Picked(prev);
    if e.pluginName == Engine || e.distname in Seen(prev) {
      assert Picked(avail[..i + 1]) == p + [];
    } else {
      assert Picked(avail[..i + 1]) == p + [e];
      assert (p + [e])[..|p|] == p;
    }
  }

  lemma {:induction false} SeenIsNonEmptyDistnames(avail: seq<Available>)
    ensures "" !in Seen(avail)
    ensures forall d :: d in Seen(avail) <==> exists e :: e in avail && e.pluginName != Engine && e.distname == d && d != ""
  {
    if avail != [] {
      var prev := avail[..|avail| - 1];
      SeenIsNonEmptyDistnames(prev);
      assert avail == prev + [avail[|avail| - 1]];
    }
  }

  /**
   * `refresh` never lists the plugin engine, lists each non-empty
   * distribution name at most once and every listed non-empty name is
   * one of the seen ones.
   */
  lemma {:induction false} PickedDistinct(avail: seq<Available>)
    ensures forall e :: e in Picked(avail) ==> e in avail && e.pluginName != Engine
    ensures forall i, j :: 0 <= i < j < |Picked(avail)| && Picked(avail)[i].distname != "" ==>
      Picked(avail)[i].distname != Picked(avail)[j].distname
    ensures forall i :: 0 <= i < |Picked(avail)| && Picked(avail)[i].distname != "" ==> Picked(avail)[i].distname in Seen(avail)
  {
    if avail != [] {
      var prev, e := avail[..|avail| - 1], avail[|avail| - 1];
      PickedDistinct(prev);
      var p := Picked(prev);
      assert avail == prev + [e];
      if !(e.pluginName == Engine || e.distname in Seen(prev)) {
        var q := Picked(avail);
        assert q == p + [e];
        forall i, j | 0 <= i < j < |q| && q[i].distname != ""
          ensures q[i].distname != q[j].distname
        {
          if j == |p| {
            assert q[i].distname in Seen(prev);
          }
        }
      }
    }
  }

  /** Every seen name is listed: `refresh` made a row for it. */
  lemma {:induction false} SeenIsPicked(avail: seq<Available>, d: string)
    requires d in Seen(avail)
    ensures exists i :: 0 <= i < |Picked(avail)| && Picked(avail)[i].distname == d
  {
    var prev, e := avail[..|avail| - 1], avail[|avail| - 1];
    var p, q := Picked(prev), Picked(avail);
    if d in Seen(prev) {
      SeenIsPicked(prev, d);
      var i :| 0 <= i < |p| && p[i].distname == d;
      assert q == p + (if e.pluginName == Engine || e.distname in Seen(prev) then [] else [e]);
      assert q[i] == p[i];
    } else {
      assert d == e.distname && e.pluginName != Engine;
      assert q == p + [e];
      assert q[|p|].distname == d;
    }
  }

  /** How many entries of `s` have an empty distribution name. */
  function EmptyCount(s: seq<Available>): nat {
    if s == [] then 0 else EmptyCount(s[..|s| - 1]) + (if s[|s| - 1].distname == "" then 1 else 0)
  }

  /** How many entries of `s` other than the plugin engine have an empty distribution name. */
  function EmptyCountShown(s: seq<Available>): nat {
    if s == [] then 0
    else EmptyCountShown(s[..|s| - 1]) + (if s[|s| - 1].distname == "" && s[|s| - 1].pluginName != Engine then 1 else 0)
  }

  /** Entries without a distribution name are never deduplicated: each one is listed. */
  lemma {:induction false} EmptyNeverDeduplicated(avail: seq<Available>)
    ensures EmptyCount(Picked(avail)) == EmptyCountShown(avail)
  {
    if avail != [] {
      var prev, e := avail[..|avail| - 1], avail[|avail| - 1];
      EmptyNeverDeduplicated(prev);
      SeenIsNonEmptyDistnames(prev);
      var p := Picked(prev);
      if e.pluginName == Engine || e.distname in Seen(prev) {
        assert Picked(avail) == p + [] == p;
        assert e.distname == "" ==> e.pluginName == Engine;
      } else {
        assert Picked(avail) == p + [e];
        assert (p + [e])[..|p|] == p;
      }
    }
  }

  /**
   * A name without a space is never taken for a row whose text holds one:
   * folding keeps spaces where they are.
   */
  lemma SpacedRowsMissName(items: seq<ListItem>, name: string)
    requires forall i :: 0 <= i < |items| ==> ' ' in items[i].text
    requires ' ' !in name
    ensures !HasText(items, name)
  {
    forall i | 0 <= i < |items|
      ensures Folded(items[i].text) != Folded(name)
    {
      var k :| 0 <= k < |items[i].text| && items[i].text[k] == ' ';
      if k < |name| {
        assert Folded(items[i].text)[k] != Folded(name)[k];
      }
    }
  }

  /**
   * With names free of spaces, as normalized distribution names are, the
   * duplicate check of `addItem` never fires during `refresh`: row `i` of
   * the installed list is the row of the `i`-th picked plugin.
   */
  lemma {:induction false} AddAllListsEveryPicked(picked: seq<Available>, meta: string -> ProjectInfo, blocked: set<string>)
    requires forall d :: ' ' !in meta(d).name
    ensures |AddAll([], picked, meta, blocked)| == |picked|
    ensures forall i :: 0 <= i < |picked| ==>
      AddAll([], picked, meta, blocked)[i] == NewItem(InfoFor(picked[i].distname, meta), true, picked[i].pluginName !in blocked)
  {
    if picked != [] {
      var init, e := picked[..|picked| - 1], picked[|picked| - 1];
      AddAllListsEveryPicked(init, meta, blocked);
      var rows := AddAll([], init, meta, blocked);
      var info := InfoFor(e.distname, meta);
      forall i | 0 <= i < |rows|
        ensures ' ' in rows[i].text
      {
        assert rows[i].text[|InfoFor(init[i].distname, meta).name|] == ' ';
      }
      SpacedRowsMissName(rows, info.name);
      assert AddAll([], picked, meta, blocked) == rows + [NewItem(info, true, e.pluginName !in blocked)];
    }
  }

  /** Every distribution in the installed set gets its row, built from its metadata. */
  lemma SeenHasRow(avail: seq<Available>, meta: string -> ProjectInfo, blocked: set<string>, d: string)
    requires forall d :: ' ' !in meta(d).name
    requires d in Seen(avail)
    ensures exists i ::
      && 0 <= i < |Picked(avail)| && Picked(avail)[i].distname == d
      && i < |AddAll([], Picked(avail), meta, blocked)|
      && AddAll([], Picked(avail), meta, blocked)[i] == NewItem(meta(d), true, Picked(avail)[i].pluginName !in blocked)
  {
    SeenIsPicked(avail, d);
    SeenIsNonEmptyDistnames(avail);
    AddAllListsEveryPicked(Picked(avail), meta, blocked);
  }

  /** The `QtPluginDialog`. */
  class Dialog {
    const installer: Installer
    const installedList: PluginList
    const availableList: PluginList
    /** `already_installed` of the last `refresh`. */
    var alreadyInstalled: set<string>
    /** The amount shown in the "Installed Plugins" label. */
    var installedCount: nat
    /** The text of the direct-entry field. */
    var entryText: string

    ghost predicate Valid()
      reads this, installer
    {
      installedList != availableList && installer.Valid()
    }

    /**
     * `__init__`: a pip installer that gets the status view as its output,
     * then the first `refresh` over `avail` (see `Refresh`).
     */
    constructor (avail: seq<Available>, meta: string -> ProjectInfo, blocked: set<string>)
      ensures Valid() && fresh(installer) && fresh(installedList) && fresh(availableList)
      ensures installedList.items == AddAll([], Picked(avail), meta, blocked) && availableList.items == []
      ensures alreadyInstalled == Seen(avail) && installedCount == |Seen(avail)| && entryText == ""
      ensures installer.requested == [] && installer.outputWidget && installer.condaEnvPath == None
    {
      var inst := new Installer(false, Pip, false, "");
      inst.SetOutputWidget(true);
      installer := inst;
      installedList := new PluginList();
      availableList := new PluginList();
      alreadyInstalled := {};
      installedCount := 0;
      entryText := "";
      new;
      Refresh(avail, meta, blocked);
    }

    /**
     * `refresh` up to starting the fetch of the available plugins: clear both
     * lists and list the installed plugins from `avail`. `meta` gives a
     * distribution's metadata and `blocked` the blocked plugin names.
     */
    method Refresh(avail: seq<Available>, meta: string -> ProjectInfo, blocked: set<string>)
      requires Valid()
      modifies this`alreadyInstalled, this`installedCount, installedList, availableList
      ensures Valid()
      ensures installedList.items == AddAll([], Picked(avail), meta, blocked)
      ensures availableList.items == []
      ensures alreadyInstalled == Seen(avail) && installedCount == |Seen(avail)|
    {
      installedList.Clear();
      availableList.Clear();
      var seen: set<string> := {};
      var i := 0;
      while i < |avail|
        invariant 0 <= i <= |avail|
        invariant seen == Seen(avail[..i])
        invariant installedList.items == AddAll([], Picked(avail[..i]), meta, blocked)
        invariant availableList.items == []
      {
        seen := ListInstalled(avail, i, seen, meta, blocked);
        i := i + 1;
      }
      assert avail[..i] == avail;
      alreadyInstalled := seen;
      installedCount := |seen|;
    }

    /**
     * One iteration of `refresh`'s loop over the available plugins: skip the
     * plugin engine and distributions already seen, otherwise remember a
     * non-empty distribution name and add the row.
     */
    method ListInstalled(avail: seq<Available>, i: nat, seen: set<string>, meta: string -> ProjectInfo, blocked: set<string>)
      returns (seen': set<string>)
      requires i < |avail| && seen == Seen(avail[..i])
      requires installedList.items == AddAll([], Picked(avail[..i]), meta, blocked)
      modifies installedList
      ensures seen' == Seen(avail[..i + 1])
      ensures installedList.items == AddAll([], Picked(avail[..i + 1]), meta, blocked)
    {
      var e := avail[i];
      RefreshStep(avail, i, meta, blocked);
      seen' := seen;
      if e.pluginName != Engine && e.distname !in seen {
        var info: ProjectInfo;
        if e.distname != "" {
          seen' := seen + {e.distname};
          info := meta(e.distname);
        } else {
          info := EmptyInfo;
        }
        installedList.AddItem(info, true, "", e.pluginName !in blocked);
      }
    }

    /** `_handle_yield`: installed projects are checked for updates, others become available. */
    method HandleYield(info: ProjectInfo)
      requires Valid()
      modifies installedList, availableList
      ensures Valid()
      ensures info.name in alreadyInstalled ==>
        installedList.items == TagAll(old(installedList.items), info) && availableList.items == old(availableList.items)
      ensures info.name !in alreadyInstalled ==>
        && availableList.items == WithItem(old(availableList.items), info, false, "", true)
        && installedList.items == old(installedList.items)
    {
      if info.name in alreadyInstalled {
        installedList.TagOutdated(info);
      } else {
        availableList.AddItem(info, false, "", true);
      }
    }

    /**
     * `_install_packages`: with no packages given, take the entry text (as a
     * single path when `isPath`, the file system's answer for it, else split
     * at whitespace) and clear the field; install only a non-empty list.
     */
    method InstallPackages(packages: seq<string>, isPath: bool)
      requires Valid() && (entryText == "" ==> !isPath)
      modifies this`entryText, installer
      ensures Valid()
      ensures entryText == if packages == [] then "" else old(entryText)
      ensures var pkgs := ToInstall(packages, old(entryText), isPath);
        && (pkgs != [] ==> installer.requested == old(installer.requested) + [Action(InstallKind, pkgs, Pip, DefaultChannels)])
        && (pkgs != [] ==> installer.launches[|installer.launches| - 1].args == InstallArgs(Pip, installer.condaEnvPath, DefaultChannels, pkgs))
        && (pkgs == [] ==> unchanged(installer))
    {
      var pkgs := packages;
      if packages == [] {
        var text := entryText;
        if isPath {
          pkgs := [text];
        } else {
          pkgs := Words(text);
        }
        entryText := "";
      }
      if pkgs != [] {
        installer.Install(pkgs, Pip, DefaultChannels);
      }
    }
  }

  /** The package list `_install_packages` installs. */
  function ToInstall(packages: seq<string>, text: string, isPath: bool): (r: seq<string>)
    requires text == "" ==> !isPath
    ensures packages != [] ==> r == packages
    ensures packages == [] && isPath ==> r == [text]
    ensures packages == [] && !isPath ==> r == Words(text)
    ensures r == [] <==> packages == [] && !isPath && forall i :: 0 <= i < |text| ==> IsSpace(text[i])
  {
    if packages != [] then packages
    else if isPath then [text]
    else
      WordsEmptyIff(text);
      Words(text)
  }

  /** Python's `str.isspace` for one character. */
  predicate IsSpace(c: char) {
    var n := c as int;
    n == 0x20 || 0x09 <= n <= 0x0D || 0x1C <= n <= 0x1F || n == 0x85 || n == 0xA0 || n == 0x1680
    || 0x2000 <= n <= 0x200A || n == 0x2028 || n == 0x2029 || n == 0x202F || n == 0x205F || n == 0x3000
  }

  predicate NoSpace(w: string) {
    forall i :: 0 <= i < |w| ==> !IsSpace(w[i])
  }

  /** The longest prefix of `s` without whitespace. */
  function LeadingWord(s: string): (w: string)
    ensures w <= s && NoSpace(w)
    ensures |w| < |s| ==> IsSpace(s[|w|])
  {
    if s == [] || IsSpace(s[0]) then [] else [s[0]] + LeadingWord(s[1..])
  }

  /** Python's `str.split()` without arguments: the maximal runs of non-whitespace. */
  function Words(s: string): seq<string>
    decreases |s|
  {
    if s == [] then []
    else if IsSpace(s[0]) then Words(s[1..])
    else
      var w := LeadingWord(s);
      [w] + Words(s[|w|..])
  }

  /** Every word is non-empty and holds no whitespace. */
  lemma {:induction false} WordsWellFormed(s: string)
    ensures forall i :: 0 <= i < |Words(s)| ==> Words(s)[i] != [] && NoSpace(Words(s)[i])
    decreases |s|
  {
    if s != [] {
      if IsSpace(s[0]) {
        WordsWellFormed(s[1..]);
      } else {
        WordsWellFormed(s[|LeadingWord(s)|..]);
      }
    }
  }

  /** A text splits into no words exactly when it is all whitespace. */
  lemma {:induction false} WordsEmptyIff(s: string)
    ensures Words(s) == [] <==> forall i :: 0 <= i < |s| ==> IsSpace(s[i])
    decreases |s|
  {
    if s != [] && IsSpace(s[0]) {
      WordsEmptyIff(s[1..]);
      assert forall i :: 1 <= i < |s| ==> s[i] == s[1..][i - 1];
    }
  }

  /** Words joined by single spaces. */
  function JoinSpaced(ws: seq<string>): string {
    if |ws| == 0 then ""
    else if |ws| == 1 then ws[0]
    else ws[0] + " " + JoinSpaced(ws[1..])
  }

  lemma {:induction false} LeadingWordOf(w: string, tail: string)
    requires NoSpace(w) && (tail == [] || IsSpace(tail[0]))
    ensures LeadingWord(w + tail) == w
    decreases |w|
  {
    if w != [] {
      assert (w + tail)[1..] == w[1..] + tail;
      LeadingWordOf(w[1..], tail);
    } else {
      assert w + tail == tail;
    }
  }

  /** A word, a space and a text split into the word and the text's words. */
  lemma WordThenSpace(w: string, rest: string)
    requires w != [] && NoSpace(w)
    ensures Words(w + " " + rest) == [w] + Words(rest)
  {
    var s := w + " " + rest;
    assert s == w + (" " + rest);
    LeadingWordOf(w, " " + rest);
    assert s[|w|..] == " " + rest;
    assert (" " + rest)[1..] == rest;
  }

  /** Splitting words joined by single spaces gives the words back. */
  lemma {:induction false} SplitJoinRoundTrip(ws: seq<string>)
    requires forall i :: 0 <= i < |ws| ==> ws[i] != [] && NoSpace(ws[i])
    ensures Words(JoinSpaced(ws)) == ws
  {
    if |ws| == 1 {
      LeadingWordOf(ws[0], []);
      assert ws[0] + [] == ws[0];
      assert JoinSpaced(ws)[|ws[0]|..] == [];
    } else if |ws| > 1 {
      WordThenSpace(ws[0], JoinSpaced(ws[1..]));
      SplitJoinRoundTrip(ws[1..]);
      assert ws == [ws[0]] + ws[1..];
    }
  }
}
