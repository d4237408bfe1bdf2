/** The two screens: the menu and the output of the last run. */
module Screens {
  import opened Types

  /** The four text styles, as functions on the text they decorate; the
      styling itself is not modelled. */
  datatype Styles = Styles(
    title: string -> string,
    item: string -> string,
    selectedItem: string -> string,
    description: string -> string)

  /** Styles that leave the text as it is. */
  const Plain: Styles := Styles(s => s, s => s, s => s, s => s)

  const MenuFooter: string := "\nPress q to quit, enter to execute\n"

  const OutputFooter: string := "Press q to go back to menu\n"

  function MenuHeader(st: Styles): string {
    st.title(" Command Menu ") + "\n\n"
  }

  /** The two lines of one menu entry; the entry under the cursor is marked
      with ">" and drawn in the selected style. */
  function Entry(c: Command, marked: bool, st: Styles): string {
    if marked then st.selectedItem("> " + c.name) + "\n" + st.description("   " + c.description) + "\n\n"
    else st.item("  " + c.name) + "\n" + st.description("   " + c.description) + "\n\n"
  }

  /** The entries of the menu, in list order. */
  function Entries(m: Model, st: Styles): seq<string> {
    seq(|m.config.commands|, i requires 0 <= i < |m.config.commands| =>
      Entry(m.config.commands[i], i == m.cursor, st))
  }

  /** The strings of ss, one after the other. */
  function Concat(ss: seq<string>): string {
    if ss == [] then "" else Concat(ss[..|ss| - 1]) + ss[|ss| - 1]
  }

  lemma {:induction false} ConcatAppend(a: seq<string>, b: seq<string>)
    ensures Concat(a + b) == Concat(a) + Concat(b)
    decreases |b|
  {
    if b == [] {
      assert a + b == a;
    } else {
      var b' := b[..|b| - 1];
      assert (a + b)[..|a + b| - 1] == a + b';
      ConcatAppend(a, b');
    }
  }

  /** The menu screen: the header, every entry, then the footer. */
  function MenuView(m: Model, st: Styles): string {
    MenuHeader(st) + Concat(Entries(m, st)) + MenuFooter
  }

  /** renderMenu: the menu screen, built up entry by entry. */
  method RenderMenu(m: Model, st: Styles) returns (s: string)
    ensures s == MenuView(m, st)
  {
    ghost var es := Entries(m, st);
    s := st.title(" Command Menu ") + "\n\n";
    var i := 0;
    while i < |m.config.commands|
      invariant 0 <= i <= |m.config.commands|
      invariant s == MenuHeader(st) + Concat(es[..i])
    {
      ghost var before := s;
      var c := m.config.commands[i];
      var cursor := " ";
      if m.cursor == i {
        cursor := ">";
        s := s + st.selectedItem(cursor + " " + c.name) + "\n";
        s := s + st.description("   " + c.description) + "\n\n";
        assert cursor + " " + c.name == "> " + c.name;
      } else {
        s := s + st.item(cursor + " " + c.name) + "\n";
        s := s + st.description("   " + c.description) + "\n\n";
        assert cursor + " " + c.name == "  " + c.name;
      }
      assert s == before + es[i];
      assert es[..i + 1][..i] == es[..i];
      i := i + 1;
    }
    assert es[..i] == es;
    s := s + MenuFooter;
  }

  /** Entry i stands in the menu screen after the header and the entries
      before it and before the entries after it, so the screen lists the
      commands in list order. */
  lemma EntryInPlace(m: Model, st: Styles, i: int)
    requires 0 <= i < |m.config.commands|
    ensures var es := Entries(m, st);
      && es[i] == Entry(m.config.commands[i], i == m.cursor, st)
      && MenuView(m, st) == MenuHeader(st) + Concat(es[..i]) + es[i] + Concat(es[i + 1..]) + MenuFooter
  {
    var es := Entries(m, st);
    assert es == es[..i] + [es[i]] + es[i + 1..];
    ConcatAppend(es[..i] + [es[i]], es[i + 1..]);
    ConcatAppend(es[..i], [es[i]]);
    assert Concat([es[i]]) == Concat([]) + es[i];
  }

  /** Drawn plainly, an entry starts with ">" exactly when it is the one
      under the cursor. */
  lemma OnlyCursorEntryMarked(m: Model, i: int)
    requires 0 <= i < |m.config.commands|
    ensures Entries(m, Plain)[i][0] == '>' <==> i == m.cursor
  {
  }

  /** An empty command list gives a menu with no entries. */
  lemma EmptyMenu(m: Model, st: Styles)
    requires |m.config.commands| == 0
    ensures MenuView(m, st) == MenuHeader(st) + MenuFooter
  {
  }

  /** renderOutput: the styled title, the shown text, then the footer. */
  function OutputView(m: Model, st: Styles): string {
    st.title(m.outputTitle) + "\n\n" + m.output + "\n\n" + OutputFooter
  }

  /** The output screen can be taken apart again: the title comes first, the
      shown text stands between the two blank-line separators, and the footer
      comes last. */
  lemma OutputViewShowsOutput(m: Model, st: Styles)
    ensures var t := st.title(m.outputTitle);
      var v := OutputView(m, st);
      && |v| == |t| + |m.output| + 4 + |OutputFooter|
      && v[..|t|] == t
      && v[|t| + 2..|t| + 2 + |m.output|] == m.output
      && v[|v| - |OutputFooter|..] == OutputFooter
  {
  }

  /** View: the output screen while it is shown, the menu otherwise. */
  function View(m: Model, st: Styles): string {
    if m.showOutput then OutputView(m, st) else MenuView(m, st)
  }
}
