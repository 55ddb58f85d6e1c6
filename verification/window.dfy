/** The canonical window record every platform produces, and its one-line
    human rendering. */
module Window {

  /** Exactly four fields: title, class, pid and workspace. */
  datatype WindowInfo = WindowInfo(title: string, windowClass: string, pid: int, workspace: string)

  const NoWindowMessage := "No active window found!"

  /** The window emoji (U+1FA9F) followed by a space. */
  const Icon := "\U{1FA9F} "

  /** The record carries neither a title nor a class: the "no window" sentinel. */
  predicate IsSentinel(w: WindowInfo) {
    w.title == "" && w.windowClass == ""
  }

  /** `WindowInfo.String`. The sentinel message is produced exactly for the
      sentinel record; every other record shows the icon, then the title and
      the class in parentheses, both embedded verbatim — even when one of
      them is empty. */
  function Render(w: WindowInfo): (r: string)
    ensures r == NoWindowMessage <==> IsSentinel(w)
    ensures !IsSentinel(w) ==>
      && |r| == |Icon| + |w.title| + 2 + |w.windowClass| + 1
      && r[..|Icon|] == Icon
      && r[|Icon|..|Icon| + |w.title|] == w.title
      && r[|Icon| + |w.title|..|Icon| + |w.title| + 2] == " ("
      && r[|r| - 1 - |w.windowClass|..|r| - 1] == w.windowClass
      && r[|r| - 1] == ')'
  {
    if w.title == "" && w.windowClass == "" then NoWindowMessage
    else
      var r := Icon + w.title + " (" + w.windowClass + ")";
      assert r[0] != NoWindowMessage[0];
      r
  }

  /** The rendering depends on the title and class only; pid and workspace
      never show. */
  lemma RenderIgnoresPidAndWorkspace(w: WindowInfo, pid: int, workspace: string)
    ensures Render(w) == Render(w.(pid := pid, workspace := workspace))
  {
  }

  /** Two non-sentinel records with the same title render alike exactly when
      their classes agree: the class is recoverable from the rendering. */
  lemma RenderDeterminesClassGivenTitle(w: WindowInfo, v: WindowInfo)
    requires !IsSentinel(w) && !IsSentinel(v) && w.title == v.title
    ensures Render(w) == Render(v) <==> w.windowClass == v.windowClass
  {
    if Render(w) == Render(v) {
      var r := Render(w);
      assert |w.windowClass| == |v.windowClass|;
      assert w.windowClass == r[|r| - 1 - |w.windowClass|..|r| - 1] == v.windowClass;
    }
  }

  /** The rendering tests' case with an empty title: the format still
      applies and the title leaves an empty slot. */
  lemma RenderEmptyTitleExample()
    ensures Render(WindowInfo("", "Terminal", 54321, "")) == "\U{1FA9F}  (Terminal)"
  {
  }

  /** The rendering tests' case with an empty class. */
  lemma RenderEmptyClassExample()
    ensures Render(WindowInfo("Some Title", "", 98765, "")) == "\U{1FA9F} Some Title ()"
  {
  }

  /** The rendering tests' case of characters that are embedded without
      escaping: `&`, `<` and `>` appear in the output as they are. */
  lemma RenderVerbatimExample()
    ensures Render(WindowInfo("Test & Special < Characters >", "app-name", 1337, ""))
      == Icon + "Test & Special < Characters >" + " (app-name)"
  {
    var w := WindowInfo("Test & Special < Characters >", "app-name", 1337, "");
    assert !IsSentinel(w);
    assert " (" + w.windowClass + ")" == " (app-name)";
  }
}
