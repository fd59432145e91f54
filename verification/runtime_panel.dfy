/**
 * The decision logic of the REPL panel (crates/repl/src/runtime_panel.rs):
 * which text of the editor is run (the selection, or the cursor's whole line
 * when the selection is empty), whether it may be run (one language, not
 * markdown), which kernelspec runs it (the first with exactly that language),
 * and the panel's own state: the enabled flag, its width, its dock position
 * and its sessions, one per editor, created on first use and reused after.
 *
 * The editor's buffer is a plain sequence of characters and the language at an
 * offset is a function given by the caller.
 */
module RuntimePanel {
  import opened Wrappers
  import opened Runtimes

  type EntityId = nat

  /** A width in pixels. */
  type Pixels = real

  /** A range of buffer offsets, `start..end`. */
  datatype Range = Range(start: nat, end: nat)

  /** The editor's newest selection, as offsets with start <= end. */
  datatype Selection = Selection(start: nat, end: nat) {
    predicate IsEmpty() {
      start == end
    }
  }

  // ---------------------------------------------------------------------------
  // Line expansion

  /** The first offset of the line that holds `offset`. */
  function LineStart(buffer: seq<char>, offset: nat): (r: nat)
    requires offset <= |buffer|
    ensures r <= offset
    decreases offset
  {
    if offset == 0 || buffer[offset - 1] == '\n' then offset else LineStart(buffer, offset - 1)
  }

  /** The offset of the newline that ends the line holding `offset`, or the buffer's length. */
  function LineEnd(buffer: seq<char>, offset: nat): (r: nat)
    requires offset <= |buffer|
    ensures offset <= r <= |buffer|
    decreases |buffer| - offset
  {
    if offset == |buffer| || buffer[offset] == '\n' then offset else LineEnd(buffer, offset + 1)
  }

  /** `r` is the whole line holding `cursor`: it contains the cursor and no newline, and stops at newlines or the buffer's ends. */
  ghost predicate IsLineOf(buffer: seq<char>, r: Range, cursor: nat) {
    && r.start <= cursor <= r.end <= |buffer|
    && (r.start == 0 || buffer[r.start - 1] == '\n')
    && (r.end == |buffer| || buffer[r.end] == '\n')
    && (forall i :: r.start <= i < r.end ==> buffer[i] != '\n')
  }

  lemma {:induction false} LineStartIsLineStart(buffer: seq<char>, offset: nat)
    requires offset <= |buffer|
    ensures LineStart(buffer, offset) == 0 || buffer[LineStart(buffer, offset) - 1] == '\n'
    ensures forall i :: LineStart(buffer, offset) <= i < offset ==> buffer[i] != '\n'
    decreases offset
  {
    if offset > 0 && buffer[offset - 1] != '\n' {
      LineStartIsLineStart(buffer, offset - 1);
    }
  }

  lemma {:induction false} LineEndIsLineEnd(buffer: seq<char>, offset: nat)
    requires offset <= |buffer|
    ensures LineEnd(buffer, offset) == |buffer| || buffer[LineEnd(buffer, offset)] == '\n'
    ensures forall i :: offset <= i < LineEnd(buffer, offset) ==> buffer[i] != '\n'
    decreases |buffer| - offset
  {
    if offset < |buffer| && buffer[offset] != '\n' {
      LineEndIsLineEnd(buffer, offset + 1);
    }
  }

  /** There is only one line through a cursor. */
  lemma LineIsUnique(buffer: seq<char>, r1: Range, r2: Range, cursor: nat)
    requires IsLineOf(buffer, r1, cursor) && IsLineOf(buffer, r2, cursor)
    ensures r1 == r2
  {
  }

  /** The range `selection` yields: a non-empty selection as it is, an empty one widened to the cursor's line. */
  function SelectedRange(buffer: seq<char>, sel: Selection): (r: Range)
    requires sel.start <= sel.end <= |buffer|
    ensures r.start <= r.end <= |buffer|
    ensures !sel.IsEmpty() ==> r == Range(sel.start, sel.end)
    ensures sel.IsEmpty() ==> IsLineOf(buffer, r, sel.start)
  {
    if sel.IsEmpty() then
      LineStartIsLineStart(buffer, sel.start);
      LineEndIsLineEnd(buffer, sel.start);
      Range(LineStart(buffer, sel.start), LineEnd(buffer, sel.start))
    else
      Range(sel.start, sel.end)
  }

  /**
   * `RuntimePanel::selection`: for an empty selection, start at the cursor's row
   * and scan back to a newline, then scan forward from the cursor to a newline.
   */
  method SelectionRange(buffer: seq<char>, sel: Selection) returns (r: Range)
    requires sel.start <= sel.end <= |buffer|
    ensures r == SelectedRange(buffer, sel)
  {
    if sel.IsEmpty() {
      var cursor := sel.end;
      // the offset of the cursor's row at column 0
      var startOffset: nat := LineStart(buffer, cursor);
      LineStartIsLineStart(buffer, cursor);
      while startOffset > 0
        invariant startOffset <= cursor
        invariant LineStart(buffer, startOffset) == LineStart(buffer, cursor)
      {
        if buffer[startOffset - 1] == '\n' {
          break;
        }
        startOffset := startOffset - 1;
      }
      var endOffset: nat := cursor;
      while endOffset < |buffer|
        invariant cursor <= endOffset <= |buffer|
        invariant LineEnd(buffer, endOffset) == LineEnd(buffer, cursor)
      {
        if buffer[endOffset] == '\n' {
          break;
        }
        endOffset := endOffset + 1;
      }
      r := Range(startOffset, endOffset);
    } else {
      r := Range(sel.start, sel.end);
    }
  }

  // ---------------------------------------------------------------------------
  // Snippets and kernelspec lookup

  /** A language of the buffer: its own name, which identifies it, and its code fence block name. */
  datatype Language = Language(name: string, codeFenceBlockName: string)

  /** The code to run: its text, its language's name and its range. */
  datatype Snippet = Snippet(text: string, language: string, range: Range)

  /**
   * `RuntimePanel::snippet`: the selected range's text, provided the language at
   * its start and at its end are the same, present, and not markdown.
   */
  function SnippetAt(buffer: seq<char>, sel: Selection, languageAt: nat -> Option<Language>): (r: Option<Snippet>)
    requires sel.start <= sel.end <= |buffer|
    ensures var range := SelectedRange(buffer, sel); var lang := languageAt(range.start);
      r.Some? <==> lang == languageAt(range.end) && lang.Some? && lang.value.codeFenceBlockName != "markdown"
    ensures var range := SelectedRange(buffer, sel);
      r.Some? ==>
        && r.value.range == range
        && r.value.text == buffer[range.start..range.end]
        && r.value.language == languageAt(range.start).value.codeFenceBlockName
  {
    var range := SelectedRange(buffer, sel);
    var startLanguage := languageAt(range.start);
    var endLanguage := languageAt(range.end);
    if startLanguage == endLanguage then
      match startLanguage
      case None => None
      case Some(language) =>
        if language.codeFenceBlockName == "markdown" then None
        else Some(Snippet(buffer[range.start..range.end], language.codeFenceBlockName, range))
    else
      None
  }

  /** `RuntimePanel::kernelspec`: the first kernelspec, in list order, whose language is exactly `language`. */
  function FindKernelspec(specs: seq<RuntimeSpecification>, language: string): (r: Option<RuntimeSpecification>)
    ensures r.None? <==> forall s :: s in specs ==> s.kernelspec.language != language
    ensures r.Some? ==>
      exists i :: 0 <= i < |specs| && specs[i] == r.value && specs[i].kernelspec.language == language
        && forall j :: 0 <= j < i ==> specs[j].kernelspec.language != language
  {
    if specs == [] then None
    else if specs[0].kernelspec.language == language then
      assert specs[0] in specs;
      Some(specs[0])
    else
      var rest := FindKernelspec(specs[1..], language);
      assert forall s :: s in specs ==> s == specs[0] || s in specs[1..];
      if rest.Some? then
        var i :| 0 <= i < |specs[1..]| && specs[1..][i] == rest.value && specs[1..][i].kernelspec.language == language
          && forall j :: 0 <= j < i ==> specs[1..][j].kernelspec.language != language;
        assert specs[i + 1] == rest.value;
        assert forall j :: 0 < j < i + 1 ==> specs[j] == specs[1..][j - 1];
        rest
      else
        rest
  }

  // ---------------------------------------------------------------------------
  // Settings: dock position and default width

  datatype JupyterDockPosition = Left | Right | Bottom

  datatype DockPosition = Left | Right | Bottom

  datatype JupyterSettings = JupyterSettings(enabled: bool, dock: JupyterDockPosition, defaultWidth: Pixels)

  /** `Panel::position`: the dock named by the settings. */
  function Position(settings: JupyterSettings): DockPosition {
    match settings.dock
    case Left => DockPosition.Left
    case Right => DockPosition.Right
    case Bottom => DockPosition.Bottom
  }

  /** `Panel::set_position`: the settings with the dock replaced by the setting that names `position`. */
  function SetPosition(settings: JupyterSettings, position: DockPosition): (updated: JupyterSettings)
    ensures Position(updated) == position
    ensures updated.enabled == settings.enabled && updated.defaultWidth == settings.defaultWidth
  {
    var dock := match position
      case Left => JupyterDockPosition.Left
      case Right => JupyterDockPosition.Right
      case Bottom => JupyterDockPosition.Bottom;
    settings.(dock := dock)
  }

  /** The two mappings are inverse: setting the position that is read back changes nothing. */
  lemma PositionMappingsInverse(settings: JupyterSettings)
    ensures SetPosition(settings, Position(settings)) == settings
  {
  }

  // ---------------------------------------------------------------------------
  // The panel

  /** A session attached to an editor: its kernelspec and the code it was asked to execute, in order. */
  datatype Session = Session(editor: EntityId, kernelSpecification: RuntimeSpecification, executions: seq<(string, Range)>) {
    function Execute(code: string, range: Range): Session {
      this.(executions := executions + [(code, range)])
    }
  }

  class RuntimePanel {
    var enabled: bool
    var width: Option<Pixels>
    var sessions: map<EntityId, Session>
    var kernelSpecifications: seq<RuntimeSpecification>
    /** How many times the panel asked to be redrawn (`cx.notify()`). */
    var notifications: nat

    /** The panel as `load` creates it, before its kernelspecs are read. */
    constructor (enabled: bool)
      ensures this.enabled == enabled && width == None && sessions == map[]
      ensures kernelSpecifications == [] && notifications == 0
    {
      this.enabled := enabled;
      width := None;
      sessions := map[];
      kernelSpecifications := [];
      notifications := 0;
    }

    /** `set_enabled`: stores the flag and notifies, only when it changes. */
    method SetEnabled(enabled: bool)
      modifies this
      ensures this.enabled == enabled
      ensures notifications == old(notifications) + (if old(this.enabled) != enabled then 1 else 0)
      ensures width == old(width) && sessions == old(sessions) && kernelSpecifications == old(kernelSpecifications)
    {
      if this.enabled != enabled {
        this.enabled := enabled;
        notifications := notifications + 1;
      }
    }

    /** `refresh_kernelspecs`, once discovery has finished: the list is replaced and the panel notified. */
    method SetKernelSpecifications(specs: seq<RuntimeSpecification>)
      modifies this
      ensures kernelSpecifications == specs && notifications == old(notifications) + 1
      ensures enabled == old(enabled) && width == old(width) && sessions == old(sessions)
    {
      kernelSpecifications := specs;
      notifications := notifications + 1;
    }

    /** `Panel::size`: the stored width, else the settings' default. */
    function Size(settings: JupyterSettings): (size: Pixels)
      reads this
      ensures width.Some? ==> size == width.value
      ensures width.None? ==> size == settings.defaultWidth
    {
      width.GetOr(settings.defaultWidth)
    }

    /** `Panel::set_size`: stores its argument as it is. */
    method SetSize(size: Option<Pixels>)
      modifies this
      ensures width == size
      ensures forall settings :: Size(settings) == if size.Some? then size.value else settings.defaultWidth
      ensures enabled == old(enabled) && sessions == old(sessions)
      ensures kernelSpecifications == old(kernelSpecifications) && notifications == old(notifications)
    {
      width := size;
    }

    /**
     * `RuntimePanel::run`: nothing when disabled or without a snippet; an error
     * when no kernelspec has the snippet's language; otherwise the editor's
     * session (created on first use, with that kernelspec) executes the snippet.
     */
    method Run(editor: EntityId, buffer: seq<char>, sel: Selection, languageAt: nat -> Option<Language>)
      returns (r: Result<(), string>)
      requires sel.start <= sel.end <= |buffer|
      modifies this
      ensures !old(enabled) ==> r == Ok(()) && unchanged(this)
      ensures old(enabled) && SnippetAt(buffer, sel, languageAt).None? ==> r == Ok(()) && unchanged(this)
      ensures old(enabled) && SnippetAt(buffer, sel, languageAt).Some? ==>
        var snippet := SnippetAt(buffer, sel, languageAt).value;
        var spec := FindKernelspec(old(kernelSpecifications), snippet.language);
        && (spec.None? ==> r == Err("No kernel found for language: " + snippet.language) && unchanged(this))
        && (spec.Some? ==>
              && r == Ok(())
              && (editor in old(sessions) ==>
                    && sessions == old(sessions)[editor := old(sessions)[editor].Execute(snippet.text, snippet.range)]
                    && notifications == old(notifications))
              && (editor !in old(sessions) ==>
                    && sessions == old(sessions)[editor := Session(editor, spec.value, []).Execute(snippet.text, snippet.range)]
                    && notifications == old(notifications) + 1)
              && enabled == old(enabled) && width == old(width)
              && kernelSpecifications == old(kernelSpecifications))
    {
      if !enabled {
        return Ok(());
      }
      var snippet := SnippetAt(buffer, sel, languageAt);
      if snippet.None? {
        return Ok(());
      }
      var spec := FindKernelspec(kernelSpecifications, snippet.value.language);
      if spec.None? {
        return Err("No kernel found for language: " + snippet.value.language);
      }
      if editor !in sessions {
        sessions := sessions[editor := Session(editor, spec.value, [])];
        notifications := notifications + 1;
      }
      var session := sessions[editor];
      sessions := sessions[editor := session.Execute(snippet.value.text, snippet.value.range)];
      r := Ok(());
    }
  }

  /** A session, once created, keeps its kernelspec and only gains executions: it is reused, never replaced. */
  lemma SessionReused(s: Session, code: string, range: Range)
    ensures s.Execute(code, range).kernelSpecification == s.kernelSpecification
    ensures s.Execute(code, range).editor == s.editor
    ensures s.Execute(code, range).executions == s.executions + [(code, range)]
  {
  }
}
