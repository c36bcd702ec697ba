/** The part of a jsPDF document the dashboard relies on: the text
    commands drawn on it, in order, and the file name it is saved under.
    Fonts and page rendering are not modelled. */
module Pdf {

  import opened Wrappers

  /** `doc.text(text, x, y)`. */
  datatype TextCmd = TextCmd(text: string, x: int, y: int)

  class PdfDoc {
    var commands: seq<TextCmd>
    var savedAs: Option<string>

    /** `new jsPDF()`: a blank, unsaved document. */
    constructor ()
      ensures commands == [] && savedAs == None
    {
      commands := [];
      savedAs := None;
    }

    /** `doc.text(text, x, y)` draws one more line and changes nothing else. */
    method Text(text: string, x: int, y: int)
      modifies this
      ensures commands == old(commands) + [TextCmd(text, x, y)]
      ensures savedAs == old(savedAs)
    {
      commands := commands + [TextCmd(text, x, y)];
    }

    /** `lines.forEach((line, i) => doc.text(line, x, top + i * step))`. */
    method TextColumn(lines: seq<string>, x: int, top: int, step: int)
      modifies this
      ensures commands == old(commands) + Column(lines, x, top, step)
      ensures savedAs == old(savedAs)
    {
      var i := 0;
      while i < |lines|
        invariant 0 <= i <= |lines|
        invariant commands == old(commands) + Column(lines[..i], x, top, step)
        invariant savedAs == old(savedAs)
      {
        ColumnSnoc(lines[..i], lines[i], x, top, step);
        assert lines[..i + 1] == lines[..i] + [lines[i]];
        Text(lines[i], x, top + i * step);
        i := i + 1;
      }
      assert lines[..i] == lines;
    }

    /** `doc.save(name)`. */
    method Save(name: string)
      modifies this
      ensures commands == old(commands)
      ensures savedAs == Some(name)
    {
      savedAs := Some(name);
    }
  }

  /** Lines drawn one under the other: line i at (x, top + i * step). */
  function Column(lines: seq<string>, x: int, top: int, step: int): (cmds: seq<TextCmd>)
    ensures |cmds| == |lines|
    ensures forall i :: 0 <= i < |lines| ==> cmds[i] == TextCmd(lines[i], x, top + i * step)
  {
    seq(|lines|, i requires 0 <= i < |lines| => TextCmd(lines[i], x, top + i * step))
  }

  /** Drawing one more line at the bottom of a column. */
  lemma ColumnSnoc(lines: seq<string>, line: string, x: int, top: int, step: int)
    ensures Column(lines + [line], x, top, step) == Column(lines, x, top, step) + [TextCmd(line, x, top + |lines| * step)]
  {
    assert forall i :: 0 <= i < |lines| ==> (lines + [line])[i] == lines[i];
  }

  /** The y-coordinates of the commands strictly increase: no two lines
      share a position and each is drawn below the previous one. */
  predicate TopToBottom(cmds: seq<TextCmd>) {
    forall i, j :: 0 <= i < j < |cmds| ==> cmds[i].y < cmds[j].y
  }

  /** A column with a positive step runs top to bottom. */
  lemma ColumnTopToBottom(lines: seq<string>, x: int, top: int, step: int)
    requires step > 0
    ensures TopToBottom(Column(lines, x, top, step))
  {
    var cmds := Column(lines, x, top, step);
    forall i, j | 0 <= i < j < |cmds|
      ensures cmds[i].y < cmds[j].y
    {
      assert (j - i) * step > 0;
    }
  }
}
