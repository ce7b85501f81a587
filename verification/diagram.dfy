/** `ActiveRecord::Schema#to_plantuml` (plant_uml.rb): the whole PlantUML
    document for a schema. */
module Diagram {
  import opened Text
  import opened Relations
  import opened Tables
  import opened ActiveRecordSchema

  /** The fixed opening lines: start marker, blank, the two rendering hints, blank. */
  const Preamble: seq<string> := ["@startuml", "", "hide circle", "skinparam linetype ortho", ""]

  const EndMarker: string := "@enduml"

  function TableBlocks(tables: seq<Table>): seq<string>
  {
    seq(|tables|, i requires 0 <= i < |tables| => TableBlock(tables[i]))
  }

  function RelationLines(relations: seq<Relation>): seq<string>
  {
    seq(|relations|, i requires 0 <= i < |relations| => RelationLine(relations[i]))
  }

  /** The document, written as the heredoc is: preamble, the entity blocks
      joined by newlines, a blank line, the edge lines joined by newlines,
      a blank line, the end marker. */
  function Render(s: Schema): (doc: string)
    ensures doc == Unlines(DocumentLines(s))
  {
    TableSectionText(s.tables);
    RelationSectionText(s.relations);
    UnlinesDocument(Preamble, TableSection(s.tables), RelationSection(s.relations));
    Unlines(Preamble)
      + (Join(TableBlocks(s.tables), "\n") + "\n")
      + "\n"
      + (Join(RelationLines(s.relations), "\n") + "\n")
      + "\n"
      + EndMarker + "\n"
  }

  /** The reference lines of each table, in table order. */
  function TableGroups(tables: seq<Table>): seq<seq<string>>
  {
    seq(|tables|, i requires 0 <= i < |tables| => TableLines(tables[i]))
  }

  /** The lines the entity-block interpolation produces; with no table it
      is one empty line. */
  function TableSection(tables: seq<Table>): seq<string>
  {
    if |tables| == 0 then [""] else Paragraphs(TableGroups(tables))
  }

  /** The lines the edge interpolation produces; with no relation it is one
      empty line. */
  function RelationSection(relations: seq<Relation>): seq<string>
  {
    if |relations| == 0 then [""] else RelationLines(relations)
  }

  /** Reference definition of the document, line by line: the preamble,
      all entity blocks in table order, then all edges in relation order,
      then the end marker. */
  function DocumentLines(s: Schema): seq<string>
  {
    Preamble + TableSection(s.tables) + [""] + RelationSection(s.relations) + ["", EndMarker]
  }

  lemma TableSectionText(tables: seq<Table>)
    ensures Join(TableBlocks(tables), "\n") + "\n" == Unlines(TableSection(tables))
  {
    if |tables| == 0 {
      assert Unlines([""]) == "\n";
    } else {
      assert forall i :: 0 <= i < |tables| ==> TableBlocks(tables)[i] == Unlines(TableGroups(tables)[i]);
      JoinParagraphs(TableBlocks(tables), TableGroups(tables));
    }
  }

  lemma RelationSectionText(relations: seq<Relation>)
    ensures Join(RelationLines(relations), "\n") + "\n" == Unlines(RelationSection(relations))
  {
    if |relations| == 0 {
      assert Unlines([""]) == "\n";
    } else {
      JoinNewlines(RelationLines(relations));
    }
  }

  /** The line view of a document assembled from its five parts. */
  lemma UnlinesDocument(p: seq<string>, t: seq<string>, r: seq<string>)
    ensures Unlines(p + t + [""] + r + ["", EndMarker])
      == Unlines(p) + Unlines(t) + "\n" + Unlines(r) + "\n" + EndMarker + "\n"
  {
    UnlinesCons("", []);
    assert [""] + [] == [""];
    UnlinesCons(EndMarker, []);
    assert [EndMarker] + [] == [EndMarker];
    UnlinesCons("", [EndMarker]);
    assert [""] + [EndMarker] == ["", EndMarker];
    UnlinesAppend(p, t);
    UnlinesAppend(p + t, [""]);
    UnlinesAppend(p + t + [""], r);
    UnlinesAppend(p + t + [""] + r, ["", EndMarker]);
  }


  /** Table `i`'s block sits after the blocks of all earlier tables and
      before those of all later ones. */
  lemma TableBlockInOrder(tables: seq<Table>, i: nat)
    requires i < |tables|
    ensures TableSection(tables) ==
      Paragraphs(TableGroups(tables[..i])) + (TableLines(tables[i]) + [""] + Paragraphs(TableGroups(tables[i + 1..])))
  {
    var g := TableGroups(tables);
    ParagraphAt(g, i);
    assert g[..i] == TableGroups(tables[..i]);
    assert g[i + 1..] == TableGroups(tables[i + 1..]);
  }

  /** Every document starts with the preamble lines and ends with a blank
      line followed by the end marker. */
  lemma RenderFrame(s: Schema)
    ensures |Render(s)| >= |Unlines(Preamble)| + |EndMarker| + 3
    ensures Render(s)[..|Unlines(Preamble)|] == Unlines(Preamble)
    ensures Render(s)[|Render(s)| - |EndMarker| - 3..] == "\n\n" + EndMarker + "\n"
  {
  }

  /** With no tables and no relations only the fixed lines remain. */
  lemma EmptyRender()
    ensures DocumentLines(Empty) == Preamble + ["", "", "", "", EndMarker]
    ensures Render(Empty) == Unlines(Preamble) + "\n\n\n\n" + EndMarker + "\n"
  {
    UnlinesAppend(Preamble, ["", "", "", "", EndMarker]);
  }

  /** Edge lines come last, in relation order, right before the closing
      blank line and end marker. */
  lemma RelationsLast(s: Schema)
    ensures DocumentLines(s)[|DocumentLines(s)| - |s.relations| - 2..] == RelationLines(s.relations) + ["", EndMarker]
  {
  }
}
