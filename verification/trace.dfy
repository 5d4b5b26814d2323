/** The in-memory trace sink of the build command (cmd/yb/build.go): spans are filed as roots
    or under their parent as they arrive, and dumped as a table whose span names are indented
    by depth, cut off below the third level with a "..." line. */
module Trace {
  import opened Text

  /** A span id; 0 is the invalid id that marks a span without a parent. */
  type SpanId = nat

  const InvalidSpan: SpanId := 0

  /** A finished span. `start`, `end` and `elapsed` are its clock times and duration already
      formatted as the dump prints them. */
  datatype Span = Span(id: SpanId, parent: SpanId, name: string, start: string, end: string, elapsed: string)

  datatype SinkState = SinkState(roots: seq<Span>, children: map<SpanId, seq<Span>>)

  const EmptySink: SinkState := SinkState([], map[])

  /** The spans filed under `parent`: the roots for the invalid id, otherwise that parent's
      children (none when the map has no entry). */
  function List(st: SinkState, parent: SpanId): seq<Span>
  {
    if parent == InvalidSpan then st.roots
    else if parent in st.children then st.children[parent]
    else []
  }

  /** `ExportSpan`: a span without a valid parent is appended to the roots, any other to its
      parent's children. */
  function Exported(st: SinkState, s: Span): (r: SinkState)
    ensures List(r, s.parent) == List(st, s.parent) + [s]
    ensures forall p :: p != s.parent ==> List(r, p) == List(st, p)
  {
    if s.parent == InvalidSpan then st.(roots := st.roots + [s])
    else st.(children := st.children[s.parent := List(st, s.parent) + [s]])
  }

  /** Exporting spans one after the other. */
  function ExportAll(st: SinkState, spans: seq<Span>): SinkState
    decreases |spans|
  {
    if spans == [] then st else Exported(ExportAll(st, spans[..|spans| - 1]), spans[|spans| - 1])
  }

  /** The spans with the given parent, in arrival order. */
  function WithParent(spans: seq<Span>, parent: SpanId): (r: seq<Span>)
    ensures forall i :: 0 <= i < |r| ==> r[i].parent == parent && r[i] in spans
    decreases |spans|
  {
    if spans == [] then []
    else
      var r := WithParent(spans[..|spans| - 1], parent);
      assert forall x :: x in spans[..|spans| - 1] ==> x in spans;
      if spans[|spans| - 1].parent == parent then r + [spans[|spans| - 1]] else r
  }

  /** Filing keeps arrival order within each parent: after exporting `spans` into an empty
      sink, the list under any parent is exactly the spans naming it, in the order they came. */
  lemma {:induction false} ExportGroups(spans: seq<Span>, parent: SpanId)
    ensures List(ExportAll(EmptySink, spans), parent) == WithParent(spans, parent)
    decreases |spans|
  {
    if spans != [] {
      ExportGroups(spans[..|spans| - 1], parent);
    }
  }

  /** A line of the dump. */
  datatype Row = SpanRow(depth: nat, span: Span) | Elided(depth: nat)

  /** How many levels are left before the cut-off. */
  function Rank(depth: nat): nat
  {
    if depth >= 3 then 0 else 3 - depth
  }

  /** `dumpLocked(parent, depth)` as rows: at depth 3 or more, one "..." row when the list is
      not empty and nothing otherwise; below, each span of the list followed by its subtree
      one level deeper. */
  function Rows(st: SinkState, parent: SpanId, depth: nat): seq<Row>
    decreases Rank(depth), 1, 0
  {
    if depth >= 3 then (if |List(st, parent)| > 0 then [Elided(depth)] else [])
    else RowsOfList(st, List(st, parent), depth)
  }

  function RowsOfList(st: SinkState, list: seq<Span>, depth: nat): seq<Row>
    requires depth < 3
    decreases Rank(depth), 0, |list|
  {
    if list == [] then []
    else
      var last := list[|list| - 1];
      RowsOfList(st, list[..|list| - 1], depth) + [SpanRow(depth, last)] + Rows(st, last.id, depth + 1)
  }

  /** The rows lie between the depth the walk started at and the cut-off. */
  predicate DepthsFrom(rows: seq<Row>, depth: nat)
  {
    forall i :: 0 <= i < |rows| ==>
      && depth <= rows[i].depth
      && (rows[i].SpanRow? ==> rows[i].depth < 3)
      && (rows[i].Elided? ==> rows[i].depth == if depth >= 3 then depth else 3)
  }

  /** The cut-off: every span row is above depth 3, the "..." rows are at the depth the walk
      was cut at, and no row is shallower than where the walk started. */
  lemma {:induction false} RowsDepths(st: SinkState, parent: SpanId, depth: nat)
    ensures DepthsFrom(Rows(st, parent, depth), depth)
    decreases Rank(depth), 1, 0
  {
    if depth < 3 {
      RowsOfListDepths(st, List(st, parent), depth);
    }
  }

  lemma {:induction false} RowsOfListDepths(st: SinkState, list: seq<Span>, depth: nat)
    requires depth < 3
    ensures DepthsFrom(RowsOfList(st, list, depth), depth)
    decreases Rank(depth), 0, |list|
  {
    if list != [] {
      var last := list[|list| - 1];
      var before := RowsOfList(st, list[..|list| - 1], depth);
      var sub := Rows(st, last.id, depth + 1);
      RowsOfListDepths(st, list[..|list| - 1], depth);
      RowsDepths(st, last.id, depth + 1);
      var r := before + [SpanRow(depth, last)] + sub;
      assert forall i :: |before| + 1 <= i < |r| ==> r[i] == sub[i - |before| - 1];
    }
  }

  /** The spans of the rows at one depth, in order. */
  function SpansAt(rows: seq<Row>, depth: nat): seq<Span>
    decreases |rows|
  {
    if rows == [] then []
    else
      var last := rows[|rows| - 1];
      SpansAt(rows[..|rows| - 1], depth) + (if last.SpanRow? && last.depth == depth then [last.span] else [])
  }

  lemma {:induction false} SpansAtAppend(a: seq<Row>, b: seq<Row>, depth: nat)
    ensures SpansAt(a + b, depth) == SpansAt(a, depth) + SpansAt(b, depth)
    decreases |b|
  {
    if b != [] {
      var ab := a + b;
      assert ab[..|ab| - 1] == a + b[..|b| - 1];
      assert ab[|ab| - 1] == b[|b| - 1];
      SpansAtAppend(a, b[..|b| - 1], depth);
    } else {
      assert a + b == a;
    }
  }

  lemma {:induction false} SpansAtDeeper(rows: seq<Row>, depth: nat)
    requires forall i :: 0 <= i < |rows| ==> depth < rows[i].depth
    ensures SpansAt(rows, depth) == []
    decreases |rows|
  {
    if rows != [] {
      SpansAtDeeper(rows[..|rows| - 1], depth);
    }
  }

  /** The rows at the depth a list is rendered at are that list's spans, in order: each span's
      subtree lies deeper. */
  lemma {:induction false} ListAtItsDepth(st: SinkState, list: seq<Span>, depth: nat)
    requires depth < 3
    ensures SpansAt(RowsOfList(st, list, depth), depth) == list
    decreases |list|
  {
    if list != [] {
      ListAtItsDepth(st, list[..|list| - 1], depth);
      ListAtItsDepthStep(st, list, depth);
    }
  }

  lemma ListAtItsDepthStep(st: SinkState, list: seq<Span>, depth: nat)
    requires list != [] && depth < 3
    requires SpansAt(RowsOfList(st, list[..|list| - 1], depth), depth) == list[..|list| - 1]
    ensures SpansAt(RowsOfList(st, list, depth), depth) == list
  {
    var init := list[..|list| - 1];
    var last := list[|list| - 1];
    var sub := Rows(st, last.id, depth + 1);
    RowsOfListSnoc(st, list, depth);
    RowsDepths(st, last.id, depth + 1);
    SpansAtStep(RowsOfList(st, list, depth), RowsOfList(st, init, depth), last, sub, depth, init);
    SnocLast(list);
  }

  lemma SnocLast<T>(xs: seq<T>)
    requires xs != []
    ensures xs[..|xs| - 1] + [xs[|xs| - 1]] == xs
  {
  }

  /** The rows of a list: those of all but its last span, then the last span and its subtree. */
  lemma RowsOfListSnoc(st: SinkState, list: seq<Span>, depth: nat)
    requires list != [] && depth < 3
    ensures RowsOfList(st, list, depth)
      == RowsOfList(st, list[..|list| - 1], depth) + [SpanRow(depth, list[|list| - 1])] + Rows(st, list[|list| - 1].id, depth + 1)
  {
  }

  /** A span row at the depth, followed by deeper rows, adds just its span. */
  lemma SpansAtStep(rows: seq<Row>, before: seq<Row>, s: Span, sub: seq<Row>, depth: nat, init: seq<Span>)
    requires rows == before + [SpanRow(depth, s)] + sub
    requires DepthsFrom(sub, depth + 1)
    requires SpansAt(before, depth) == init
    ensures SpansAt(rows, depth) == init + [s]
  {
    SpansAtDeeper(sub, depth);
    SpansAtAppend(before + [SpanRow(depth, s)], sub, depth);
    SpansAtAppend(before, [SpanRow(depth, s)], depth);
    assert [SpanRow(depth, s)][..0] == [];
    assert SpansAt([SpanRow(depth, s)], depth) == [s];
  }

  /** The top level of the dump is the root spans, in the order they were exported. */
  lemma RootsInOrder(st: SinkState)
    ensures SpansAt(Rows(st, InvalidSpan, 0), 0) == st.roots
  {
    ListAtItsDepth(st, st.roots, 0);
  }

  /** The dump looks only at the lists under each parent: two sinks that file the same spans
      under every parent render the same rows. */
  lemma {:induction false} RowsDependOnLists(a: SinkState, b: SinkState, parent: SpanId, depth: nat)
    requires forall p :: List(a, p) == List(b, p)
    ensures Rows(a, parent, depth) == Rows(b, parent, depth)
    decreases Rank(depth), 1, 0
  {
    if depth < 3 {
      assert List(a, parent) == List(b, parent);
      RowsOfListDependOnLists(a, b, List(a, parent), depth);
    }
  }

  lemma {:induction false} RowsOfListDependOnLists(a: SinkState, b: SinkState, list: seq<Span>, depth: nat)
    requires forall p :: List(a, p) == List(b, p)
    requires depth < 3
    ensures RowsOfList(a, list, depth) == RowsOfList(b, list, depth)
    decreases Rank(depth), 0, |list|
  {
    if list != [] {
      RowsOfListDependOnLists(a, b, list[..|list| - 1], depth);
      RowsDependOnLists(a, b, list[|list| - 1].id, depth + 1);
    }
  }

  /** Interleaving does not matter: two arrival orders that agree on the order of the spans
      under each parent give the same dump. */
  lemma ArrivalOrderAcrossParents(s1: seq<Span>, s2: seq<Span>)
    requires forall p :: WithParent(s1, p) == WithParent(s2, p)
    ensures Rows(ExportAll(EmptySink, s1), InvalidSpan, 0) == Rows(ExportAll(EmptySink, s2), InvalidSpan, 0)
  {
    var a := ExportAll(EmptySink, s1);
    var b := ExportAll(EmptySink, s2);
    forall p ensures List(a, p) == List(b, p) {
      ExportGroups(s1, p);
      ExportGroups(s2, p);
    }
    RowsDependOnLists(a, b, InvalidSpan, 0);
  }

  const StartWidth: nat := 14
  const EndWidth: nat := 14
  const ElapsedWidth: nat := 14
  const Indent: string := "  "

  /** The header: the three column titles, each padded to its width. */
  const Header: string :=
    PadRight("Start", StartWidth) + " " + PadRight("End", EndWidth) + " " + PadRight("Elapsed", ElapsedWidth) + "\n"

  /** A span line: start and end padded, elapsed seconds right-aligned one narrower and
      followed by "s", then the name indented by depth. */
  function SpanLine(s: Span, depth: nat): string
  {
    PadRight(s.start, StartWidth) + " " + PadRight(s.end, EndWidth) + " " + PadLeft(s.elapsed, ElapsedWidth - 1)
      + "s " + Repeat(Indent, depth) + s.name + "\n"
  }

  /** The cut-off line: spaces the width of the three columns and their separators, the
      indentation of its depth, and "...". */
  function ElidedLine(depth: nat): string
  {
    Spaces(StartWidth + EndWidth + ElapsedWidth + 3) + Repeat(Indent, depth) + "...\n"
  }

  function RowText(r: Row): string
  {
    match r
    case SpanRow(depth, s) => SpanLine(s, depth)
    case Elided(depth) => ElidedLine(depth)
  }

  /** The lines of the rows, in order. */
  function Lines(rows: seq<Row>): (r: seq<string>)
    ensures |r| == |rows|
    ensures forall i :: 0 <= i < |rows| ==> r[i] == RowText(rows[i])
  {
    seq(|rows|, i requires 0 <= i < |rows| => RowText(rows[i]))
  }

  /** The pieces written one after the other. */
  function Concat(parts: seq<string>): string
    decreases |parts|
  {
    if parts == [] then "" else Concat(parts[..|parts| - 1]) + parts[|parts| - 1]
  }

  lemma {:induction false} ConcatAppend(a: seq<string>, b: seq<string>)
    ensures Concat(a + b) == Concat(a) + Concat(b)
    decreases |b|
  {
    if b == [] {
      assert a + b == a;
    } else {
      var ab := a + b;
      assert ab[..|ab| - 1] == a + b[..|b| - 1];
      assert ab[|ab| - 1] == b[|b| - 1];
      ConcatAppend(a, b[..|b| - 1]);
    }
  }

  /** The text of the rows. */
  function Render(rows: seq<Row>): string
  {
    Concat(Lines(rows))
  }

  lemma RenderAppend(a: seq<Row>, b: seq<Row>)
    ensures Render(a + b) == Render(a) + Render(b)
  {
    var la, lb, lab := Lines(a), Lines(b), Lines(a + b);
    forall i | 0 <= i < |lab|
      ensures lab[i] == (la + lb)[i]
    {
      if i < |a| {
        assert (a + b)[i] == a[i];
      } else {
        assert (a + b)[i] == b[i - |a|];
      }
    }
    assert lab == la + lb;
    ConcatAppend(la, lb);
  }

  lemma RenderOne(r: Row)
    ensures Render([r]) == RowText(r)
  {
    var lines := Lines([r]);
    assert lines == [RowText(r)];
    assert lines[..0] == [];
    assert Concat(lines) == Concat(lines[..0]) + lines[0];
  }

  /** Rendering one more span of a list adds its line and then its subtree. */
  lemma RenderListStep(st: SinkState, list: seq<Span>, i: nat, depth: nat, prefix: string)
    requires i < |list| && depth < 3
    ensures prefix + Render(RowsOfList(st, list[..i], depth)) + SpanLine(list[i], depth) + Render(Rows(st, list[i].id, depth + 1))
      == prefix + Render(RowsOfList(st, list[..i + 1], depth))
  {
    var a := Render(RowsOfList(st, list[..i], depth));
    var line := SpanLine(list[i], depth);
    var b := Render(Rows(st, list[i].id, depth + 1));
    RenderRowsStep(st, list, i, depth);
    Associate(prefix, a, line, b);
  }

  lemma RenderRowsStep(st: SinkState, list: seq<Span>, i: nat, depth: nat)
    requires i < |list| && depth < 3
    ensures Render(RowsOfList(st, list[..i + 1], depth))
      == Render(RowsOfList(st, list[..i], depth)) + RowText(SpanRow(depth, list[i])) + Render(Rows(st, list[i].id, depth + 1))
  {
    assert list[..i + 1][..i] == list[..i];
    var before := RowsOfList(st, list[..i], depth);
    var row := SpanRow(depth, list[i]);
    var sub := Rows(st, list[i].id, depth + 1);
    assert RowsOfList(st, list[..i + 1], depth) == before + [row] + sub;
    RenderAppend(before + [row], sub);
    RenderAppend(before, [row]);
    RenderOne(row);
  }

  lemma Associate(p: string, a: string, b: string, c: string)
    ensures p + a + b + c == p + (a + b + c)
  {
  }

  /** The cut-off line is 45 spaces, two more per level, and "...". */
  lemma ElidedLineShape(depth: nat)
    ensures var line := ElidedLine(depth);
      && |line| == 45 + 2 * depth + 4
      && (forall i :: 0 <= i < 45 + 2 * depth ==> line[i] == ' ')
      && line[45 + 2 * depth..] == "...\n"
  {
    var line := ElidedLine(depth);
    var pad := Spaces(45) + Repeat(Indent, depth);
    assert line == pad + "...\n";
    AllSpaces(" ", 45);
    AllSpaces(Indent, depth);
    assert forall i :: 0 <= i < |pad| ==> pad[i] == ' ';
  }

  /** A chain Build > target > setup > step renders its first three levels and cuts the
      fourth to a "..." line at depth 3. */
  lemma CutOffExample(build: Span, target: Span, setup: Span, step: Span)
    requires build.id == 1 && build.parent == InvalidSpan
    requires target.id == 2 && target.parent == 1
    requires setup.id == 3 && setup.parent == 2
    requires step.id == 4 && step.parent == 3
    ensures Rows(ExportAll(EmptySink, [build, target, setup, step]), InvalidSpan, 0)
      == [SpanRow(0, build), SpanRow(1, target), SpanRow(2, setup), Elided(3)]
  {
    var st := ExportAll(EmptySink, [build, target, setup, step]);
    ChainLists(build, target, setup, step);
    RowsOfSingle(st, setup, 2);
    RowsOfSingle(st, target, 1);
    RowsOfSingle(st, build, 0);
  }

  /** The chain files one span under each of the invalid id and ids 1, 2 and 3. */
  lemma ChainLists(build: Span, target: Span, setup: Span, step: Span)
    requires build.id == 1 && build.parent == InvalidSpan
    requires target.id == 2 && target.parent == 1
    requires setup.id == 3 && setup.parent == 2
    requires step.id == 4 && step.parent == 3
    ensures var st := ExportAll(EmptySink, [build, target, setup, step]);
      List(st, 0) == [build] && List(st, 1) == [target] && List(st, 2) == [setup] && List(st, 3) == [step]
  {
    var spans := [build, target, setup, step];
    var s1, s2, s3 := spans[..1], spans[..2], spans[..3];
    assert s3[..2] == s2 && s2[..1] == s1 && s1[..0] == [];
    assert s1 == [build] && s2 == s1 + [target] && s3 == s2 + [setup] && spans == s3 + [step];
    assert WithParent(s1, 0) == [build];
    assert WithParent(spans, 0) == [build] by {
      assert WithParent(s2, 0) == [build];
      assert WithParent(s3, 0) == [build];
    }
    assert WithParent(spans, 1) == [target] by {
      assert WithParent(s1, 1) == [];
      assert WithParent(s2, 1) == [target];
      assert WithParent(s3, 1) == [target];
    }
    assert WithParent(spans, 2) == [setup] by {
      assert WithParent(s2, 2) == [] by { assert WithParent(s1, 2) == []; }
      assert WithParent(s3, 2) == [setup];
    }
    assert WithParent(spans, 3) == [step] by {
      assert WithParent(s3, 3) == [] by {
        assert WithParent(s2, 3) == [] by { assert WithParent(s1, 3) == []; }
      }
    }
    ExportGroups(spans, 0);
    ExportGroups(spans, 1);
    ExportGroups(spans, 2);
    ExportGroups(spans, 3);
  }

  /** A one-span list renders the span and then its subtree. */
  lemma RowsOfSingle(st: SinkState, s: Span, depth: nat)
    requires depth < 3
    ensures RowsOfList(st, [s], depth) == [SpanRow(depth, s)] + Rows(st, s.id, depth + 1)
  {
    assert [s][..0] == [];
  }

  /** A `strings.Builder`. */
  class Builder {
    var text: string

    constructor ()
      ensures text == ""
    {
      text := "";
    }

    method WriteString(s: string)
      modifies this
      ensures text == old(text) + s
    {
      text := text + s;
    }

    method WriteByte(c: char)
      modifies this
      ensures text == old(text) + [c]
    {
      text := text + [c];
    }
  }

  /** `writeSpaces`: `n` blanks, one byte at a time. */
  method WriteSpaces(sb: Builder, n: nat)
    modifies sb
    ensures sb.text == old(sb.text) + Spaces(n)
  {
    for i := 0 to n
      invariant sb.text == old(sb.text) + Spaces(i)
    {
      sb.WriteByte(' ');
    }
  }

  /** The cut-off line, written as `dumpLocked` writes it. */
  method WriteElided(sb: Builder, depth: nat)
    modifies sb
    ensures sb.text == old(sb.text) + ElidedLine(depth)
  {
    WriteSpaces(sb, StartWidth + EndWidth + ElapsedWidth + 3);
    for i := 0 to depth
      invariant sb.text == old(sb.text) + Spaces(StartWidth + EndWidth + ElapsedWidth + 3) + Repeat(Indent, i)
    {
      sb.WriteString(Indent);
    }
    sb.WriteString("...\n");
  }

  /** The sink; the mutex around it is left out. */
  class TraceSink {
    var roots: seq<Span>
    var children: map<SpanId, seq<Span>>

    function State(): SinkState
      reads this
    {
      SinkState(roots, children)
    }

    /** The zero value: an empty sink. */
    constructor ()
      ensures State() == EmptySink
    {
      roots := [];
      children := map[];
    }

    method ExportSpan(span: Span)
      modifies this
      ensures State() == Exported(old(State()), span)
    {
      if span.parent == InvalidSpan {
        roots := roots + [span];
        return;
      }
      var siblings := if span.parent in children then children[span.parent] else [];
      children := children[span.parent := siblings + [span]];
    }

    /** `dump`: the header, then the rows of the roots' forest. */
    method Dump() returns (s: string)
      ensures s == Header + Render(Rows(State(), InvalidSpan, 0))
    {
      var sb := new Builder();
      sb.WriteString(Header);
      assert sb.text == Header;
      DumpLocked(sb, InvalidSpan, 0);
      s := sb.text;
    }

    method DumpLocked(sb: Builder, parent: SpanId, depth: nat)
      modifies sb
      ensures sb.text == old(sb.text) + Render(Rows(State(), parent, depth))
      decreases Rank(depth), 2
    {
      var list := roots;
      if parent != InvalidSpan {
        list := if parent in children then children[parent] else [];
      }
      assert list == List(State(), parent);
      if depth >= 3 {
        if |list| > 0 {
          WriteElided(sb, depth);
          RenderOne(Elided(depth));
        } else {
          assert Render([]) == "";
        }
        return;
      }
      DumpList(sb, list, depth);
    }

    /** The loop of `dumpLocked` below the cut-off: each span's line, then its subtree. */
    method DumpList(sb: Builder, list: seq<Span>, depth: nat)
      requires depth < 3
      modifies sb
      ensures sb.text == old(sb.text) + Render(RowsOfList(State(), list, depth))
      decreases Rank(depth), 1
    {
      assert list[..0] == [];
      for i := 0 to |list|
        invariant sb.text == old(sb.text) + Render(RowsOfList(State(), list[..i], depth))
      {
        DumpSpan(sb, list[i], depth);
        RenderListStep(State(), list, i, depth, old(sb.text));
      }
      assert list[..|list|] == list;
    }

    /** One span's line, then its subtree one level deeper. */
    method DumpSpan(sb: Builder, span: Span, depth: nat)
      requires depth < 3
      modifies sb
      ensures sb.text == old(sb.text) + SpanLine(span, depth) + Render(Rows(State(), span.id, depth + 1))
      decreases Rank(depth), 0
    {
      sb.WriteString(SpanLine(span, depth));
      DumpLocked(sb, span.id, depth + 1);
    }
  }
}
