/** From the characters of a script to the machine: scanner, layout, parser, compiler and backend one after the
    other. */
module WholeCompiler {
  import opened Words
  import opened Wrappers
  import opened Backend
  import opened BackendCorrect
  import opened BackendCalls
  import opened LoweringProgram
  import opened EndToEnd
  import opened SubsetTrees
  import opened TreeMeaning
  import MeaningKept
  import P = Python
  import S = Syntax
  import N = StmtParser
  import StmtRoundTrip
  import Layout
  import LayoutRoundTrip
  import LineScanner
  import LineRoundTrip
  import SourceLines
  import TripleQuotes
  import X = X86

  // ----- the whole way -----

  /** Source text to the program the compiler is given: `None` where a stage has no answer. */
  function Compiled(source: string): Option<P.Program> {
    var nodes := N.Parse(LayoutRoundTrip.Unstamp(SourceLines.SourceStream(LineScanner.Scan, source)));
    if nodes.None? then None else ProgramFrom(nodes.value)
  }

  /** The source text is the program `p`, written with any indentation, spacing, blank lines and comments. */
  ghost predicate Writes(source: string, p: P.Program, ss: seq<N.Node>, w: LayoutRoundTrip.Widths,
                         styles: seq<nat> -> LineRoundTrip.Style) {
    && LineRoundTrip.WritableNodes(ss) && StmtRoundTrip.WellFormedNodes(ss) && ProgramFrom(ss) == Some(p)
    && LayoutRoundTrip.Solid(SourceLines.SplitLines(TripleQuotes.Collapsed(source)))
      == LayoutRoundTrip.NodesLines(LineRoundTrip.Written(styles), w, [], 0, ss)
  }

  lemma WritesProgram(source: string, p: P.Program, ss: seq<N.Node>, w: LayoutRoundTrip.Widths,
                      styles: seq<nat> -> LineRoundTrip.Style)
    requires Writes(source, p, ss, w, styles)
    ensures ProgramFrom(ss) == Some(p)
  {
    hide ProgramFrom, LayoutRoundTrip.NodesLines, LayoutRoundTrip.Solid, LineRoundTrip.WritableNodes;
  }

  lemma SourceCompiled(source: string, p: P.Program, ss: seq<N.Node>, w: LayoutRoundTrip.Widths,
                       styles: seq<nat> -> LineRoundTrip.Style)
    requires Writes(source, p, ss, w, styles)
    ensures Compiled(source) == Some(p)
  {
    hide ProgramFrom, N.Parse, SourceLines.SourceStream, LayoutRoundTrip.Unstamp, LayoutRoundTrip.NodesLines;
    hide LayoutRoundTrip.Solid, SourceLines.SplitLines, TripleQuotes.Collapsed, LineRoundTrip.WritableNodes;
    hide StmtRoundTrip.WellFormedNodes;
    LineRoundTrip.TextRoundTrip(w, styles, ss, source);
  }

  /** For every program of the subset, with functions that call themselves and the ones before: the text is compiled,
      and running the machine code of its entry point ends with the result of the top-level statements in `rax`, or with
      the divide error where the program divides by zero, and the caller's stack as it was. */
  lemma ScriptRuns(abi: Abi, source: string, p: P.Program, ss: seq<N.Node>, w: LayoutRoundTrip.Widths,
                   styles: seq<nat> -> LineRoundTrip.Style, depth: nat, m: X.Machine)
    requires Writes(source, p, ss, w, styles) && ProgramTyped(p) && FewParams(abi, p)
    requires Supported(abi) && depth > 0 && m.rsp % 16 == 8
    ensures Compiled(source) == Some(p)
    ensures var r := NodeMain(ss, depth - 1);
      !r.Unknown? ==> Conforms(abi, r, m, MachineCall(abi, LowerProgram(p), depth, "main", m))
  {
    hide *;
    WritesProgram(source, p, ss, w, styles);
    SourceCompiled(source, p, ss, w, styles);
    MeaningKept.MainKept(ss, depth - 1);
    CompiledMain(abi, p, depth, m);
  }

  /** And calling the machine code of any of its functions returns what the function in the text returns. */
  lemma FunctionRuns(abi: Abi, source: string, p: P.Program, ss: seq<N.Node>, w: LayoutRoundTrip.Widths,
                     styles: seq<nat> -> LineRoundTrip.Style, depth: nat, f: string, args: seq<Word>, m: X.Machine)
    requires Writes(source, p, ss, w, styles) && ProgramTyped(p) && FewParams(abi, p)
    requires Supported(abi) && f in Known(p.defs, |p.defs|) && Passes(abi, args, m) && m.rsp % 16 == 8
    ensures Compiled(source) == Some(p)
    ensures var r := NodeCall(ss, depth, f, args);
      !r.Unknown? ==> Conforms(abi, r, m, MachineCall(abi, LowerProgram(p), depth, Known(p.defs, |p.defs|)[f], m))
  {
    hide *;
    WritesProgram(source, p, ss, w, styles);
    SourceCompiled(source, p, ss, w, styles);
    MeaningKept.CallKept(ss, depth, f, args);
    CompiledCall(abi, p, depth, f, args, m);
  }
}
