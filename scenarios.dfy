/**
 * Concrete bars and what rendering them yields, worked through the
 * model: a clock between two dynamic spacers, a three-separator segment
 * of three modules, and a bar without a dynamic spacer.
 */
module Scenarios {
  import opened Wrappers
  import opened Seqs
  import opened Segments
  import opened Assembly

  /** A decoration whose coloured form is its plain text. */
  function PlainColored(s: string): Colored
  {
    Colored(s, s)
  }

  /** A module that wraps `text` in the decorations it is given and reports `width`. */
  function Fixed(text: string, width: U16): Module
  {
    Module((left, right) => Some(Rendered(left + text + right, width)))
  }

  function Clock(): Segment
  {
    StatusSeg([Fixed("CLK", 3)], Two(EmptyColored, EmptyColored))
  }

  /** The clock segment: undecorated, three columns wide. */
  lemma ClockSegment(fill: string)
    ensures SegmentWidth(Clock()) == 3
    ensures SegmentText(fill)(Clock()) == "CLK"
  {
    var hs := Handles([Fixed("CLK", 3)], Two(EmptyColored, EmptyColored));
    assert hs[0] == Launch(Fixed("CLK", 3), (EmptyColored, EmptyColored));
    assert "" + "CLK" + "" == "CLK";
    assert hs == [Some(Rendered("CLK", 3))];
    TwoSepLen(EmptyColored, EmptyColored, 1);
    SumStep(hs, 0, JoinWidth);
    assert hs[..1] == hs;
    FlatMapSingleton(Some(Rendered("CLK", 3)), JoinText);
  }

  function ClockBar(): seq<Segment>
  {
    [DynSpacer, Clock(), DynSpacer]
  }

  /** The clock bar takes three fixed columns and has two dynamic spacers. */
  lemma ClockBarTotals()
    ensures FixedWidth(ClockBar()) == 3 && DynCount(ClockBar()) == 2
  {
    var segs := ClockBar();
    ClockSegment("");
    SumAt(segs, 1, SegmentWidth);
    SumAt(segs, 1, DynIndicator);
    assert segs[..1] == [DynSpacer] && segs[2..] == [DynSpacer];
  }

  /** The clock bar's line is the clock between two copies of the spacers' fill. */
  lemma ClockBarLine(fill: string)
    ensures Line(ClockBar(), fill) == fill + "CLK" + fill
  {
    var segs := ClockBar();
    ClockSegment(fill);
    LineAt(segs, 1, fill);
    assert segs[..1] == [DynSpacer] && segs[2..] == [DynSpacer];
    FlatMapSingleton(DynSpacer, SegmentText(fill));
  }

  /** A clock of width 3 between two dynamic spacers, at width 11: four blanks on each side. */
  lemma ClockBetweenSpacers()
    ensures RenderSpec([DynSpacer, Clock(), DynSpacer], 11) == Ok("    CLK    ")
  {
    ClockBarTotals();
    RenderSpecOf(ClockBar(), 11, 3, 2);
    ClockBarLine(Spaces(4));
    assert Spaces(4) == "    ";
    assert "    " + "CLK" + "    " == "    CLK    ";
  }

  function Brackets(): SegSepTypes
  {
    Three(PlainColored("["), PlainColored("|"), PlainColored("]"))
  }

  function Bracketed(): seq<Module>
  {
    [Fixed("a", 1), Fixed("a", 1), Fixed("a", 1)]
  }

  /** Under Brackets(), the first module opens with the bracket and each ends with its right-hand mark. */
  lemma BracketedHandles()
    ensures Handles(Bracketed(), Brackets())
         == [Some(Rendered("[a|", 1)), Some(Rendered("a|", 1)), Some(Rendered("a]", 1))]
  {
    var hs := Handles(Bracketed(), Brackets());
    assert hs[0] == Launch(Fixed("a", 1), (PlainColored("["), PlainColored("|")));
    assert hs[1] == Launch(Fixed("a", 1), (EmptyColored, PlainColored("|")));
    assert hs[2] == Launch(Fixed("a", 1), (EmptyColored, PlainColored("]")));
    assert "[" + "a" + "|" == "[a|" && "" + "a" + "|" == "a|" && "" + "a" + "]" == "a]";
  }

  /**
   * Three modules of text "a" under Three("[", "|", "]"): the segment's
   * module texts are "[a|a|a]" and it is seven columns wide, four of
   * them decorations.
   */
  lemma BracketedModules()
    ensures ModuleTexts(Handles([Fixed("a", 1), Fixed("a", 1), Fixed("a", 1)], Brackets())) == "[a|a|a]"
    ensures SegmentWidth(StatusSeg([Fixed("a", 1), Fixed("a", 1), Fixed("a", 1)], Brackets())) == 7
  {
    var hs := Handles(Bracketed(), Brackets());
    BracketedHandles();
    assert hs[..2][..1] == [hs[0]];
    FlatMapSingleton(hs[0], JoinText);
    FlatMapStep(hs, 1, JoinText);
    FlatMapStep(hs, 2, JoinText);
    assert hs[..3] == hs;
    SumStep(hs, 0, JoinWidth);
    SumStep(hs, 1, JoinWidth);
    SumStep(hs, 2, JoinWidth);
    ThreeSepLen(PlainColored("["), PlainColored("|"), PlainColored("]"), 3);
  }

  /**
   * A static spacer and one module, with no dynamic spacer: the division
   * by the spacer count has nothing to divide by, so the render panics.
   */
  lemma NoDynamicSpacer()
    ensures RenderSpec([StaticSpacer(2), StatusSeg([Fixed("X", 1)], One(EmptyColored))], 10)
         == Err(DivideByZero)
  {
    var segs := [StaticSpacer(2), StatusSeg([Fixed("X", 1)], One(EmptyColored))];
    var hs := Handles([Fixed("X", 1)], One(EmptyColored));
    OneSepLen(EmptyColored, 1);
    SumStep(hs, 0, JoinWidth);
    assert hs[..1] == hs;
    SumStep(segs, 0, SegmentWidth);
    SumStep(segs, 1, SegmentWidth);
    SumStep(segs, 0, DynIndicator);
    SumStep(segs, 1, DynIndicator);
    assert segs[..2] == segs;
    assert FixedWidth(segs) == 3;
    assert DynCount(segs) == 0;
  }
}
