/**
 * What one render of the bar computes (src/bar.rs:44-109), stated twice:
 * once segment by segment (FixedWidth, DynCount, Line, RenderSpec), and
 * once pass by pass over the intermediate `BuildingBlock` sequences the
 * render loops build. The lemmas connecting the two are what the render
 * method needs; the remaining lemmas are the properties of a render.
 */
module Assembly {
  import opened Wrappers
  import opened Seqs
  import opened Segments

  /**
   * An element of the intermediate sequences: a dynamic spacer not yet
   * sized, finished text, or the joined results of one segment's modules.
   */
  datatype BuildingBlock =
    | Dyn
    | Finished(text: string)
    | SegBuilders(handles: seq<Option<Rendered>>)

  /** The panics a render can hit, with overflow checks on (debug build). */
  datatype Panic =
    | AddOverflow       // a `+=` on one of the u16 counters
    | SubtractOverflow  // `w - len` with len > w
    | DivideByZero      // no dynamic spacer

  /** A joined module: its own result, or "ERR" of width 0 when its thread panicked. */
  function Join(h: Option<Rendered>): (r: Rendered)
    ensures h.Some? ==> r == h.value
    ensures h.None? ==> r.text == "ERR" && r.width == 0
  {
    match h
    case Some(v) => v
    case None => Rendered("ERR", 0)
  }

  function JoinText(h: Option<Rendered>): string
  {
    Join(h).text
  }

  function JoinWidth(h: Option<Rendered>): nat
  {
    Join(h).width
  }

  /** `n` blanks. */
  function Spaces(n: nat): (s: string)
    ensures |s| == n
    ensures forall i :: 0 <= i < n ==> s[i] == ' '
  {
    if n == 0 then "" else Spaces(n - 1) + " "
  }

  // ---------------------------------------------------------------------
  // Segment by segment
  // ---------------------------------------------------------------------

  /** The texts of a segment's modules, in module order. */
  function ModuleTexts(hs: seq<Option<Rendered>>): string
  {
    FlatMap(hs, JoinText)
  }

  /** The widths the modules of a segment report. */
  function ModuleWidths(hs: seq<Option<Rendered>>): nat
  {
    Sum(hs, JoinWidth)
  }

  /** The fixed width a segment contributes: its static width, or its decorations plus its modules. */
  function SegmentWidth(seg: Segment): nat
  {
    match seg
    case DynSpacer => 0
    case StaticSpacer(space) => space
    case StatusSeg(mods, seps) => SegSepLen(seps, |mods|) + ModuleWidths(Handles(mods, seps))
  }

  function DynIndicator(seg: Segment): nat
  {
    if seg.DynSpacer? then 1 else 0
  }

  /** The total width of everything but the dynamic spacers. */
  function FixedWidth(segs: seq<Segment>): nat
  {
    Sum(segs, SegmentWidth)
  }

  /** The number of dynamic spacers. */
  function DynCount(segs: seq<Segment>): nat
  {
    Sum(segs, DynIndicator)
  }

  /** The text of a segment when every dynamic spacer is rendered as `fill`. */
  function SegmentText(fill: string): Segment -> string
  {
    (seg: Segment) =>
      match seg
      case DynSpacer => fill
      case StaticSpacer(space) => Spaces(space)
      case StatusSeg(mods, seps) => ModuleTexts(Handles(mods, seps))
  }

  /** The line: every segment's text, in segment order. */
  function Line(segs: seq<Segment>, fill: string): string
  {
    FlatMap(segs, SegmentText(fill))
  }

  /** The number of blanks each dynamic spacer gets. */
  function DynWidth(segs: seq<Segment>, w: nat): nat
    requires FixedWidth(segs) <= w && DynCount(segs) > 0
  {
    (w - FixedWidth(segs)) / DynCount(segs)
  }

  /**
   * The outcome of rendering `segs` at width `w`: the line, or the panic
   * the render hits first. The u16 additions come first, then `w - len`,
   * then the division by the number of dynamic spacers.
   */
  function RenderSpec(segs: seq<Segment>, w: U16): Result<string, Panic>
  {
    if FixedWidth(segs) >= U16_LIMIT || DynCount(segs) >= U16_LIMIT then Err(AddOverflow)
    else if w < FixedWidth(segs) then Err(SubtractOverflow)
    else if DynCount(segs) == 0 then Err(DivideByZero)
    else Ok(Line(segs, Spaces(DynWidth(segs, w))))
  }

  // ---------------------------------------------------------------------
  // Pass by pass
  // ---------------------------------------------------------------------

  /** What the first pass makes of a segment. */
  function Block(seg: Segment): BuildingBlock
  {
    match seg
    case DynSpacer => Dyn
    case StaticSpacer(space) => Finished(Spaces(space))
    case StatusSeg(mods, seps) => SegBuilders(Handles(mods, seps))
  }

  /** The first pass's `bar_segs_prebuild`. */
  function Prebuild(segs: seq<Segment>): seq<BuildingBlock>
  {
    seq(|segs|, i requires 0 <= i < |segs| => Block(segs[i]))
  }

  /** What the first pass adds to `len` for a segment. */
  function LeadWidth(seg: Segment): nat
  {
    match seg
    case DynSpacer => 0
    case StaticSpacer(space) => space
    case StatusSeg(mods, seps) => SegSepLen(seps, |mods|)
  }

  /** What the second pass makes of a block: one finished block per joined module. */
  function Expand(b: BuildingBlock): seq<BuildingBlock>
  {
    match b
    case SegBuilders(hs) => FlatMap(hs, JoinBlock)
    case _ => [b]
  }

  function JoinBlock(h: Option<Rendered>): seq<BuildingBlock>
  {
    [Finished(Join(h).text)]
  }

  /** What the second pass adds to `len` for a block. */
  function BlockWidth(b: BuildingBlock): nat
  {
    match b
    case SegBuilders(hs) => ModuleWidths(hs)
    case _ => 0
  }

  /** What the second pass adds to `dyn_amount` for a block. */
  function DynBlock(b: BuildingBlock): nat
  {
    if b.Dyn? then 1 else 0
  }

  /** What the third pass appends for a block. */
  function BlockText(fill: string): BuildingBlock -> string
  {
    (b: BuildingBlock) =>
      match b
      case Finished(v) => v
      case Dyn => fill
      case SegBuilders(_) => ""
  }

  lemma PrebuildPrefix(segs: seq<Segment>, k: nat)
    requires k <= |segs|
    ensures Prebuild(segs)[..k] == Prebuild(segs[..k])
  {
  }

  /** The two passes' contributions to `len` add up to the fixed width. */
  lemma {:induction false} PassWidths(segs: seq<Segment>)
    ensures Sum(segs, LeadWidth) + Sum(Prebuild(segs), BlockWidth) == FixedWidth(segs)
  {
    if |segs| > 0 {
      var n := |segs| - 1;
      PassWidths(segs[..n]);
      PrebuildPrefix(segs, n);
    }
  }

  /** The first pass's lead widths alone never exceed the fixed width. */
  lemma LeadBelowFixed(segs: seq<Segment>)
    ensures Sum(segs, LeadWidth) <= FixedWidth(segs)
  {
    PassWidths(segs);
  }

  /** The second pass counts exactly the dynamic spacers. */
  lemma {:induction false} PassDynCount(segs: seq<Segment>)
    ensures Sum(Prebuild(segs), DynBlock) == DynCount(segs)
  {
    if |segs| > 0 {
      var n := |segs| - 1;
      PassDynCount(segs[..n]);
      PrebuildPrefix(segs, n);
    }
  }

  lemma {:induction false} ExpandedModules(hs: seq<Option<Rendered>>, fill: string)
    ensures FlatMap(FlatMap(hs, JoinBlock), BlockText(fill)) == ModuleTexts(hs)
  {
    if |hs| > 0 {
      var n := |hs| - 1;
      ExpandedModules(hs[..n], fill);
      FlatMapAppend(FlatMap(hs[..n], JoinBlock), JoinBlock(hs[n]), BlockText(fill));
      FlatMapSingleton(Finished(Join(hs[n]).text), BlockText(fill));
    }
  }

  lemma ExpandedSegment(seg: Segment, fill: string)
    ensures FlatMap(Expand(Block(seg)), BlockText(fill)) == SegmentText(fill)(seg)
  {
    match seg
    case DynSpacer => FlatMapSingleton(Dyn, BlockText(fill));
    case StaticSpacer(space) => FlatMapSingleton(Finished(Spaces(space)), BlockText(fill));
    case StatusSeg(mods, seps) => ExpandedModules(Handles(mods, seps), fill);
  }

  /** The third pass over the second pass's blocks spells out the line, segment by segment. */
  lemma {:induction false} PassLine(segs: seq<Segment>, fill: string)
    ensures FlatMap(FlatMap(Prebuild(segs), Expand), BlockText(fill)) == Line(segs, fill)
  {
    if |segs| > 0 {
      var n := |segs| - 1;
      PassLine(segs[..n], fill);
      PrebuildPrefix(segs, n);
      FlatMapAppend(FlatMap(Prebuild(segs[..n]), Expand), Expand(Block(segs[n])), BlockText(fill));
      ExpandedSegment(segs[n], fill);
    }
  }

  // ---------------------------------------------------------------------
  // Properties of a render
  // ---------------------------------------------------------------------

  /** A render succeeds exactly when both counters fit a u16, len <= w and there is a dynamic spacer. */
  lemma RenderSucceeds(segs: seq<Segment>, w: U16)
    ensures RenderSpec(segs, w).Ok?
        <==> FixedWidth(segs) <= w && 0 < DynCount(segs) < U16_LIMIT
  {
  }

  /** RenderSpec, given the two totals as numbers. */
  lemma RenderSpecOf(segs: seq<Segment>, w: U16, len: nat, dyn: nat)
    requires len == FixedWidth(segs) && dyn == DynCount(segs)
    ensures len >= U16_LIMIT || dyn >= U16_LIMIT ==> RenderSpec(segs, w) == Err(AddOverflow)
    ensures len < U16_LIMIT && dyn < U16_LIMIT && w < len ==> RenderSpec(segs, w) == Err(SubtractOverflow)
    ensures len < U16_LIMIT && dyn == 0 && len <= w ==> RenderSpec(segs, w) == Err(DivideByZero)
    ensures len < U16_LIMIT && 0 < dyn < U16_LIMIT && len <= w ==>
      RenderSpec(segs, w) == Ok(Line(segs, Spaces((w - len) / dyn)))
  {
  }

  /** Segment i of the line is that segment's own text, between the texts of the segments before and after it. */
  lemma LineAt(segs: seq<Segment>, i: nat, fill: string)
    requires i < |segs|
    ensures Line(segs, fill) == Line(segs[..i], fill) + SegmentText(fill)(segs[i]) + Line(segs[i + 1..], fill)
  {
    FlatMapAt(segs, i, SegmentText(fill));
  }

  /**
   * In a rendered line every segment occupies its own place in segment
   * order: a static spacer of n is n blanks, a status segment its
   * modules' texts in module order, and every dynamic spacer the same
   * DynWidth blanks.
   */
  lemma RenderedSegment(segs: seq<Segment>, w: U16, i: nat)
    requires i < |segs| && RenderSpec(segs, w).Ok?
    ensures var fill := Spaces(DynWidth(segs, w));
      RenderSpec(segs, w).value
      == Line(segs[..i], fill)
         + (match segs[i]
            case DynSpacer => Spaces(DynWidth(segs, w))
            case StaticSpacer(space) => Spaces(space)
            case StatusSeg(mods, seps) => ModuleTexts(Handles(mods, seps)))
         + Line(segs[i + 1..], fill)
  {
    LineAt(segs, i, Spaces(DynWidth(segs, w)));
  }

  /** The width accounted for, len + dyn_amount * DynWidth, is at most w and more than w - dyn_amount. */
  lemma AccountedWidth(segs: seq<Segment>, w: U16)
    requires RenderSpec(segs, w).Ok?
    ensures FixedWidth(segs) + DynCount(segs) * DynWidth(segs, w) <= w
    ensures w < FixedWidth(segs) + DynCount(segs) * (DynWidth(segs, w) + 1)
  {
    FloorShare(w - FixedWidth(segs), DynCount(segs));
  }

  lemma FloorShare(rest: nat, d: nat)
    requires d > 0
    ensures d * (rest / d) <= rest < d * (rest / d + 1)
  {
    var q, r := rest / d, rest % d;
    assert rest == d * q + r;
    assert d * (q + 1) == d * q + d;
  }

  /**
   * Appending a segment to a bar appends its text to the line and adds
   * its widths to the counters; the segments already there are rendered
   * as before.
   */
  lemma AppendSegment(segs: seq<Segment>, seg: Segment, fill: string)
    ensures FixedWidth(segs + [seg]) == FixedWidth(segs) + SegmentWidth(seg)
    ensures DynCount(segs + [seg]) == DynCount(segs) + DynIndicator(seg)
    ensures Line(segs + [seg], fill) == Line(segs, fill) + SegmentText(fill)(seg)
  {
    assert (segs + [seg])[..|segs|] == segs;
  }

  /** The texts of a segment's modules split at module i. */
  lemma ModuleTextsAt(hs: seq<Option<Rendered>>, i: nat)
    requires i < |hs|
    ensures ModuleTexts(hs) == ModuleTexts(hs[..i]) + JoinText(hs[i]) + ModuleTexts(hs[i + 1..])
  {
    FlatMapAt(hs, i, JoinText);
  }

  /** A module whose render thread always panics. */
  function Panicking(): Module
  {
    Module((left, right) => None)
  }

  /**
   * Failure substitution: when module i of a segment panics, its place
   * holds "ERR", its width counts as 0, and every other module's text,
   * decorations and width are as before.
   */
  lemma PanickedModule(mods: seq<Module>, seps: SegSepTypes, i: nat, fill: string)
    requires i < |mods|
    ensures var hs := Handles(mods, seps);
      SegmentText(fill)(StatusSeg(mods[i := Panicking()], seps))
        == ModuleTexts(hs[..i]) + "ERR" + ModuleTexts(hs[i + 1..])
    ensures SegmentWidth(StatusSeg(mods[i := Panicking()], seps)) + JoinWidth(Handles(mods, seps)[i])
         == SegmentWidth(StatusSeg(mods, seps))
  {
    var hs := Handles(mods, seps);
    var hs' := Handles(mods[i := Panicking()], seps);
    HandlesReplace(mods, seps, i, Panicking());
    assert hs' == hs[i := None];
    assert hs'[..i] == hs[..i] && hs'[i + 1..] == hs[i + 1..];
    ModuleTextsAt(hs', i);
    SumAt(hs', i, JoinWidth);
    SumAt(hs, i, JoinWidth);
  }
}
