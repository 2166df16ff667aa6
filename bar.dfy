/**
 * The bar itself (src/bar.rs:20-147): a class holding the ordered
 * segments, its builder operations, and `render` with its three loops.
 * Module threads are replaced by their joined results, so "start a
 * thread" and "join it" meet in `Launch`.
 */
module BarEngine {
  import opened Wrappers
  import opened Seqs
  import opened Segments
  import opened Assembly

  /** What starting a segment's threads returns: one handle per module, and the decorations' width. */
  datatype Started = Started(handles: seq<Option<Rendered>>, sepLens: U16)

  /**
   * Chooses every module's decorations, sums their plain widths into the
   * u16 `sep_lens` and starts one render thread per module, in module
   * order. Fails when `sep_lens` overflows.
   */
  method StartSegThreads(mods: seq<Module>, seps: SegSepTypes) returns (r: Result<Started, Panic>)
    ensures r.Ok? <==> SegSepLen(seps, |mods|) < U16_LIMIT
    ensures r.Err? ==> r.error == AddOverflow
    ensures r.Ok? ==> r.value.sepLens == SegSepLen(seps, |mods|)
    ensures r.Ok? ==> |r.value.handles| == |mods|
    ensures r.Ok? ==> forall i :: 0 <= i < |mods| ==>
      r.value.handles[i] == Launch(mods[i], SepsFor(seps, i, |mods|))
  {
    ghost var ds := Decorations(seps, |mods|);
    var handles: seq<Option<Rendered>> := [];
    var sepLens: U16 := 0;
    for i := 0 to |mods|
      invariant |handles| == i
      invariant forall j :: 0 <= j < i ==> handles[j] == Launch(mods[j], SepsFor(seps, j, |mods|))
      invariant sepLens == Sum(ds[..i], PairWidth)
    {
      var decorations := SepsFor(seps, i, |mods|);
      SumStep(ds, i, PairWidth);
      SumPrefix(ds, i + 1, PairWidth);
      var added := PairWidth(decorations);
      if sepLens + added >= U16_LIMIT {
        return Err(AddOverflow);
      }
      sepLens := sepLens + added;
      handles := handles + [Launch(mods[i], decorations)];
    }
    assert ds[..|mods|] == ds;
    r := Ok(Started(handles, sepLens));
  }

  class Bar {
    var segments: seq<Segment>
    /** Stored by `new` and never read by any operation of the bar. */
    var sepsOnSides: (bool, bool)

    /** A bar with no segments. */
    constructor (sepsOnSides: (bool, bool))
      ensures segments == []
      ensures this.sepsOnSides == sepsOnSides
    {
      segments := [];
      this.sepsOnSides := sepsOnSides;
    }

    /** Appends one segment at the end and returns the same bar, for chaining. */
    method AddSegment(seg: Segment) returns (bar: Bar)
      modifies this
      ensures segments == old(segments) + [seg]
      ensures sepsOnSides == old(sepsOnSides)
      ensures bar == this
    {
      segments := segments + [seg];
      bar := this;
    }

    /**
     * Renders the bar at width `w`: the line it prints, or the panic it
     * hits first.
     */
    method Render(w: U16) returns (line: Result<string, Panic>)
      ensures line == RenderSpec(segments, w)
    {
      var segs := segments;
      ghost var fixed, count := FixedWidth(segs), DynCount(segs);
      RenderSpecOf(segs, w, fixed, count);
      PassWidths(segs);
      PassDynCount(segs);
      LeadBelowFixed(segs);
      var first := DispatchPass(segs);
      if first.Err? {
        return Err(AddOverflow);
      }
      var prebuild, len := first.value.0, first.value.1;
      var second := JoinPass(prebuild, len);
      if second.Err? {
        return Err(AddOverflow);
      }
      var assembled, total, dynAmount := second.value.0, second.value.1, second.value.2;
      assert total == fixed && dynAmount == count;
      if w < total {
        return Err(SubtractOverflow);
      }
      if dynAmount == 0 {
        return Err(DivideByZero);
      }
      var dynBuilt := Spaces((w - total) / dynAmount);
      var finalBar := AssemblePass(assembled, dynBuilt);
      PassLine(segs, dynBuilt);
      line := Ok(finalBar);
    }
  }

  /**
   * The first pass of render (src/bar.rs:45-68): one block per segment,
   * module threads started, static and separator widths summed into the
   * u16 `len`.
   */
  method DispatchPass(segs: seq<Segment>) returns (r: Result<(seq<BuildingBlock>, U16), Panic>)
    ensures r.Ok? <==> Sum(segs, LeadWidth) < U16_LIMIT
    ensures r.Err? ==> r.error == AddOverflow
    ensures r.Ok? ==> r.value == (Prebuild(segs), Sum(segs, LeadWidth))
  {
    var prebuild: seq<BuildingBlock> := [];
    var len: U16 := 0;
    for i := 0 to |segs|
      invariant |prebuild| == i
      invariant forall j :: 0 <= j < i ==> prebuild[j] == Block(segs[j])
      invariant len == Sum(segs[..i], LeadWidth)
    {
      SumStep(segs, i, LeadWidth);
      SumPrefix(segs, i + 1, LeadWidth);
      match segs[i]
      case DynSpacer =>
        prebuild := prebuild + [Dyn];
      case StaticSpacer(space) =>
        prebuild := prebuild + [Finished(Spaces(space))];
        if len + space >= U16_LIMIT {
          return Err(AddOverflow);
        }
        len := len + space;
      case StatusSeg(mods, seps) =>
        var started := StartSegThreads(mods, seps);
        if started.Err? {
          return Err(AddOverflow);
        }
        var Started(handles, sepLens) := started.value;
        if len + sepLens >= U16_LIMIT {
          return Err(AddOverflow);
        }
        len := len + sepLens;
        assert handles == Handles(mods, seps);
        prebuild := prebuild + [SegBuilders(handles)];
    }
    assert prebuild == Prebuild(segs);
    assert segs[..|segs|] == segs;
    r := Ok((prebuild, len));
  }

  /**
   * The second pass of render (src/bar.rs:70-95): every segment's modules
   * joined in module order into finished blocks, their widths added to
   * `len`, and the dynamic spacers counted in the u16 `dyn_amount`.
   */
  method JoinPass(prebuild: seq<BuildingBlock>, len0: U16) returns (r: Result<(seq<BuildingBlock>, U16, U16), Panic>)
    ensures r.Ok? <==> len0 + Sum(prebuild, BlockWidth) < U16_LIMIT && Sum(prebuild, DynBlock) < U16_LIMIT
    ensures r.Err? ==> r.error == AddOverflow
    ensures r.Ok? ==> r.value == (FlatMap(prebuild, Expand), len0 + Sum(prebuild, BlockWidth), Sum(prebuild, DynBlock))
  {
    var assembled: seq<BuildingBlock> := [];
    var len := len0;
    var dynAmount: U16 := 0;
    for k := 0 to |prebuild|
      invariant assembled == FlatMap(prebuild[..k], Expand)
      invariant len == len0 + Sum(prebuild[..k], BlockWidth)
      invariant dynAmount == Sum(prebuild[..k], DynBlock)
    {
      FlatMapStep(prebuild, k, Expand);
      SumStep(prebuild, k, BlockWidth);
      SumStep(prebuild, k, DynBlock);
      SumPrefix(prebuild, k + 1, BlockWidth);
      SumPrefix(prebuild, k + 1, DynBlock);
      match prebuild[k]
      case SegBuilders(handles) =>
        for j := 0 to |handles|
          invariant assembled == FlatMap(prebuild[..k], Expand) + FlatMap(handles[..j], JoinBlock)
          invariant len == len0 + Sum(prebuild[..k], BlockWidth) + Sum(handles[..j], JoinWidth)
        {
          FlatMapStep(handles, j, JoinBlock);
          SumStep(handles, j, JoinWidth);
          SumPrefix(handles, j + 1, JoinWidth);
          var joined := Join(handles[j]);
          if len + joined.width >= U16_LIMIT {
            return Err(AddOverflow);
          }
          len := len + joined.width;
          assembled := assembled + [Finished(joined.text)];
        }
        assert handles[..|handles|] == handles;
      case Finished(v) =>
        assembled := assembled + [Finished(v)];
      case Dyn =>
        assembled := assembled + [Dyn];
        if dynAmount + 1 >= U16_LIMIT {
          return Err(AddOverflow);
        }
        dynAmount := dynAmount + 1;
    }
    assert prebuild[..|prebuild|] == prebuild;
    r := Ok((assembled, len, dynAmount));
  }

  /**
   * The third pass of render (src/bar.rs:97-106): finished text as it is,
   * every dynamic spacer as the one shared `dyn_built`, concatenated in order.
   */
  method AssemblePass(assembled: seq<BuildingBlock>, dynBuilt: string) returns (finalBar: string)
    ensures finalBar == FlatMap(assembled, BlockText(dynBuilt))
  {
    finalBar := "";
    for m := 0 to |assembled|
      invariant finalBar == FlatMap(assembled[..m], BlockText(dynBuilt))
    {
      FlatMapStep(assembled, m, BlockText(dynBuilt));
      match assembled[m]
      case Finished(v) =>
        finalBar := finalBar + v;
      case Dyn =>
        finalBar := finalBar + dynBuilt;
      case SegBuilders(_) =>
    }
    assert assembled[..|assembled|] == assembled;
  }
}
