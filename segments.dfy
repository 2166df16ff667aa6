/**
 * The bar's data model and the separator policy of a status segment:
 * which two decorations each module of a segment is given, and how much
 * plain width those decorations add up to (src/bar.rs:8-18, 111-146).
 */
module Segments {
  import opened Wrappers
  import opened Seqs

  /** Rust's `u16` holds the values below this bound. */
  const U16_LIMIT: nat := 0x1_0000

  type U16 = x: nat | x < U16_LIMIT

  /**
   * A piece of formatted text, seen through its two projections: the
   * plain string (used for width accounting) and the coloured string
   * (used for output).
   */
  datatype Colored = Colored(plain: string, colored: string)

  /** The decoration put on an edge that gets none. */
  const EmptyColored: Colored := Colored("", "")

  /** What a module's render thread returns when it completes: its text and plain width. */
  datatype Rendered = Rendered(text: string, width: U16)

  /**
   * A content module. Starting its render thread with the coloured left
   * and right decorations eventually yields `Some` result, or `None` when
   * the thread panicked.
   */
  datatype Module = Module(startRenderThread: (string, string) -> Option<Rendered>)

  datatype SegSepTypes =
    | One(sep: Colored)
    | Two(before: Colored, after: Colored)
    | Three(before: Colored, mid: Colored, after: Colored)

  datatype Segment =
    | DynSpacer
    | StaticSpacer(space: U16)
    | StatusSeg(mods: seq<Module>, seps: SegSepTypes)

  /** The (left, right) decorations of module i among the n modules of a segment. */
  function SepsFor(seps: SegSepTypes, i: nat, n: nat): (pair: (Colored, Colored))
    requires i < n
    ensures i > 0 && !seps.Two? ==> pair.0 == EmptyColored
    ensures seps.Three? ==> pair.1 == if i == n - 1 then seps.after else seps.mid
  {
    match seps
    case One(sep) => if i == 0 then (sep, sep) else (EmptyColored, sep)
    case Two(before, after) => (before, after)
    case Three(before, mid, after) =>
      (if i == 0 then before else EmptyColored, if i == n - 1 then after else mid)
  }

  /** The decorations of all n modules of a segment, in module order. */
  function Decorations(seps: SegSepTypes, n: nat): seq<(Colored, Colored)>
  {
    seq(n, i requires 0 <= i < n => SepsFor(seps, i, n))
  }

  /**
   * The plain width one module's decorations add to `sep_lens`: the two
   * plain lengths summed and then cast to `u16`, which keeps the low 16 bits.
   */
  function PairWidth(pair: (Colored, Colored)): (width: nat)
    ensures width < U16_LIMIT
    ensures |pair.0.plain| + |pair.1.plain| < U16_LIMIT ==> width == |pair.0.plain| + |pair.1.plain|
  {
    (|pair.0.plain| + |pair.1.plain|) % U16_LIMIT
  }

  /** The unbounded sum that `sep_lens` accumulates over a segment of n modules. */
  function SegSepLen(seps: SegSepTypes, n: nat): nat
  {
    Sum(Decorations(seps, n), PairWidth)
  }

  /** Starting a module's render thread with the coloured forms of its decorations, and joining it. */
  function Launch(m: Module, decorations: (Colored, Colored)): Option<Rendered>
  {
    m.startRenderThread(decorations.0.colored, decorations.1.colored)
  }

  /** The joined result of every module of a segment, in module order. */
  function Handles(mods: seq<Module>, seps: SegSepTypes): seq<Option<Rendered>>
  {
    seq(|mods|, i requires 0 <= i < |mods| => Launch(mods[i], SepsFor(seps, i, |mods|)))
  }

  // ---------------------------------------------------------------------
  // The three separator policies
  // ---------------------------------------------------------------------

  /** With One(sep) the first module is wrapped in sep on both sides; every later one gets sep on its right only. */
  lemma OneSeparators(sep: Colored, n: nat)
    ensures forall i :: 0 <= i < n ==>
      Decorations(One(sep), n)[i] == (if i == 0 then sep else EmptyColored, sep)
  {
  }

  /** With Two(before, after) every module gets the same pair, whatever its index. */
  lemma TwoSeparators(before: Colored, after: Colored, n: nat)
    ensures forall i :: 0 <= i < n ==> Decorations(Two(before, after), n)[i] == (before, after)
  {
  }

  /**
   * With Three(before, mid, after) the left edge is `before` at index 0 and
   * empty elsewhere; the right edge is `after` at the last index and `mid`
   * elsewhere; so a lone module gets (before, after).
   */
  lemma ThreeSeparators(before: Colored, mid: Colored, after: Colored, n: nat)
    ensures forall i :: 0 <= i < n ==>
      Decorations(Three(before, mid, after), n)[i].0 == (if i == 0 then before else EmptyColored)
    ensures forall i :: 0 <= i < n ==>
      Decorations(Three(before, mid, after), n)[i].1 == (if i == n - 1 then after else mid)
    ensures Decorations(Three(before, mid, after), 1) == [(before, after)]
  {
  }

  /** Separator choice depends on the module's index alone: swapping one module keeps every decoration. */
  lemma HandlesReplace(mods: seq<Module>, seps: SegSepTypes, i: nat, m: Module)
    requires i < |mods|
    ensures Handles(mods[i := m], seps) == Handles(mods, seps)[i := Launch(m, SepsFor(seps, i, |mods|))]
  {
  }

  // ---------------------------------------------------------------------
  // Separator width in closed form
  // ---------------------------------------------------------------------

  /** The `as u16` cast keeps the plain sum on every decoration pair a segment of n modules forms. */
  predicate Lossless(seps: SegSepTypes, n: nat)
  {
    forall i :: 0 <= i < n ==>
      |SepsFor(seps, i, n).0.plain| + |SepsFor(seps, i, n).1.plain| < U16_LIMIT
  }

  lemma {:induction false} OneSepLenPrefix(sep: Colored, n: nat, k: nat)
    requires k <= n && Lossless(One(sep), n)
    ensures Sum(Decorations(One(sep), n)[..k], PairWidth) == if k == 0 then 0 else |sep.plain| + k * |sep.plain|
  {
    var ds, p := Decorations(One(sep), n), |sep.plain|;
    if k == 1 {
      SumStep(ds, 0, PairWidth);
      assert ds[0] == (sep, sep);
    } else if k > 1 {
      OneSepLenPrefix(sep, n, k - 1);
      SumStep(ds, k - 1, PairWidth);
      assert ds[k - 1] == (EmptyColored, sep);
      assert k * p == (k - 1) * p + p;
    }
  }

  /** One(sep) over n > 0 modules: sep twice on the first module, once on each later one. */
  lemma OneSepLen(sep: Colored, n: nat)
    requires n > 0 && Lossless(One(sep), n)
    ensures SegSepLen(One(sep), n) == (n + 1) * |sep.plain|
  {
    assert (n + 1) * |sep.plain| == |sep.plain| + n * |sep.plain|;
    OneSepLenPrefix(sep, n, n);
    assert Decorations(One(sep), n)[..n] == Decorations(One(sep), n);
  }

  lemma {:induction false} TwoSepLenPrefix(before: Colored, after: Colored, n: nat, k: nat)
    requires k <= n && Lossless(Two(before, after), n)
    ensures Sum(Decorations(Two(before, after), n)[..k], PairWidth) == k * (|before.plain| + |after.plain|)
  {
    if k > 0 {
      var ds, p := Decorations(Two(before, after), n), |before.plain| + |after.plain|;
      TwoSepLenPrefix(before, after, n, k - 1);
      SumStep(ds, k - 1, PairWidth);
      assert ds[k - 1] == SepsFor(Two(before, after), k - 1, n) == (before, after);
      assert PairWidth(ds[k - 1]) == p;
      assert k * p == (k - 1) * p + p;
    }
  }

  /** Two(before, after) over n modules: both decorations once per module. */
  lemma TwoSepLen(before: Colored, after: Colored, n: nat)
    requires Lossless(Two(before, after), n)
    ensures SegSepLen(Two(before, after), n) == n * (|before.plain| + |after.plain|)
  {
    TwoSepLenPrefix(before, after, n, n);
    assert Decorations(Two(before, after), n)[..n] == Decorations(Two(before, after), n);
  }

  lemma {:induction false} ThreeSepLenPrefix(before: Colored, mid: Colored, after: Colored, n: nat, k: nat)
    requires k < n && Lossless(Three(before, mid, after), n)
    ensures Sum(Decorations(Three(before, mid, after), n)[..k], PairWidth)
         == if k == 0 then 0 else |before.plain| + k * |mid.plain|
  {
    if k > 0 {
      var ds, m := Decorations(Three(before, mid, after), n), |mid.plain|;
      ThreeSepLenPrefix(before, mid, after, n, k - 1);
      SumStep(ds, k - 1, PairWidth);
      assert ds[k - 1] == (if k == 1 then before else EmptyColored, mid);
      assert PairWidth(ds[k - 1]) == if k == 1 then |before.plain| + m else m;
      assert k * m == (k - 1) * m + m;
    }
  }

  /** Three(before, mid, after) over n > 0 modules: `before` and `after` once, `mid` between each two modules. */
  lemma ThreeSepLen(before: Colored, mid: Colored, after: Colored, n: nat)
    requires n > 0 && Lossless(Three(before, mid, after), n)
    ensures SegSepLen(Three(before, mid, after), n)
         == |before.plain| + |after.plain| + (n - 1) * |mid.plain|
  {
    var ds := Decorations(Three(before, mid, after), n);
    ThreeSepLenPrefix(before, mid, after, n, n - 1);
    SumStep(ds, n - 1, PairWidth);
    assert ds[..n] == ds;
  }
}
