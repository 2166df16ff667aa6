# obsidian_status bar rendering, modelled in Dafny

This project models the rendering engine of the `obsidian_status` status bar (`src/bar.rs`).
A `Bar` holds an ordered list of segments. A segment is a dynamic spacer, a static spacer of
some width, or a status segment: modules that share one separator policy (`One`, `Two` or
`Three` decorations). `render(w)` builds the line in three passes:

1. It starts one render thread per module. Each module gets a pair of decorations chosen
   from its index in its segment. The pass adds static widths and the decorations' widths
   to the u16 `len`. A module's decoration width is the sum of its two plain lengths, cast
   to u16 (the cast keeps the low 16 bits).
2. It joins the threads in segment order and module order. A panicked thread becomes
   `"ERR"` of width 0. The pass adds the module widths to `len` and counts the dynamic
   spacers in `dyn_amount`.
3. It gives every dynamic spacer the same `(w - len) / dyn_amount` blanks and concatenates
   everything in order.

Files and modules:

- `segments.dfy` (`Segments`): the data model (`Colored` as a plain/coloured pair, `Module`,
  `Rendered`, `SegSepTypes`, `Segment`, `U16`), the separator choice `SepsFor`, the
  separator width `SegSepLen`, and the module handles `Handles`.
- `assembly.dfy` (`Assembly`):
  - the segment-by-segment meaning of a render (`FixedWidth`, `DynCount`, `Line`,
    `RenderSpec`);
  - the passes' intermediate `BuildingBlock` sequences (`Prebuild`, `Expand`, `BlockText`);
  - the lemmas that connect the two, and the properties of a render.
- `bar.dfy` (`BarEngine`): the `Bar` class (`constructor`, `AddSegment`, `Render`),
  `StartSegThreads`, and one loop method per pass of `render`. Each method is proved
  against the functions above.
- `scenarios.dfy` (`Scenarios`): concrete bars and their rendered outcome.
- `seqs.dfy` (`Seqs`), `wrappers.dfy` (`Wrappers`): sums, concatenations, `Option` and
  `Result`.

Modelling choices:

- A module's render thread is a total function from the coloured left and right decorations
  to `Option<Rendered>`. `None` stands for a thread that panicked. Starting a thread and
  joining it are the single step `Launch`, so completion order does not appear in the model.
- `u16` arithmetic is modelled as in a debug build, where overflow checks are on:
  - every overflowing `+=` on `len`, `sep_lens` or `dyn_amount` is `Err(AddOverflow)`;
  - `w - len` with `len > w` is `Err(SubtractOverflow)`;
  - a zero `dyn_amount` is `Err(DivideByZero)`.

  The subtraction is evaluated before the division, so a bar that has both faults reports
  `SubtractOverflow`. All additions are non-negative, so some addition overflows exactly
  when the unbounded total reaches 65536. `RenderSpec` states the outcome that way.
- `(a.len() + b.len()) as u16` at line 138 truncates; `PairWidth` keeps the low 16 bits
  explicitly.
- `render` prints the line; `Render` returns it.

Three behaviours of the code are easy to misread. The model follows them:

- With `Three`, interior modules get an empty left edge; `mid` appears only on right
  edges (line 133).
- A module whose thread panicked contributes the text `"ERR"` with width 0 (line 79).
- The division at line 98 is unconditional, so a bar with no dynamic spacer and
  `len <= w` panics with a division by zero (`Scenarios.NoDynamicSpacer`). When `len > w`
  the subtraction panics first.

## Model

| member | source | states |
|---|---|---|
| Segments.SepsFor | src/bar.rs:123-136 | the (left, right) decorations of module i of n: only module 0 gets a left edge unless the policy is `Two`; under `Three` the right edge is `after` on the last module and `mid` before it |
| Segments.OneSeparators | src/bar.rs:124-129 | with `One(sep)`, module 0 gets (sep, sep) and every later module gets (empty, sep) |
| Segments.TwoSeparators | src/bar.rs:131 | with `Two(before, after)`, every module gets (before, after) whatever its index |
| Segments.ThreeSeparators | src/bar.rs:132-135 | with `Three`, the left edge is `before` exactly at index 0 and empty elsewhere; the right edge is `after` at the last index and `mid` elsewhere; a single module gets (before, after) |
| Segments.HandlesReplace | src/bar.rs:122-142 | decorations depend only on a module's index and the segment's size: replacing one module changes only that module's handle |
| Segments.PairWidth | src/bar.rs:138 | one module's separator width is below 65536, and equals the two plain lengths' sum when that sum fits a u16 |
| Segments.OneSepLen | src/bar.rs:122-138 | `sep_lens` of `One(sep)` over n > 0 modules is (n + 1) times the plain length of sep, when no decoration pair the segment forms has plain lengths summing to 65536 or more (the cast at line 138 loses nothing) |
| Segments.TwoSepLen | src/bar.rs:122-138 | `sep_lens` of `Two(before, after)` over n modules is n times both plain lengths, when no decoration pair the segment forms has plain lengths summing to 65536 or more (the cast at line 138 loses nothing) |
| Segments.ThreeSepLen | src/bar.rs:122-138 | `sep_lens` of `Three` over n > 0 modules is the plain lengths of `before` and `after` plus n - 1 times that of `mid`, when no decoration pair the segment forms has plain lengths summing to 65536 or more (the cast at line 138 loses nothing) |
| BarEngine.StartSegThreads | src/bar.rs:111-146 | exactly one handle per module, in module order, each started with that module's chosen decorations; `sep_lens` is the sum over modules of each module's decoration width cast to u16 (`PairWidth`), which is the plain sum of the decorations' widths when no pair reaches 65536; it fails with an add overflow exactly when that sum leaves u16 |
| BarEngine.Bar.constructor | src/bar.rs:32-37 | a new bar has no segments and keeps the given side configuration |
| BarEngine.Bar.AddSegment | src/bar.rs:39-42 | appends exactly one segment at the end, leaves the existing segments and `seps_on_sides` unchanged, and returns the same bar |
| BarEngine.Bar.Render | src/bar.rs:44-109 | the outcome of a render is `RenderSpec` of the bar's segments: the line in segment order, or the first panic |
| BarEngine.DispatchPass | src/bar.rs:45-68 | the first pass builds exactly one block per segment in order, and `len` is the sum of static widths and separator widths; it fails exactly when that sum leaves u16 |
| BarEngine.JoinPass | src/bar.rs:70-95 | the second pass expands every segment's handles into one finished block per module, in order; it adds every joined module's width to `len` and counts the dynamic spacers; it fails exactly when either counter leaves u16 |
| BarEngine.AssemblePass | src/bar.rs:97-106 | the third pass concatenates the blocks in order, with finished text as it is and every dynamic spacer as the one shared string |
| Assembly.Join | src/bar.rs:77-80 | a joined thread yields its own result, or text "ERR" with width 0 when it panicked |
| Assembly.Spaces | src/bar.rs:52 | `" ".repeat(n)` is n characters, all blanks |
| Assembly.PassWidths | src/bar.rs:46-95 | after the second pass, `len` is the sum of static spacer widths, every segment's `sep_lens` and all module-reported widths |
| Assembly.PassDynCount | src/bar.rs:71-93 | after the second pass, `dyn_amount` is the number of `DynSpacer` segments |
| Assembly.PassLine | src/bar.rs:73-106 | concatenating the second pass's blocks gives the line segment by segment: n blanks for a static spacer, the modules' texts in module order for a status segment, the shared string for a dynamic spacer |
| Assembly.RenderSucceeds | src/bar.rs:98 | a render yields a line exactly when both counters fit u16, `len <= w` and there is at least one dynamic spacer |
| Assembly.LineAt | src/bar.rs:100-106 | segment i's text sits in the line between the texts of the segments before it and after it |
| Assembly.RenderedSegment | src/bar.rs:48-106 | in a rendered line, segment i is n blanks for a static spacer, its modules' texts for a status segment, and the same `(w - len) / dyn_amount` blanks for every dynamic spacer |
| Assembly.AccountedWidth | src/bar.rs:98-103 | the accounted width `len + dyn_amount * ((w - len) / dyn_amount)` is at most w and more than `w - dyn_amount` |
| Assembly.AppendSegment | src/bar.rs:39-42 | appending a segment appends its text to the line and adds its width and spacer count to the totals |
| Assembly.ModuleTextsAt | src/bar.rs:76-85 | module j's joined text sits between the texts of the modules before and after it |
| Assembly.PanickedModule | src/bar.rs:77-84 | when one module panics, its place holds `"ERR"` and its width counts 0; every other module's text and width is unaffected |
| Scenarios.ClockSegment | src/bar.rs:55-86 | an undecorated segment holding one module of text "CLK" and width 3 has width 3 and text "CLK" |
| Scenarios.ClockBarTotals | src/bar.rs:48-95 | the clock between two dynamic spacers has fixed width 3 and two dynamic spacers |
| Scenarios.ClockBarLine | src/bar.rs:100-106 | the line of the clock between two dynamic spacers is the clock between two copies of the spacers' fill |
| Scenarios.ClockBetweenSpacers | src/bar.rs:44-109 | a width-3 module between two dynamic spacers, rendered at width 11, is four blanks, the module, four blanks |
| Scenarios.BracketedHandles | src/bar.rs:123-136 | for three width-1 modules of text "a" under `Three` with an opening bracket, a vertical bar and a closing bracket, the threads yield bracket-a-bar, a-bar and a-bracket, each of width 1 |
| Scenarios.BracketedModules | src/bar.rs:132-138 | for the same three modules, the segment's module texts are the seven characters bracket, a, bar, a, bar, a, bracket, and its width is 7 |
| Scenarios.NoDynamicSpacer | src/bar.rs:98 | a bar with no dynamic spacer and `len <= w` (here len 3, w 10) panics with a division by zero |

## Left out

- Thread spawning and joining (lines 28, 77, 141): a module's thread is its joined result, so concurrency and completion order are not modelled.
- `Colored` and `TextFormatConf` internals and ANSI colouring (lines 4-5): `Colored` is a pair of its plain and coloured strings.
- The empty decoration `Colored::new("", TextFormatConf::new())` (line 120) is modelled as plain "" and coloured "". Its real coloured form depends on formatting code that is not part of this model.
- `Module`'s own rendering (line 6) is not part of this model. A module is any function from its coloured decorations to a result.
- `println!` (line 108): `Render` returns the line instead of printing it.
- `seps_on_sides`, `first_of_bar`, `last_of_bar` (lines 22, 59-61, 114-116) are never read. `Bar` stores `sepsOnSides`; the other two are not modelled.
- Plain widths count characters, where `String::len()` (line 138) counts UTF-8 bytes; the two agree only for ASCII decorations, so a non-ASCII separator adds fewer columns to `len` in the model than in the code.
- BarEngine.Bar.Render: it models the debug-build panics on u16 overflow, not the wrap-around of a release build.
- BarEngine.StartSegThreads: an overflowing `sep_lens +=` is `Err(AddOverflow)`, as in a debug build, not a release-build wrap-around.
- BarEngine.DispatchPass: an overflowing `len +=` is `Err(AddOverflow)`, as in a debug build, not a release-build wrap-around.
- BarEngine.JoinPass: an overflowing `len +=` or `dyn_amount +=` is `Err(AddOverflow)`, as in a debug build, not a release-build wrap-around.
