/**
 * The compositor's argument list: one input per live conduit, and a filter
 * graph that pads input 0 to an 800x800 canvas, scales every input to the
 * width of one grid cell and overlays the scaled inputs onto the canvas one
 * after another.  Everything here is a function of the heartbeat table's keys.
 */
module MosaicLayout {
  import opened Messages

  /** The canvas is a square of this many pixels per side. */
  const OutputSize: nat := 800
  /** `Integer#chr` without an encoding accepts codes up to 255 only. */
  const MaxCharCode: nat := 255
  /** Stream letters are `chr(98 + i)`, so at most this many inputs get one. */
  const MaxInputs: nat := MaxCharCode - 97

  /** Why building the arguments raises. */
  datatype ArgsError =
    | ZeroDivision    // no inputs: 800 / 0
    | CharOutOfRange  // more than MaxInputs inputs: (98 + i).chr with 98 + i > 255

  // ----- grid arithmetic -----

  /** `Math.sqrt(n).ceil`, as the least `c` with `c * c >= n`. */
  function CellsPerSide(n: nat): (c: nat)
    ensures c * c >= n
    ensures c == 0 || (c - 1) * (c - 1) < n
  {
    LeastRootFrom(n, 0)
  }

  function LeastRootFrom(n: nat, c: nat): (r: nat)
    requires c == 0 || (c - 1) * (c - 1) < n
    ensures r * r >= n
    ensures r == 0 || (r - 1) * (r - 1) < n
    decreases n - c
  {
    if c * c >= n then c
    else
      assert c <= c * c;
      LeastRootFrom(n, c + 1)
  }

  lemma MulLeq(k: nat, a: nat, b: nat)
    ensures a <= b ==> k * a <= k * b
  {
  }

  lemma MulLt(k: nat, a: nat, b: nat)
    ensures 0 < k && a < b ==> k * a < k * b
  {
  }

  /** No smaller side fits `n` cells: `CellsPerSide(n)` is the least such side. */
  lemma CellsPerSideLeast(n: nat, d: nat)
    requires d * d >= n
    ensures CellsPerSide(n) <= d
  {
    var c := CellsPerSide(n);
    if c > 0 {
      // were d below c: d * d <= d * (c - 1) <= (c - 1) * (c - 1) < n
      MulLeq(d, d, c - 1);
      MulLeq(c - 1, d, c - 1);
    }
  }

  /** `cell_size = output_width / cells_per_side`. */
  function CellSize(n: nat): nat
    requires n > 0
  {
    OutputSize / CellsPerSide(n)
  }

  /** The cells of one row fit on the canvas, and no wider cell would. */
  lemma CellSizeFits(n: nat)
    requires n > 0
    ensures CellsPerSide(n) > 0
    ensures CellSize(n) * CellsPerSide(n) <= OutputSize < (CellSize(n) + 1) * CellsPerSide(n)
  {
    var c := CellsPerSide(n);
    assert OutputSize == c * (OutputSize / c) + OutputSize % c;
  }

  /** With at most 158 inputs there are at most 13 cells per side, each at least 61 pixels wide. */
  lemma CellSizePositive(n: nat)
    requires 0 < n <= MaxInputs
    ensures CellsPerSide(n) <= 13 && CellSize(n) >= 61
  {
    CellsPerSideLeast(n, 13);
    var c := CellsPerSide(n);
    CellSizeFits(n);
    MulLeq(CellSize(n) + 1, c, 13);
  }

  /**
   * Where input `i` goes: column `i mod c`, row `i div c` of the grid, as
   * pixel offsets of the cell's top-left corner.  The whole cell lies on the
   * canvas.
   */
  function CellOrigin(n: nat, i: nat): (xy: (nat, nat))
    requires i < n
    ensures xy.0 + CellSize(n) <= OutputSize
    ensures xy.1 + CellSize(n) <= OutputSize
  {
    OriginOnCanvas(n, i, CellsPerSide(n), CellSize(n));
    (CellSize(n) * (i % CellsPerSide(n)), CellSize(n) * (i / CellsPerSide(n)))
  }

  lemma OriginOnCanvas(n: nat, i: nat, c: nat, cell: nat)
    requires i < n && c == CellsPerSide(n) && cell == CellSize(n)
    ensures c > 0
    ensures 0 <= cell * (i % c) && 0 <= cell * (i / c)
    ensures cell * (i % c) + cell <= OutputSize
    ensures cell * (i / c) + cell <= OutputSize
  {
    CellSizeFits(n);
    CellFits(i % c, c, cell);
    RowBound(n, i, c);
    CellFits(i / c, c, cell);
    MulLeq(cell, 0, i % c);
    MulLeq(cell, 0, i / c);
  }

  lemma CellFits(k: nat, c: nat, cell: nat)
    requires k < c && cell * c <= OutputSize
    ensures cell * k + cell <= OutputSize
  {
    MulLeq(cell, k + 1, c);
  }

  lemma RowBound(n: nat, i: nat, c: nat)
    requires i < n <= c * c && c > 0
    ensures i / c < c
  {
    assert i == c * (i / c) + i % c;
    MulLeq(c, c, i / c);
  }

  lemma Cancel(k: nat, a: nat, b: nat)
    requires k > 0 && k * a == k * b
    ensures a == b
  {
    MulLt(k, a, b);
    MulLt(k, b, a);
  }

  lemma DivModDistinct(c: nat, i: nat, j: nat)
    requires c > 0 && i != j
    ensures i % c != j % c || i / c != j / c
  {
    assert i == c * (i / c) + i % c;
    assert j == c * (j / c) + j % c;
  }

  lemma ScaleDistinct(k: nat, a: nat, b: nat)
    requires k > 0 && a != b
    ensures k * a != k * b
  {
    MulLt(k, a, b);
    MulLt(k, b, a);
  }

  lemma GridDisjoint(c: nat, cell: nat, i: nat, j: nat)
    requires c > 0 && cell > 0 && i != j
    ensures (cell * (i % c), cell * (i / c)) != (cell * (j % c), cell * (j / c))
  {
    DivModDistinct(c, i, j);
    if i % c != j % c {
      ScaleDistinct(cell, i % c, j % c);
    } else {
      ScaleDistinct(cell, i / c, j / c);
    }
  }

  /** Two different inputs never share a cell. */
  lemma CellsDisjoint(n: nat, i: nat, j: nat)
    requires i < n <= MaxInputs && j < n && i != j
    ensures CellOrigin(n, i) != CellOrigin(n, j)
  {
    CellSizePositive(n);
    GridDisjoint(CellsPerSide(n), CellSize(n), i, j);
  }

  // ----- the placement as written in the source -----

  /** `col_i = i % (i * cells_per_side) rescue 0`: for i = 0 the zero divisor raises and is rescued. */
  function ColAsWritten(i: nat, c: nat): nat {
    if i * c == 0 then 0 else i % (i * c)
  }

  /** The overlay offsets the source computes: x from `row_i = i % c`, y from `col_i`. */
  function OriginAsWritten(n: nat, i: nat): (nat, nat)
    requires i < n
  {
    CellSizeFits(n);
    var c, cell := CellsPerSide(n), CellSize(n);
    MulLeq(cell, 0, i % c);
    MulLeq(cell, 0, ColAsWritten(i, c));
    (cell * (i % c), cell * ColAsWritten(i, c))
  }

  /** Where the overlays go: at the offsets the source computes, or on the intended grid. */
  datatype Placement = AsWritten | Intended

  function Origin(p: Placement, n: nat, i: nat): (nat, nat)
    requires i < n
  {
    match p
    case AsWritten => OriginAsWritten(n, i)
    case Intended => CellOrigin(n, i)
  }

  /**
   * As written, the y offset grows with the input's index instead of its row:
   * every input after the first is put in the wrong cell.
   */
  lemma AsWrittenMisplaces(n: nat, i: nat)
    requires 0 < i < n <= MaxInputs
    ensures ColAsWritten(i, CellsPerSide(n)) == i
    ensures OriginAsWritten(n, i) != CellOrigin(n, i)
  {
    var c := CellsPerSide(n);
    MulLeq(c, c, 1);
    CellSizePositive(n);
    ColIsIndex(i, c, CellSize(n));
  }

  lemma ColIsIndex(i: nat, c: nat, cell: nat)
    requires i > 0 && c >= 2 && cell > 0
    ensures ColAsWritten(i, c) == i
    ensures cell * ColAsWritten(i, c) != cell * (i / c)
  {
    MulLt(i, 1, c);
    ModSmall(i, i * c);
    DivShrinks(i, c);
    ScaleDistinct(cell, i, i / c);
  }

  lemma ModSmall(a: nat, b: nat)
    requires a < b
    ensures a % b == a
  {
  }

  lemma DivShrinks(i: nat, c: nat)
    requires i > 0 && c >= 2
    ensures i / c < i
  {
    var q := i / c;
    assert i == c * q + i % c;
    MulLeq(q, 2, c);
  }

  /**
   * With three inputs the graph overlays the third at y = 800, off the
   * 800-pixel canvas, where the intended grid puts it at y = 400.
   */
  lemma AsWrittenLeavesCanvas()
    ensures CellsPerSide(3) == 2 && CellSize(3) == 400
    ensures OriginAsWritten(3, 2) == (0, 800)
    ensures OriginAsWritten(3, 2).1 >= OutputSize
    ensures CellOrigin(3, 2) == (0, 400)
    ensures OverlayFilters(AsWritten, 3, 0, 'a')[2] == Overlay('c', 'd', 0, 800, 'd')
    ensures OverlayFilters(Intended, 3, 0, 'a')[2] == Overlay('c', 'd', 0, 400, 'd')
  {
    CellsPerSideLeast(3, 2);
    assert CellsPerSide(3) == 2;
    OverlayFiltersAt(AsWritten, 3, 0, 'a', 2);
    OverlayFiltersAt(Intended, 3, 0, 'a', 2);
  }

  /** Already with two inputs the second is overlaid one row down, at (400, 400), instead of at (400, 0). */
  lemma AsWrittenTwoInputs()
    ensures OverlayFilters(AsWritten, 2, 0, 'a')[1] == Overlay('b', 'c', 400, 400, 'c')
    ensures OverlayFilters(Intended, 2, 0, 'a')[1] == Overlay('b', 'c', 400, 0, 'c')
  {
    CellsPerSideLeast(2, 2);
    assert CellsPerSide(2) == 2;
    OverlayFiltersAt(AsWritten, 2, 0, 'a', 1);
    OverlayFiltersAt(Intended, 2, 0, 'a', 1);
  }

  // ----- the filter graph -----

  /** One filter of the graph; `out` is the label of its output stream. */
  datatype Filter =
    | Pad(width: nat, height: nat, out: char)             // [0:0]pad=w:h[out];
    | Scale(input: nat, width: nat, out: char)            // [input:0]scale=width:-1[out];
    | Overlay(base: char, top: char, x: nat, y: nat, out: char)  // [base][top]overlay=x:y[out];

  function Digit(d: nat): char
    requires d < 10
  {
    "0123456789"[d]
  }

  /** `Integer#to_s` for non-negative integers. */
  function Decimal(n: nat): string
    decreases n
  {
    if n < 10 then [Digit(n)] else Decimal(n / 10) + [Digit(n % 10)]
  }

  function Label(c: char): string {
    "[" + [c] + "]"
  }

  function OverlayHead(base: char, top: char, x: nat, y: nat): string {
    Label(base) + Label(top) + "overlay=" + Decimal(x) + ":" + Decimal(y)
  }

  function Render(f: Filter): string {
    match f
    case Pad(w, h, o) => "[0:0]pad=" + Decimal(w) + ":" + Decimal(h) + Label(o) + ";"
    case Scale(i, w, o) => "[" + Decimal(i) + ":0]scale=" + Decimal(w) + ":-1" + Label(o) + ";"
    case Overlay(b, t, x, y, o) => OverlayHead(b, t, x, y) + Label(o) + ";"
  }

  function RenderAll(fs: seq<Filter>): string {
    if fs == [] then "" else Render(fs[0]) + RenderAll(fs[1..])
  }

  /** `(98 + i).chr`: the label of scaled input `i`. */
  function StreamLetter(i: nat): char
    requires i < MaxInputs
  {
    (98 + i) as char
  }

  /** The first loop of `ffmpeg_args`: scale input `i` to the cell width, label it `StreamLetter(i)`. */
  function ScaleFilters(n: nat): seq<Filter>
    requires 0 < n <= MaxInputs
  {
    seq(n, i requires 0 <= i < n => Scale(i, CellSize(n), StreamLetter(i)))
  }

  /**
   * The second loop of `ffmpeg_args` from input `i` on: overlay scaled input
   * `i` on the stream `last` produced so far, at the input's place, and name
   * the result with the letter after `last`.
   */
  function OverlayFilters(p: Placement, n: nat, i: nat, last: char): seq<Filter>
    requires i <= n <= MaxInputs && last as int == 97 + i
    decreases n - i
  {
    if i == n then []
    else
      var next := (last as int + 1) as char;
      var xy := Origin(p, n, i);
      [Overlay(last, StreamLetter(i), xy.0, xy.1, next)] + OverlayFilters(p, n, i + 1, next)
  }

  lemma {:induction false} OverlayFiltersAt(p: Placement, n: nat, i: nat, last: char, k: nat)
    requires i <= n <= MaxInputs && last as int == 97 + i && i + k < n
    ensures |OverlayFilters(p, n, i, last)| == n - i
    ensures OverlayFilters(p, n, i, last)[k] ==
      Overlay((97 + i + k) as char, StreamLetter(i + k), Origin(p, n, i + k).0, Origin(p, n, i + k).1, StreamLetter(i + k))
    decreases n - i
  {
    var next := (last as int + 1) as char;
    if k > 0 {
      OverlayFiltersAt(p, n, i + 1, next, k - 1);
    } else if i + 1 < n {
      OverlayFiltersAt(p, n, i + 1, next, 0);
    } else {
      assert OverlayFilters(p, n, i + 1, next) == [];
    }
  }

  /** The letter of the stream the `k`-th overlay draws on: the canvas `a`, then each previous overlay's output. */
  function BaseLetter(k: nat): char
    requires k <= MaxInputs
  {
    if k == 0 then 'a' else StreamLetter(k - 1)
  }

  /**
   * The overlays form one chain: the first draws on the padded canvas `a`,
   * each later one on the previous overlay's output, which is labelled like
   * the input that overlay added; overlay `k` puts scaled input `k` at that
   * input's place.
   */
  lemma OverlayChain(p: Placement, n: nat)
    requires 0 < n <= MaxInputs
    ensures |OverlayFilters(p, n, 0, 'a')| == n
    ensures forall k :: 0 <= k < n ==>
      OverlayFilters(p, n, 0, 'a')[k] == Overlay(BaseLetter(k), ScaleFilters(n)[k].out, Origin(p, n, k).0, Origin(p, n, k).1, StreamLetter(k))
  {
    var ov := OverlayFilters(p, n, 0, 'a');
    OverlayFiltersAt(p, n, 0, 'a', 0);
    forall k | 0 <= k < n
      ensures ov[k] == Overlay(BaseLetter(k), ScaleFilters(n)[k].out, Origin(p, n, k).0, Origin(p, n, k).1, StreamLetter(k))
    {
      OverlayFiltersAt(p, n, 0, 'a', k);
    }
  }

  /** All filters of the graph, in the order `ffmpeg_args` appends them. */
  function Filters(p: Placement, n: nat): seq<Filter>
    requires 0 < n <= MaxInputs
  {
    [Pad(OutputSize, OutputSize, 'a')] + ScaleFilters(n) + OverlayFilters(p, n, 0, 'a')
  }

  /** `_arg[0..-5]`: everything but the last four characters. */
  function DropLast4(s: string): string {
    if |s| >= 4 then s[..|s| - 4] else ""
  }

  /** The quoted `-filter_complex` argument. */
  function GraphArg(p: Placement, n: nat): string
    requires 0 < n <= MaxInputs
  {
    DropLast4("\"" + RenderAll(Filters(p, n))) + "\""
  }

  lemma {:induction false} RenderAllSnoc(fs: seq<Filter>, f: Filter)
    ensures RenderAll(fs + [f]) == RenderAll(fs) + Render(f)
  {
    if fs == [] {
      assert [] + [f] == [f];
    } else {
      assert (fs + [f])[0] == fs[0] && (fs + [f])[1..] == fs[1..] + [f];
      RenderAllSnoc(fs[1..], f);
    }
  }

  /** An overlay renders as its head followed by the four characters `[x];` of its output label. */
  lemma RenderOverlay(f: Filter)
    requires f.Overlay?
    ensures Render(f) == OverlayHead(f.base, f.top, f.x, f.y) + (Label(f.out) + ";")
    ensures |Label(f.out) + ";"| == 4
  {
    ConcatAssoc(OverlayHead(f.base, f.top, f.x, f.y), Label(f.out), ";");
  }

  lemma DropSuffix(a: string, b: string, head: string, tail: string)
    requires |tail| == 4
    ensures DropLast4(a + (b + (head + tail))) == a + b + head
  {
    var s := a + (b + (head + tail));
    assert s == (a + b + head) + tail;
    assert s[..|s| - 4] == a + b + head;
  }

  lemma DropLastOverlayLabel(init: seq<Filter>, last: Filter)
    requires last.Overlay?
    ensures DropLast4("\"" + RenderAll(init + [last])) ==
      "\"" + RenderAll(init) + OverlayHead(last.base, last.top, last.x, last.y)
  {
    RenderAllSnoc(init, last);
    RenderOverlay(last);
    DropSuffix("\"", RenderAll(init), OverlayHead(last.base, last.top, last.x, last.y), Label(last.out) + ";");
  }

  lemma LastFilterIsOverlay(p: Placement, n: nat)
    requires 0 < n <= MaxInputs
    ensures Filters(p, n)[|Filters(p, n)| - 1].Overlay?
  {
    OverlayFiltersAt(p, n, 0, 'a', n - 1);
    assert Filters(p, n)[|Filters(p, n)| - 1] == OverlayFilters(p, n, 0, 'a')[n - 1];
  }

  /**
   * Dropping four characters removes exactly the output label `[x];` of the
   * last overlay, so the graph ends in that overlay's unlabelled output.
   */
  lemma GraphEndsUnlabelled(p: Placement, n: nat)
    requires 0 < n <= MaxInputs
    ensures var fs := Filters(p, n); var last := fs[|fs| - 1];
      && last.Overlay?
      && GraphArg(p, n) == "\"" + RenderAll(fs[..|fs| - 1]) + OverlayHead(last.base, last.top, last.x, last.y) + "\""
  {
    var fs := Filters(p, n);
    LastFilterIsOverlay(p, n);
    var init, last := fs[..|fs| - 1], fs[|fs| - 1];
    assert fs == init + [last];
    DropLastOverlayLabel(init, last);
  }

  // ----- the argument list -----

  /** `"-i #{fifo_path}"` for every key, in table order. */
  function InputArgs(keys: seq<string>): seq<string> {
    seq(|keys|, i requires 0 <= i < |keys| => "-i " + keys[i])
  }

  /** The arguments after the filter graph. */
  const TrailingArgs: seq<string> := ["-shortest", "-f h264", "-", "2> /tmp/ffmpeg_err.out"]

  /**
   * `ffmpeg_args` over the heartbeat table's keys: one input argument per key,
   * then `-filter_complex`, the graph with the overlay offsets the source
   * computes, and the fixed output arguments; it raises for an empty table
   * and for more inputs than there are stream letters.
   */
  function FfmpegArgs(keys: seq<string>): (r: Result<seq<string>, ArgsError>)
    ensures |keys| == 0 <==> r == Failure(ZeroDivision)
    ensures |keys| > MaxInputs <==> r == Failure(CharOutOfRange)
    ensures r.Success? ==> |r.value| == |keys| + 6
    ensures r.Success? ==> forall i :: 0 <= i < |keys| ==> r.value[i] == "-i " + keys[i]
    ensures r.Success? ==> r.value[|keys|] == "-filter_complex" && r.value[|keys| + 1] == GraphArg(AsWritten, |keys|)
    ensures r.Success? ==> r.value[|keys| + 2..] == TrailingArgs
  {
    if |keys| == 0 then Failure(ZeroDivision)
    else if |keys| > MaxInputs then Failure(CharOutOfRange)
    else Success(InputArgs(keys) + ["-filter_complex", GraphArg(AsWritten, |keys|)] + TrailingArgs)
  }

  /** `Array#join(' ')`. */
  function Join(parts: seq<string>): string {
    if |parts| == 0 then ""
    else if |parts| == 1 then parts[0]
    else parts[0] + " " + Join(parts[1..])
  }

  lemma {:induction false} JoinAppend(a: seq<string>, b: seq<string>)
    requires a != [] && b != []
    ensures Join(a + b) == Join(a) + " " + Join(b)
  {
    if |a| == 1 {
      assert (a + b)[1..] == b;
    } else {
      assert (a + b)[1..] == a[1..] + b;
      JoinAppend(a[1..], b);
    }
  }

  /** `ffmpeg_command`: the executable, a space, and `arg_string`. */
  function CommandLine(bin: string, args: seq<string>): string {
    bin + " " + Join(args)
  }

  lemma JoinCons(a: string, rest: seq<string>)
    requires rest != []
    ensures Join([a] + rest) == a + " " + Join(rest)
  {
    assert ([a] + rest)[1..] == rest;
  }

  /**
   * The shell command the supervisor runs for a non-empty table: its inputs
   * in table order, then the graph, then `-shortest -f h264 -` with standard
   * error sent to /tmp/ffmpeg_err.out.
   */
  lemma JoinArgs(inputs: seq<string>, graph: string)
    requires inputs != []
    ensures Join(inputs + ["-filter_complex", graph] + TrailingArgs) ==
      Join(inputs) + " " + "-filter_complex" + " " + graph + " " + Join(TrailingArgs)
  {
    JoinAround(inputs, graph, TrailingArgs);
  }

  lemma JoinAround(inputs: seq<string>, graph: string, trailing: seq<string>)
    requires inputs != [] && trailing != []
    ensures Join(inputs + ["-filter_complex", graph] + trailing) ==
      Join(inputs) + " " + "-filter_complex" + " " + graph + " " + Join(trailing)
  {
    var inner := [graph] + trailing;
    var tail := ["-filter_complex"] + inner;
    assert inputs + ["-filter_complex", graph] + trailing == inputs + tail;
    JoinAppend(inputs, tail);
    JoinCons("-filter_complex", inner);
    JoinCons(graph, trailing);
  }

  lemma CommandLineShape(bin: string, keys: seq<string>)
    requires 0 < |keys| <= MaxInputs
    ensures CommandLine(bin, FfmpegArgs(keys).value) ==
      bin + " " + (Join(InputArgs(keys)) + " " + "-filter_complex" + " " + GraphArg(AsWritten, |keys|) + " " + Join(TrailingArgs))
  {
    JoinArgs(InputArgs(keys), GraphArg(AsWritten, |keys|));
  }
}
