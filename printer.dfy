/**
  The diagnostic printer of a loaded configuration. A configuration value is
  given as an explicit descriptor: a struct has a type name and its fields in
  declaration order, each field carries its `envconfig` tag, and a value that
  is not a struct carries its text as already rendered. The standard output
  stream is an `Output` object whose line list grows as lines are written.
 */
module ConfigPrinter {

  /** A configuration value: a struct, or any other value already rendered. */
  datatype Value =
    | Scalar(rendered: string)
    | Struct(typeName: string, fields: seq<Field>)

  /** A struct field: its `envconfig` tag, whether its Go name is exported,
      and its value. */
  datatype Field = Field(tag: string, exported: bool, value: Value)

  /** The line written for a value that is not a struct. */
  const NotAStruct := "Provided value is not a struct"

  /** The line written before and after the whole dump. */
  const Separator := "--------------------------------"

  /** The text between a padded tag and its value. */
  const Colon := " : "

  /** The greatest width the `*` of a `fmt` verb accepts. */
  const MaxWidth := 1000000

  /** What `fmt` writes in place of a width above `MaxWidth`. */
  const BadWidth := "%!(BADWIDTH)"

  /** `n` spaces. */
  function Spaces(n: nat): (r: string)
    ensures |r| == n
    ensures forall i :: 0 <= i < n ==> r[i] == ' '
  {
    if n == 0 then "" else Spaces(n - 1) + " "
  }

  /** `s` left-justified in a field of `w` characters, as the `%-*s` verb
      writes it: padded on the right with spaces, never truncated. */
  function PadRight(s: string, w: nat): (r: string)
    ensures |r| == if |s| < w then w else |s|
    ensures r[..|s|] == s
    ensures forall j :: |s| <= j < |r| ==> r[j] == ' '
  {
    if |s| < w then s + Spaces(w - |s|) else s
  }

  /** The padding width of one struct level: the greatest tag length over all
      of its fields, struct-typed fields included, and 0 when it has none. */
  function Width(fs: seq<Field>): nat
  {
    if fs == [] then 0
    else
      var w0 := Width(fs[..|fs| - 1]);
      var last := |fs[|fs| - 1].tag|;
      if last > w0 then last else w0
  }

  /** The width is the greatest tag length of the level: no tag is longer,
      some tag is that long, and a level without fields has width 0. */
  lemma {:induction false} WidthIsMax(fs: seq<Field>)
    ensures forall i :: 0 <= i < |fs| ==> |fs[i].tag| <= Width(fs)
    ensures fs == [] ==> Width(fs) == 0
    ensures fs != [] ==> exists i :: 0 <= i < |fs| && |fs[i].tag| == Width(fs)
    decreases |fs|
  {
    if fs != [] {
      var init := fs[..|fs| - 1];
      WidthIsMax(init);
      assert forall i :: 0 <= i < |init| ==> fs[i] == init[i];
      if |fs[|fs| - 1].tag| <= Width(init) && init != [] {
        var j :| 0 <= j < |init| && |init[j].tag| == Width(init);
        assert |fs[j].tag| == Width(fs);
      }
    }
  }

  /** The line written for a leaf field at a level of width `w`. A width
      above `MaxWidth` is refused by `fmt`: it writes `BadWidth` and then the
      tag without padding. */
  function LeafLine(tag: string, w: nat, rendered: string): string
  {
    if w > MaxWidth then BadWidth + tag + Colon + rendered
    else PadRight(tag, w) + Colon + rendered
  }

  /** The header written when the printer enters a struct. */
  function Header(typeName: string): string
  {
    "Load " + typeName
  }

  /** Reflection refuses `Interface()` on a field whose Go name is not
      exported, so the printer panics on reaching a struct-typed field that
      is not exported, and on a struct-typed field whose own dump panics.
      A field of any other type is printed whether exported or not. */
  predicate FieldPanics(f: Field)
    decreases f
  {
    f.value.Struct? && (!f.exported || Panics(f.value))
  }

  /** The dump of `v` ends in a panic. */
  predicate Panics(v: Value)
    decreases v
  {
    v.Struct? && FieldsPanic(v.fields)
  }

  /** The dump of the fields ends in a panic: some field panics. */
  predicate FieldsPanic(fs: seq<Field>)
    decreases fs
  {
    fs != [] && (FieldsPanic(fs[..|fs| - 1]) || FieldPanics(fs[|fs| - 1]))
  }

  /** The lines `printConfigUtil` writes for `v`, up to the panic when
      `Panics(v)`. The prefix is passed down the recursion and used nowhere
      else. */
  function Lines(v: Value, prefix: string): seq<string>
    decreases v
  {
    match v
    case Scalar(_) => [NotAStruct]
    case Struct(n, fs) => [Header(n)] + FieldLines(fs, Width(fs), prefix)
  }

  /** The lines written for one field at a level of width `w`: a leaf yields
      one line, an exported struct its own header and fields at its own
      width, and a struct that is not exported nothing, as the printer
      panics before writing. */
  function FieldOutput(f: Field, w: nat, prefix: string): seq<string>
    decreases f
  {
    match f.value
    case Scalar(x) => [LeafLine(f.tag, w, x)]
    case Struct(_, _) => if f.exported then Lines(f.value, prefix) else []
  }

  /** The lines written for the fields, in declaration order, up to the
      first field that panics. */
  function FieldLines(fs: seq<Field>, w: nat, prefix: string): seq<string>
    decreases fs
  {
    if fs == [] then []
    else
      var init := FieldLines(fs[..|fs| - 1], w, prefix);
      if FieldsPanic(fs[..|fs| - 1]) then init
      else init + FieldOutput(fs[|fs| - 1], w, prefix)
  }

  /** What `printConfig` writes: the dump between separator lines, and a
      blank line after; after a panic, nothing follows the partial dump. */
  function Framed(v: Value, prefix: string): seq<string>
  {
    [Separator] + Lines(v, prefix) + (if Panics(v) then [] else [Separator, ""])
  }

  /** The fields panic exactly when one of them does. */
  lemma {:induction false} FieldsPanicIff(fs: seq<Field>)
    ensures FieldsPanic(fs) <==> exists i :: 0 <= i < |fs| && FieldPanics(fs[i])
    decreases fs
  {
    if fs != [] {
      var init := fs[..|fs| - 1];
      FieldsPanicIff(init);
      if exists i :: 0 <= i < |init| && FieldPanics(init[i]) {
        var i :| 0 <= i < |init| && FieldPanics(init[i]);
        assert FieldPanics(fs[i]);
      }
      if exists i :: 0 <= i < |fs| && FieldPanics(fs[i]) {
        var i :| 0 <= i < |fs| && FieldPanics(fs[i]);
        if i < |init| {
          assert FieldPanics(init[i]);
        }
      }
    }
  }

  /** A leaf line is the tag, then spaces up to column `w`, then " : " from
      column `w`, then the value; past `MaxWidth` it is the `fmt` error
      text, then the tag unpadded, then " : " and the value. */
  lemma LeafLineShape(tag: string, w: nat, rendered: string)
    requires |tag| <= w
    ensures w <= MaxWidth ==>
              && |LeafLine(tag, w, rendered)| == w + |Colon| + |rendered|
              && LeafLine(tag, w, rendered)[..|tag|] == tag
              && (forall j :: |tag| <= j < w ==> LeafLine(tag, w, rendered)[j] == ' ')
              && LeafLine(tag, w, rendered)[w..w + |Colon|] == Colon
              && LeafLine(tag, w, rendered)[w + |Colon|..] == rendered
    ensures w > MaxWidth ==> LeafLine(tag, w, rendered) == BadWidth + tag + Colon + rendered
  {
  }

  /** The fields of `a + b` are written as those of `a`, then, unless `a`
      panics, those of `b`; and `a + b` panics when `a` or `b` does. */
  lemma {:induction false} FieldLinesConcat(a: seq<Field>, b: seq<Field>, w: nat, prefix: string)
    ensures FieldsPanic(a + b) <==> FieldsPanic(a) || FieldsPanic(b)
    ensures FieldLines(a + b, w, prefix)
         == FieldLines(a, w, prefix) + (if FieldsPanic(a) then [] else FieldLines(b, w, prefix))
    decreases b
  {
    if b == [] {
      assert a + b == a;
    } else {
      var b', last := b[..|b| - 1], b[|b| - 1];
      assert (a + b)[..|a + b| - 1] == a + b';
      assert (a + b)[|a + b| - 1] == last;
      FieldLinesConcat(a, b', w, prefix);
      var before := FieldLines(a + b', w, prefix);
      if FieldsPanic(a + b') {
        assert FieldLines(a + b, w, prefix) == before;
      } else {
        assert FieldLines(a + b, w, prefix) == before + FieldOutput(last, w, prefix);
        assert FieldLines(b, w, prefix) == FieldLines(b', w, prefix) + FieldOutput(last, w, prefix);
      }
    }
  }

  /** Writing field `i` after the fields before it, unless one of them
      panicked. */
  lemma FieldLinesStep(fs: seq<Field>, i: int, w: nat, prefix: string)
    requires 0 <= i < |fs|
    ensures FieldsPanic(fs[..i + 1]) <==> FieldsPanic(fs[..i]) || FieldPanics(fs[i])
    ensures FieldLines(fs[..i + 1], w, prefix)
         == FieldLines(fs[..i], w, prefix) + (if FieldsPanic(fs[..i]) then [] else FieldOutput(fs[i], w, prefix))
  {
    assert fs[..i + 1][..i] == fs[..i];
  }

  /** Once the fields before `j` panic, the whole list panics and nothing
      more is written. */
  lemma PanicStops(fs: seq<Field>, j: int, w: nat, prefix: string)
    requires 0 <= j <= |fs| && FieldsPanic(fs[..j])
    ensures FieldsPanic(fs)
    ensures FieldLines(fs, w, prefix) == FieldLines(fs[..j], w, prefix)
  {
    assert fs == fs[..j] + fs[j..];
    FieldLinesConcat(fs[..j], fs[j..], w, prefix);
  }

  /** Fields are written in declaration order: field `i`'s output starts
      right after the output of the fields before it, and the fields after
      it follow unless it panics. */
  lemma FieldLinesSplit(fs: seq<Field>, w: nat, prefix: string, i: int)
    requires 0 <= i < |fs|
    ensures !FieldsPanic(fs[..i]) ==>
              FieldLines(fs, w, prefix)
              == FieldLines(fs[..i], w, prefix) + FieldOutput(fs[i], w, prefix)
                 + (if FieldPanics(fs[i]) then [] else FieldLines(fs[i + 1..], w, prefix))
  {
    assert fs == fs[..i + 1] + fs[i + 1..];
    FieldLinesConcat(fs[..i + 1], fs[i + 1..], w, prefix);
    FieldLinesStep(fs, i, w, prefix);
  }

  /** Inside the dump of a struct, after its header, field `i`'s output is
      written from line `k` on, where `k` counts the header and the lines of
      the fields before it, unless one of those panicked. */
  lemma FieldInPlace(n: string, fs: seq<Field>, prefix: string, i: int)
    requires 0 <= i < |fs|
    ensures var L := Lines(Struct(n, fs), prefix);
            var k := 1 + |FieldLines(fs[..i], Width(fs), prefix)|;
            var here := FieldOutput(fs[i], Width(fs), prefix);
            && L[0] == Header(n)
            && (!FieldsPanic(fs[..i]) ==> k + |here| <= |L| && L[k..k + |here|] == here)
  {
    var w := Width(fs);
    FieldLinesSplit(fs, w, prefix, i);
    if !FieldsPanic(fs[..i]) {
      var before := FieldLines(fs[..i], w, prefix);
      var here := FieldOutput(fs[i], w, prefix);
      var after := if FieldPanics(fs[i]) then [] else FieldLines(fs[i + 1..], w, prefix);
      var L := Lines(Struct(n, fs), prefix);
      assert L == [Header(n)] + before + here + after;
    }
  }

  /** A struct-typed field yields no line of its own. When it is exported,
      from its place on come its own header and its own fields, aligned to
      its own width rather than to the width of the level it sits in. When
      it is not exported, the dump ends where it stands, in a panic. */
  lemma NestedInPlace(n: string, fs: seq<Field>, prefix: string, i: int)
    requires 0 <= i < |fs| && fs[i].value.Struct?
    ensures var L := Lines(Struct(n, fs), prefix);
            var k := 1 + |FieldLines(fs[..i], Width(fs), prefix)|;
            var sub := fs[i].value.fields;
            var here := [Header(fs[i].value.typeName)] + FieldLines(sub, Width(sub), prefix);
            !FieldsPanic(fs[..i]) && fs[i].exported ==> k + |here| <= |L| && L[k..k + |here|] == here
    ensures !fs[i].exported ==>
              && |Lines(Struct(n, fs), prefix)| == 1 + |FieldLines(fs[..i], Width(fs), prefix)|
              && Panics(Struct(n, fs))
  {
    var w := Width(fs);
    FieldInPlace(n, fs, prefix, i);
    if !fs[i].exported {
      FieldLinesStep(fs, i, w, prefix);
      PanicStops(fs, i + 1, w, prefix);
    }
  }

  /** Each leaf field, unless a field before it panicked, yields exactly one
      line, in its place: its raw tag, with no prefix prepended, padded with
      spaces to the width of its own level, then " : " and its value. So
      every leaf line of one level puts " : " at the same column, a width no
      tag of that level exceeds. */
  lemma LeafAligned(n: string, fs: seq<Field>, prefix: string, i: int)
    requires 0 <= i < |fs| && fs[i].value.Scalar?
    ensures var L := Lines(Struct(n, fs), prefix);
            var k := 1 + |FieldLines(fs[..i], Width(fs), prefix)|;
            var w := Width(fs);
            var tag := fs[i].tag;
            !FieldsPanic(fs[..i]) ==>
              && k < |L|
              && L[k] == LeafLine(tag, w, fs[i].value.rendered)
              && |tag| <= w
              && (w <= MaxWidth ==>
                    && |L[k]| == w + |Colon| + |fs[i].value.rendered|
                    && L[k][..|tag|] == tag
                    && (forall j :: |tag| <= j < w ==> L[k][j] == ' ')
                    && L[k][w..w + |Colon|] == Colon
                    && L[k][w + |Colon|..] == fs[i].value.rendered)
  {
    var w := Width(fs);
    var line := LeafLine(fs[i].tag, w, fs[i].value.rendered);
    if !FieldsPanic(fs[..i]) {
      assert 1 + |FieldLines(fs[..i], w, prefix)| < |Lines(Struct(n, fs), prefix)|
          && Lines(Struct(n, fs), prefix)[1 + |FieldLines(fs[..i], w, prefix)|] == line by {
        FieldInPlace(n, fs, prefix, i);
        assert FieldOutput(fs[i], w, prefix) == [line];
      }
      WidthIsMax(fs);
      LeafLineShape(fs[i].tag, w, fs[i].value.rendered);
    }
  }

  /** The number of lines a complete dump has: one per struct header and one
      per leaf field (or one diagnostic line for a value that is not a
      struct). */
  function Count(v: Value): nat
    decreases v
  {
    match v
    case Scalar(_) => 1
    case Struct(_, fs) => 1 + CountFields(fs)
  }

  /** The lines the fields yield, summed in declaration order. */
  function CountFields(fs: seq<Field>): nat
    decreases fs
  {
    if fs == [] then 0 else CountFields(fs[..|fs| - 1]) + Count(fs[|fs| - 1].value)
  }

  /** Each leaf field yields exactly one line and each struct exactly one
      header line, and nothing else is written; the dump is cut short
      exactly when it panics. */
  lemma {:induction false} LineCount(v: Value, prefix: string)
    ensures |Lines(v, prefix)| <= Count(v)
    ensures |Lines(v, prefix)| == Count(v) <==> !Panics(v)
    decreases v, 1
  {
    match v
    case Scalar(_) =>
    case Struct(n, fs) => FieldLineCount(fs, Width(fs), prefix);
  }

  /** Field-list part of `LineCount`. */
  lemma {:induction false} FieldLineCount(fs: seq<Field>, w: nat, prefix: string)
    ensures |FieldLines(fs, w, prefix)| <= CountFields(fs)
    ensures |FieldLines(fs, w, prefix)| == CountFields(fs) <==> !FieldsPanic(fs)
    decreases fs, 0
  {
    if fs != [] {
      var last := fs[|fs| - 1];
      FieldLineCount(fs[..|fs| - 1], w, prefix);
      if last.value.Struct? && last.exported {
        LineCount(last.value, prefix);
      }
    }
  }

  /** The prefix never reaches the output. */
  lemma {:induction false} PrefixIgnored(v: Value, p: string, q: string)
    ensures Lines(v, p) == Lines(v, q)
    decreases v, 1
  {
    match v
    case Scalar(_) =>
    case Struct(n, fs) => FieldPrefixIgnored(fs, Width(fs), p, q);
  }

  /** Field-list part of `PrefixIgnored`. */
  lemma {:induction false} FieldPrefixIgnored(fs: seq<Field>, w: nat, p: string, q: string)
    ensures FieldLines(fs, w, p) == FieldLines(fs, w, q)
    decreases fs, 0
  {
    if fs != [] {
      var last := fs[|fs| - 1];
      FieldPrefixIgnored(fs[..|fs| - 1], w, p, q);
      if last.value.Struct? {
        PrefixIgnored(last.value, p, q);
      }
    }
  }

  /** The standard output stream, as the list of lines written so far,
      each without its terminating newline. */
  class Output {
    var lines: seq<string>

    constructor ()
      ensures lines == []
    {
      lines := [];
    }

    /** Writes `s` followed by a newline. */
    method WriteLine(s: string)
      modifies this
      ensures lines == old(lines) + [s]
    {
      lines := lines + [s];
    }
  }

  /** The first loop of `printConfigUtil`: the greatest tag length of the
      fields, starting from 0. */
  method MaxTagLen(fs: seq<Field>) returns (maxLen: nat)
    ensures forall i :: 0 <= i < |fs| ==> |fs[i].tag| <= maxLen
    ensures fs == [] ==> maxLen == 0
    ensures fs != [] ==> exists i :: 0 <= i < |fs| && |fs[i].tag| == maxLen
    ensures maxLen == Width(fs)
  {
    maxLen := 0;
    var i := 0;
    while i < |fs|
      invariant 0 <= i <= |fs|
      invariant maxLen == Width(fs[..i])
    {
      assert fs[..i + 1][..i] == fs[..i];
      if |fs[i].tag| > maxLen {
        maxLen := |fs[i].tag|;
      }
      i := i + 1;
    }
    assert fs[..i] == fs;
    WidthIsMax(fs);
  }

  /** `printConfigUtil`: writes the dump of `v`. A panic is modelled as
      returning `ok == false`, after which no caller writes anything. */
  method PrintConfigUtil(out: Output, v: Value, prefix: string) returns (ok: bool)
    modifies out
    ensures ok <==> !Panics(v)
    ensures out.lines == old(out.lines) + Lines(v, prefix)
    decreases v
  {
    match v {
      case Scalar(_) =>
        out.WriteLine(NotAStruct);
        ok := true;
      case Struct(n, fs) =>
        out.WriteLine(Header(n));
        var maxLen := MaxTagLen(fs);
        ok := PrintFields(out, fs, maxLen, prefix);
    }
  }

  /** The second loop of `printConfigUtil`: the fields in declaration order,
      up to the first that panics. */
  method PrintFields(out: Output, fs: seq<Field>, maxLen: nat, prefix: string) returns (ok: bool)
    modifies out
    ensures ok <==> !FieldsPanic(fs)
    ensures out.lines == old(out.lines) + FieldLines(fs, maxLen, prefix)
    decreases fs
  {
    var i := 0;
    while i < |fs|
      invariant 0 <= i <= |fs|
      invariant !FieldsPanic(fs[..i])
      invariant out.lines == old(out.lines) + FieldLines(fs[..i], maxLen, prefix)
    {
      ok := PrintField(out, fs[i], maxLen, prefix);
      FieldLinesStep(fs, i, maxLen, prefix);
      assert out.lines == old(out.lines) + FieldLines(fs[..i + 1], maxLen, prefix);
      if !ok {
        PanicStops(fs, i + 1, maxLen, prefix);
        return;
      }
      i := i + 1;
    }
    assert fs[..i] == fs;
    ok := true;
  }

  /** One turn of the field loop of `printConfigUtil`: a struct-typed field
      is dumped by the recursive call when it is exported and panics
      otherwise; any other field is written as one line. */
  method PrintField(out: Output, f: Field, w: nat, prefix: string) returns (ok: bool)
    modifies out
    ensures ok <==> !FieldPanics(f)
    ensures out.lines == old(out.lines) + FieldOutput(f, w, prefix)
    decreases f
  {
    if f.value.Struct? {
      if f.exported {
        ok := PrintConfigUtil(out, f.value, prefix);
      } else {
        ok := false;
      }
    } else {
      out.WriteLine(LeafLine(f.tag, w, f.value.rendered));
      ok := true;
    }
  }

  /** `printConfig`: the dump framed by separator lines; after a panic the
      closing separator is not written. */
  method PrintConfig(out: Output, v: Value, prefix: string) returns (ok: bool)
    modifies out
    ensures ok <==> !Panics(v)
    ensures out.lines == old(out.lines) + Framed(v, prefix)
  {
    out.WriteLine(Separator);
    ok := PrintConfigUtil(out, v, prefix);
    if ok {
      out.WriteLine(Separator);
      out.WriteLine("");
    }
  }
}
