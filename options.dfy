/**
  The functional options of `LoadConfig`: an `Options` record that starts
  empty and is changed in place by each option, in argument order.
  `Settings` is the value view of that record; `ApplyOption` and
  `ApplyOptions` are the specification the class and the loader are
  proved against.
 */
module ConfigOptions {

  /** One call-time option, as returned by `AddFile`, `AddFiles`, `WithPrefix`
      and `WithPrintConfig`. */
  datatype LoadOption =
    | AddFile(path: string)
    | AddFiles(paths: seq<string>)
    | WithPrefix(prefix: string)
    | WithPrintConfig

  /** The value held by an `Options` record. */
  datatype Settings = Settings(files: set<string>, prefix: string, printLogLoading: bool)

  /** A fresh record: no files, empty prefix, printing off. */
  const Defaults := Settings({}, "", false)

  /** The effect of one option on a record. */
  function ApplyOption(s: Settings, o: LoadOption): (r: Settings)
    ensures s.files <= r.files
    ensures s.printLogLoading ==> r.printLogLoading
    ensures !o.WithPrefix? ==> r.prefix == s.prefix
  {
    match o
    case AddFile(p) => s.(files := s.files + {p})
    case AddFiles(ps) => s.(files := s.files + (set p | p in ps))
    case WithPrefix(x) => s.(prefix := x)
    case WithPrintConfig => s.(printLogLoading := true)
  }

  /** The options applied one by one, the first argument first. */
  function ApplyOptions(s: Settings, opts: seq<LoadOption>): Settings
    decreases opts
  {
    if opts == [] then s else ApplyOptions(ApplyOption(s, opts[0]), opts[1..])
  }

  /** `o` puts path `p` into the file set. */
  predicate Adds(o: LoadOption, p: string)
  {
    o == AddFile(p) || (o.AddFiles? && p in o.paths)
  }

  /** Some option of `opts` puts `p` into the file set. */
  predicate AddedBy(opts: seq<LoadOption>, p: string)
  {
    exists i :: 0 <= i < |opts| && Adds(opts[i], p)
  }

  /** Every option is idempotent: applying it twice is applying it once. */
  lemma OptionIdempotent(s: Settings, o: LoadOption)
    ensures ApplyOption(ApplyOption(s, o), o) == ApplyOption(s, o)
  {
  }

  /** Adding a path that is already present changes nothing. */
  lemma AddPresentFile(s: Settings, p: string)
    requires p in s.files
    ensures ApplyOption(s, AddFile(p)) == s
  {
  }

  /** Applying `a` then `b` is applying `a + b`. */
  lemma {:induction false} ApplyOptionsConcat(s: Settings, a: seq<LoadOption>, b: seq<LoadOption>)
    ensures ApplyOptions(s, a + b) == ApplyOptions(ApplyOptions(s, a), b)
    decreases a
  {
    if a != [] {
      assert (a + b)[0] == a[0];
      assert (a + b)[1..] == a[1..] + b;
      ApplyOptionsConcat(ApplyOption(s, a[0]), a[1..], b);
    } else {
      assert a + b == b;
    }
  }

  /** Appending one option applies it last. */
  lemma ApplyOptionsSnoc(s: Settings, opts: seq<LoadOption>, o: LoadOption)
    ensures ApplyOptions(s, opts + [o]) == ApplyOption(ApplyOptions(s, opts), o)
  {
    ApplyOptionsConcat(s, opts, [o]);
    assert ApplyOptions(ApplyOptions(s, opts), [o])
        == ApplyOptions(ApplyOption(ApplyOptions(s, opts), o), []);
  }

  /** The file set after the options is the old set plus exactly the paths
      the options name: duplicates collapse and nothing is ever removed. */
  lemma {:induction false} FilesCollected(s: Settings, opts: seq<LoadOption>, p: string)
    ensures p in ApplyOptions(s, opts).files <==> p in s.files || AddedBy(opts, p)
    decreases opts
  {
    if opts != [] {
      var s' := ApplyOption(s, opts[0]);
      FilesCollected(s', opts[1..], p);
      assert p in s'.files <==> p in s.files || Adds(opts[0], p);
      if AddedBy(opts[1..], p) {
        var i :| 0 <= i < |opts[1..]| && Adds(opts[1..][i], p);
        assert Adds(opts[i + 1], p);
      }
      if AddedBy(opts, p) {
        var i :| 0 <= i < |opts| && Adds(opts[i], p);
        if i > 0 {
          assert Adds(opts[1..][i - 1], p);
        }
      }
    }
  }

  /** A path is added by `a + b` exactly when it is added by `a` or by `b`. */
  lemma AddedByConcat(a: seq<LoadOption>, b: seq<LoadOption>, p: string)
    ensures AddedBy(a + b, p) <==> AddedBy(a, p) || AddedBy(b, p)
  {
    if AddedBy(a + b, p) {
      var i :| 0 <= i < |a + b| && Adds((a + b)[i], p);
      if i < |a| {
        assert Adds(a[i], p);
      } else {
        assert Adds(b[i - |a|], p);
      }
    }
    if AddedBy(a, p) {
      var i :| 0 <= i < |a| && Adds(a[i], p);
      assert Adds((a + b)[i], p);
    }
    if AddedBy(b, p) {
      var i :| 0 <= i < |b| && Adds(b[i], p);
      assert Adds((a + b)[|a| + i], p);
    }
  }

  /** The order of the options does not affect the file set. */
  lemma FilesOrderIrrelevant(s: Settings, a: seq<LoadOption>, b: seq<LoadOption>)
    ensures ApplyOptions(s, a + b).files == ApplyOptions(s, b + a).files
  {
    forall p | true
      ensures p in ApplyOptions(s, a + b).files <==> p in ApplyOptions(s, b + a).files
    {
      FilesCollected(s, a + b, p);
      FilesCollected(s, b + a, p);
      AddedByConcat(a, b, p);
      AddedByConcat(b, a, p);
    }
  }

  /** Options without `WithPrefix` keep the prefix. */
  lemma {:induction false} PrefixKept(s: Settings, opts: seq<LoadOption>)
    requires forall k :: 0 <= k < |opts| ==> !opts[k].WithPrefix?
    ensures ApplyOptions(s, opts).prefix == s.prefix
    decreases opts
  {
    if opts != [] {
      assert !opts[0].WithPrefix?;
      PrefixKept(ApplyOption(s, opts[0]), opts[1..]);
    }
  }

  /** When several `WithPrefix` options are given, the last one wins. */
  lemma LastPrefixWins(s: Settings, opts: seq<LoadOption>, j: int)
    requires 0 <= j < |opts| && opts[j].WithPrefix?
    requires forall k :: j < k < |opts| ==> !opts[k].WithPrefix?
    ensures ApplyOptions(s, opts).prefix == opts[j].prefix
  {
    assert opts == opts[..j] + [opts[j]] + opts[j + 1..];
    ApplyOptionsConcat(s, opts[..j] + [opts[j]], opts[j + 1..]);
    ApplyOptionsSnoc(s, opts[..j], opts[j]);
    PrefixKept(ApplyOptions(s, opts[..j] + [opts[j]]), opts[j + 1..]);
  }

  /** The print flag ends up set exactly when it was set before or some
      option is `WithPrintConfig`: no option ever resets it. */
  lemma {:induction false} PrintFlagSet(s: Settings, opts: seq<LoadOption>)
    ensures ApplyOptions(s, opts).printLogLoading <==> s.printLogLoading || WithPrintConfig in opts
    decreases opts
  {
    if opts != [] {
      PrintFlagSet(ApplyOption(s, opts[0]), opts[1..]);
      assert opts == [opts[0]] + opts[1..];
    }
  }

  /** The mutable `Options` record of the loader. */
  class Options {
    var files: set<string>
    var prefix: string
    var printLogLoading: bool

    /** The record's current value. */
    function View(): Settings
      reads this
    {
      Settings(files, prefix, printLogLoading)
    }

    /** A record with an empty file set, an empty prefix and printing off. */
    constructor ()
      ensures View() == Defaults
    {
      files := {};
      prefix := "";
      printLogLoading := false;
    }

    /** Inserts one path into the file set. */
    method AddFile(path: string)
      modifies this
      ensures files == old(files) + {path}
      ensures prefix == old(prefix) && printLogLoading == old(printLogLoading)
    {
      files := files + {path};
    }

    /** Inserts the paths one by one, in slice order. */
    method AddFiles(paths: seq<string>)
      modifies this
      ensures files == old(files) + (set p | p in paths)
      ensures prefix == old(prefix) && printLogLoading == old(printLogLoading)
    {
      var i := 0;
      while i < |paths|
        invariant 0 <= i <= |paths|
        invariant files == old(files) + (set p | p in paths[..i])
        invariant prefix == old(prefix) && printLogLoading == old(printLogLoading)
      {
        assert paths[..i + 1] == paths[..i] + [paths[i]];
        files := files + {paths[i]};
        i := i + 1;
      }
      assert paths[..i] == paths;
    }

    /** Overwrites the prefix. */
    method WithPrefix(p: string)
      modifies this
      ensures prefix == p
      ensures files == old(files) && printLogLoading == old(printLogLoading)
    {
      prefix := p;
    }

    /** Turns printing on. */
    method WithPrintConfig()
      modifies this
      ensures printLogLoading
      ensures files == old(files) && prefix == old(prefix)
    {
      printLogLoading := true;
    }

    /** Calls the option on this record. */
    method Apply(o: LoadOption)
      modifies this
      ensures View() == ApplyOption(old(View()), o)
    {
      match o {
        case AddFile(p) => AddFile(p);
        case AddFiles(ps) => AddFiles(ps);
        case WithPrefix(x) => WithPrefix(x);
        case WithPrintConfig => WithPrintConfig();
      }
    }
  }
}
