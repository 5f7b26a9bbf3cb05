# ConfigLib-GO configuration loader, modelled in Dafny

`LoadConfig` in package `config` loads a typed configuration at process
start-up. It takes a list of functional options, reads the definition files
they name into the environment, and populates the configuration struct from
environment variables. When asked, it then prints the loaded struct as aligned
`<tag> : <value>` lines. Only two parts of this are the package's own logic,
and this project models and proves both:

- **The options record** (`options.dfy`, module `ConfigOptions`). `Options`
  is a class with fields `files: set<string>`, `prefix` and `printLogLoading`.
  It starts empty, and each option changes it in place. The options are the
  datatype `LoadOption` (`AddFile`, `AddFiles`, `WithPrefix`,
  `WithPrintConfig`). The value view `Settings` and the functions
  `ApplyOption` / `ApplyOptions` are the specification that the class methods
  and the loader's loop are proved against.
- **The diagnostic printer** (`printer.dfy`, module `ConfigPrinter`). A
  configuration value is an explicit descriptor: `Struct(typeName, fields)`
  or `Scalar(rendered)`. Each `Field` has its `envconfig` tag and records
  whether its Go name is exported. Standard output is an `Output` object
  whose `lines` grow by one entry per newline-terminated line of output.
  `PrintConfigUtil`, `PrintFields`, `PrintField` and `MaxTagLen` are the
  imperative printer, with its two loops. They are proved against the
  functions `Lines`, `FieldLines`, `Width` and `LeafLine`.
- **The panic on unexported struct fields.** Reflection refuses
  `Interface()` on an unexported field, so the printer panics when it
  reaches a struct-typed field that is not exported. The predicate `Panics`
  says when that happens. The printer methods return `ok == false` in that
  case and write nothing more, and `Lines` is the partial dump written
  before the panic.
- **The loader** (`config.dfy`, module `ConfigLoader`). `CollectOptions` is
  the option-application loop. `LoadConfig` connects the options to the
  printer. It also includes worked dumps of the nested configuration used by
  the package's tests.

Tags and values are `seq<char>`. Lengths are counted in characters, which
matches the source for ASCII tags (see Left out).

## Model

| member | source | states |
|---|---|---|
| ConfigOptions.ApplyOption | pkg/config/config.go:57-81 | No option removes a file, clears the print flag, or changes the prefix unless it is `WithPrefix`. |
| ConfigOptions.OptionIdempotent | pkg/config/config.go:57-81 | Every option is idempotent: applying it twice equals applying it once. |
| ConfigOptions.AddPresentFile | pkg/config/config.go:57-61 | Adding a path that is already in the file set leaves the record unchanged. |
| ConfigOptions.ApplyOptionsConcat | pkg/config/config.go:26-29 | Options are applied in argument order: applying `a + b` is applying `a`, then `b`. |
| ConfigOptions.ApplyOptionsSnoc | pkg/config/config.go:27-29 | An option appended to the list is applied last, to the record the earlier options produced. |
| ConfigOptions.FilesCollected | pkg/config/config.go:57-69 | After the options, a path is in the file set exactly when it was there before or some `AddFile`/`AddFiles` names it. |
| ConfigOptions.FilesOrderIrrelevant | pkg/config/config.go:20 | The file set does not depend on the order in which the option lists are given. |
| ConfigOptions.PrefixKept | pkg/config/config.go:71-75 | Options without `WithPrefix` leave the prefix unchanged. |
| ConfigOptions.LastPrefixWins | pkg/config/config.go:71-75 | When several `WithPrefix` options are given, the prefix is that of the last one. |
| ConfigOptions.PrintFlagSet | pkg/config/config.go:77-81 | The print flag ends up set exactly when it was set before or some option is `WithPrintConfig`; nothing resets it. |
| ConfigOptions.Options.constructor | pkg/config/config.go:26 | A fresh record has an empty file set, an empty prefix and printing off. |
| ConfigOptions.Options.AddFile | pkg/config/config.go:57-61 | The file set becomes the old set plus the path; the prefix and the flag are untouched. |
| ConfigOptions.Options.AddFiles | pkg/config/config.go:63-69 | The loop inserts every path of the slice; the file set becomes the old set plus all of them, and nothing else changes. |
| ConfigOptions.Options.WithPrefix | pkg/config/config.go:71-75 | The prefix becomes exactly the argument; the files and the flag are untouched. |
| ConfigOptions.Options.WithPrintConfig | pkg/config/config.go:77-81 | The flag becomes true; the files and the prefix are untouched. |
| ConfigOptions.Options.Apply | pkg/config/config.go:28 | Calling an option on the record changes its value as `ApplyOption` says. |
| ConfigPrinter.PadRight | pkg/config/config.go:120 | The `%-*s` padding for an accepted width: the result is the string followed by spaces up to the width, and is never truncated. |
| ConfigPrinter.WidthIsMax | pkg/config/config.go:103-109 | A level's width is the greatest tag length over all its fields, struct-typed ones included: no tag is longer, some tag is that long, and a level with no fields has width 0. |
| ConfigPrinter.MaxTagLen | pkg/config/config.go:103-109 | The first loop of `printConfigUtil` computes that greatest tag length, starting from 0. |
| ConfigPrinter.LeafLineShape | pkg/config/config.go:120 | Up to a width of 1000000, a leaf line is the tag, then spaces up to column `w`, then ` : ` from column `w`, then the value. Above it, `fmt` refuses the width: the line is `%!(BADWIDTH)`, the unpadded tag, ` : ` and the value. |
| ConfigPrinter.FieldLinesConcat | pkg/config/config.go:111-121 | The output for the fields `a + b` is the output for `a`, followed by the output for `b` unless `a` panicked. `a + b` panics exactly when `a` or `b` does. |
| ConfigPrinter.FieldLinesSplit | pkg/config/config.go:111-121 | Fields are written in declaration order: the fields before `i`, then field `i`, then, unless field `i` panics, the fields after it. |
| ConfigPrinter.FieldInPlace | pkg/config/config.go:99-121 | In a struct's dump, the header comes first. Unless an earlier field panicked, field `i`'s output starts right after the header and the lines of the earlier fields. |
| ConfigPrinter.NestedInPlace | pkg/config/config.go:112-117 | A struct-typed field gets no line of its own. If it is exported, its `Load <type>` header and its own fields come in its place, aligned to its own width rather than the parent's. If it is not exported, the dump stops at that point and the struct panics. |
| ConfigPrinter.LeafAligned | pkg/config/config.go:119-120 | Up to a width of 1000000 (see `LeafLineShape`), and unless an earlier field panicked, each leaf field yields exactly one entry in its place: the raw tag with no prefix, padded to its level's width, then ` : `, then the value. So all leaf lines of one level put ` : ` at the same column. |
| ConfigPrinter.LineCount | pkg/config/config.go:89-121 | A complete dump has one entry per struct header and one per leaf field (a non-struct value gets its one diagnostic line), and nothing else. The dump is shorter than that exactly when it panics. |
| ConfigPrinter.PrefixIgnored | pkg/config/config.go:89-122 | The prefix is passed down the recursion but never reaches the output. |
| ConfigPrinter.FieldsPanicIff | pkg/config/config.go:112-116 | A field list panics exactly when one of its fields does: a struct-typed field that is not exported, or an exported one whose own dump panics. |
| ConfigPrinter.PanicStops | pkg/config/config.go:112-116 | Once the fields before `j` panic, the whole list panics and no later field writes anything. |
| ConfigPrinter.Output.constructor | pkg/config/config.go:84 | Standard output starts with nothing written. |
| ConfigPrinter.Output.WriteLine | pkg/config/config.go:95 | Writing one newline-terminated line of output appends exactly one entry. |
| ConfigPrinter.PrintConfigUtil | pkg/config/config.go:89-122 | Appends exactly `Lines(v)`: a single `Provided value is not a struct` line for a non-struct; otherwise the header, then the fields at the width `MaxTagLen` computes. Reports a panic exactly when `Panics(v)`. |
| ConfigPrinter.PrintFields | pkg/config/config.go:111-121 | The second loop appends the output of each field in declaration order, and stops at the first field that panics. |
| ConfigPrinter.PrintField | pkg/config/config.go:112-120 | One turn of that loop: an exported struct-typed field is printed by the recursive call, an unexported one panics, and any other field is written as its one leaf line. |
| ConfigPrinter.PrintConfig | pkg/config/config.go:83-87 | Appends a separator line, the dump, a separator line and a blank line. After a panic, nothing follows the partial dump. |
| ConfigLoader.CollectOptions | pkg/config/config.go:25-29 | The loop applies the options to a fresh record one by one, first argument first, and ends with `ApplyOptions(Defaults, options)`. |
| ConfigLoader.LoadConfig | pkg/config/config.go:25-56 | Returns the populated value with no error. The printed output is the framed dump under the final prefix when the final flag is set, and nothing otherwise. The call does not complete exactly when it prints and the dump panics. |
| ConfigLoader.DiagnosticsWhenAsked | pkg/config/config.go:51-53 | The dump is written exactly when some option is `WithPrintConfig`, and it is the same whatever prefix was chosen. |
| ConfigLoader.UnexportedStructPanics | pkg/config/config.go:112-116 | For a struct whose middle field is an unexported struct, the leaf before it is printed, then the dump panics: the leaf after it and the closing separator never appear. |
| ConfigLoader.DbStructDump | pkg/config/config_test.go:79-82 | A struct with fields ADDRESS and PASSWORD is dumped as its header, `ADDRESS  : <address>` (padded by one space) and `PASSWORD : <password>`. |
| ConfigLoader.TwoStructFields | pkg/config/config_test.go:89-92 | A struct whose two fields are both exported structs is dumped as its header followed by each field's own dump; the parent's width plays no part. |
| ConfigLoader.DbConfigLines | pkg/config/config_test.go:89-103 | The tests' nested DBConfig dumps as seven lines without a panic, each nested struct aligned to the 8 characters of PASSWORD and not to the parent's 11. |
| ConfigLoader.DbConfigDump | pkg/config/config_test.go:105-114 | Loading it with a prefix and printing on yields the framed dump, with no trace of the prefix. |

## Left out

- Reading definition files (`godotenv.Load`, pkg/config/config.go:31-36): file I/O and a dotenv parser in a library outside this model. Iterating over the file set happens in Go map order, which is unspecified. The model therefore states which files are in the set, not the order in which they are loaded.
- Populating the struct from the environment (`envconfig.Process`, pkg/config/config.go:43-48): this is reflection-based lookup and type conversion in a library outside this model. `LoadConfig` receives its result as the parameter `instance`. The `log.Fatalf` process exit on a populate error is not modelled. So, as in the source, `LoadConfig` always returns no error.
- The debug prints of the environment and of the value before and after populating (pkg/config/config.go:38-44, 49): output-only plumbing. `Output` models only the diagnostic dump.
- Rendering values with `%v` (pkg/config/config.go:120): values come already rendered in `Scalar`. A descriptor is faithful when a field is a `Struct` exactly when its Go type has struct kind, whatever the type. For example, a `time.Time` field is dumped as `Load time.Time` followed by its internal fields. Every other kind is a `Scalar`, and that includes pointers to structs.
- Multi-line values: one entry of `Output.lines` is one newline-terminated line of output, so the closing write of pkg/config/config.go:86 (a separator and a blank line) is two entries. A rendered value that itself contains a newline spans several lines on the terminal but is still one entry. "One line" in the rows above means one entry.
- Reflection (`reflect.ValueOf`, `Kind`, the pointer dereference at pkg/config/config.go:90-93): replaced by the `Value`/`Field` descriptor. A top-level pointer to a struct is described by the struct itself. The exported-name rule behind the panic at pkg/config/config.go:114 is carried by `Field.exported`.
- The panic itself (pkg/config/config.go:114) is modelled as an early return with `ok == false`. A `recover` in the caller is not modelled.
- PadRight: counts characters. The source measures tag width in bytes (`len`, line 106) but pads in runes (`%-*s`, line 120), and the two agree only for ASCII tags. With non-ASCII tags the source still aligns its leaf lines, but at a byte-count width that can exceed the longest tag's rune count. The model does not capture that extra width. The `fmt` cap on widths above 1000000 is modelled in `LeafLine` (see `LeafLineShape`), not in `PadRight`.
- CollectOptions: only the four options the package defines are modelled as `LoadOption`. The Go type `LoadOption` is an open function type (pkg/config/config.go:23), so a caller may also pass a nil option, which panics at line 28. A caller may also pass its own `func(*Options)`, which can reset the flag or the prefix, or set the file map to nil so that a later `AddFile`/`AddFiles` panics at line 59 or 66. `ApplyOptions`, `FilesCollected` and `PrintFlagSet` hold for the package's own options only.
- The closure captured by `AddFiles` refers to the caller's slice, so later changes to the slice would show; the model takes the slice by value.
