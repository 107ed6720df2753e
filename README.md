# ifacemaker core in Dafny

This project models the part of ifacemaker that builds a Go interface from a struct's methods: `maker/maker.go`.
A `Maker` reads parsed Go source files one at a time. From each file it collects the exported methods whose receiver is the struct (`T` or `*T`) and renders each as a one-line method signature. Types in the signature are qualified with the source package when one is set. The `Maker` also registers the file's imports, but only for files that contributed such a method. Finally it emits the unformatted interface file.

Modules:

- `Outcomes` (`outcomes.dfy`): `Option` and `Result`.
- `Runes` (`runes.dfy`): the rune classes the scan uses and `Join`, which is `strings.Join`.
- `Qualifier` (`qualifier.dfy`): the `replaceType` scan as a pure function, `QualifyFrom`. It comes with its inverse, `Unqualify`, which deletes the inserted qualifiers at the runes the scan marks.
- `Declarations` (`declarations.dfy`):
  - `getReceiverTypeName` and the method filter of `parseDeclarations`;
  - the per-receiver counting of `ParseDeclarations`;
  - the merge of counts that `ReadStructs` performs across files.
- `Collector` (`collector.dfy`): specification functions for `printParameters` (`PrintedParams`) and for the loop of `parseDeclarations`, with their lemmas. The loop is the function `Collect`. It takes the rendering of one method as a parameter, and its lemmas hold for any rendering. `CollectDecls` is `Collect` with `RenderMethod` under the Maker's settings.
- `Imports` (`imports.dfy`): one iteration of `parseImports` as `Register`, and the whole loop as `RegisterAll`. `Valid` is the invariant that ties the by-path map, the by-alias map and the import list together.
- `Samples` (`samples.dfy`): a worked example, from a method declaration to the line of the interface that renders it.
- `Emitter` (`emitter.dfy`): `method.Lines`, `importedPkg.Lines`, and the line layout that `makeInterface` produces.
- `Makers` (`maker.dfy`): the `Maker` class, whose fields are the Go struct's fields. Its methods carry the loops of the Go code. Each method is proved against the specification functions above. Its ghost `Valid()` is kept by every method. `Valid()` says:
  - at most one method per name;
  - each method's code starts with its name;
  - `methodNames` is exactly the set of collected names;
  - the import registry is consistent.

The parser is represented by its output. A parsed file is a list of `Decl` values plus a list of `ImportSpec` values; a file the parser rejects is `Unparsable`. What `go/printer` writes for a parameter name or a type is given as `Text(s)`, or as `Unprintable` when printing fails. The result of `strconv.Unquote` on an import path is given as an `Option`.

## Model

| member | source | states |
|---|---|---|
| Qualifier.MarksAt | maker/maker.go:381-397 | addPrefix fires before rune i exactly when the rune before it is neither `.` nor an identifier rune and rune i is upper case |
| Qualifier.UnqualifyInverts | maker/maker.go:399-406 | the scan only inserts text: deleting `pkg.` before every marked rune gives back the input type text |
| Qualifier.QualifyLength | maker/maker.go:399-406 | the output is the input plus one `pkg.` per marked rune |
| Qualifier.NoUpperIsIdentity | maker/maker.go:392-396 | a type with no upper-case rune (built-ins, lower-case names) is left unchanged |
| Qualifier.QualifyAppend | maker/maker.go:399-406 | the scan only remembers the previous rune, so a text split anywhere is qualified piecewise |
| Qualifier.QualifyPointerExample | maker/maker.go:365-409 | `*Foo` with package `pkg` becomes `*pkg.Foo` |
| Qualifier.QualifiedNameExample | maker/maker.go:382-385 | an already qualified name such as `io.R` keeps its own package |
| Declarations.ReceiverTypeName | maker/maker.go:283-302 | a name is returned only together with the declaration it came from, and only when it names the single `T` or `*T` receiver of that method; whenever a method has such a receiver, that name and the method are returned; every other case gives `("", nil)` |
| Declarations.NumFieldsOne | maker/maker.go:288-291 | a receiver list that counts one field has exactly one entry, so `Recv.List[0]` exists |
| Declarations.EmptyStructNameDereferencesNil | maker/maker.go:84-88 | with an empty struct name, a plain function or a non-func declaration reaches `fd.Name` with `fd` nil |
| Declarations.Select | maker/maker.go:84-90 | a declaration is selected iff it is a method with one receiver `T` or `*T` for the struct name and its name is exported |
| Declarations.SelectAsWrittenAgrees | maker/maker.go:84-90 | for a non-empty struct name the code as written never dereferences nil and selects exactly what `Select` selects |
| Declarations.CountPositive | maker/maker.go:181-184 | a receiver name gets a count iff some declaration has that receiver name |
| Declarations.CountAppend | maker/maker.go:181-184 | counting is additive over concatenated declaration lists |
| Declarations.MergeCounts | maker/maker.go:497-499 | the loop over one file's counts adds each to the running total: the result has the union of the keys, each count is the sum of the two counts, and it equals `Merged` |
| Declarations.MergeCountsOfFiles | maker/maker.go:486-499 | merging per-file counts (`Merged`) equals counting all the files' declarations together |
| Declarations.CountReceivers | maker/maker.go:181-184 | the map's keys are the receiver names that occur, and each value is the number of declarations with that name |
| Collector.RenderMethod | maker/maker.go:98-113 | a method renders iff its parameters and results both print; the first failure reports where it happened; the code is `name(params) (results)` with both lists as `PrintedParams` prints them, so it starts with `name(`; docs are kept only when CopyDocs is set |
| Collector.FirstFailureOfPrefix | maker/maker.go:304-336 | once a field fails to print, printParameters fails with that failure whatever follows |
| Collector.FailsAt | maker/maker.go:313-328 | a failure in field ii, after fields that printed, is the result of the whole list |
| Collector.FieldsSoFarNext | maker/maker.go:311-332 | after field ii the buffer has gained the field's names, its qualified type and a comma unless the field is last |
| Collector.FieldsSoFarStep | maker/maker.go:313-332 | after field ii the buffer has gained that field's text and a comma unless the field is last |
| Collector.PrintedParamsExample | maker/maker.go:304-336 | `a, b int` and `error` print as `a,b int,error`: no space after either comma |
| Collector.RenderWith | maker/maker.go:93-108 | every method that renders has a code line starting with its name and `(` |
| Collector.CollectWellFormed | maker/maker.go:92-117 | collecting keeps names unique and code lines prefixed by their name, and only appends |
| Collector.HasMethodsIff | maker/maker.go:84-92 | hasMethods is true iff the file has an exported method of the struct, even one whose name was already collected |
| Collector.CollectFirstSeen | maker/maker.go:78-120 | without a failure, exactly the first declaration of each new method name is appended, in first-seen order, together with its rendering, and every one of them renders |
| Collector.RenderingsAt | maker/maker.go:100-117 | the method appended for the j-th new declaration is that declaration's rendering |
| Collector.CollectAppend | maker/maker.go:78-120 | collecting two declaration lists one after the other is the same as collecting their concatenation |
| Collector.NoCandidatesNoChange | maker/maker.go:84-90 | a file without an exported method of the struct leaves the collection unchanged |
| Imports.ErrorAlias | maker/maker.go:43-48 | the rendered alias is never empty, and a non-empty alias is rendered as itself |
| Imports.Register | maker/maker.go:123-165 | dot imports are skipped; success keeps every earlier registration and records the path with its alias; a path already registered with that alias changes nothing; a new path changes the by-path map only at the path, the by-alias map only at the alias, and is appended to the list; the three error cases with their causes |
| Imports.RegisterSucceedsIff | maker/maker.go:139-157 | a non-dot import is accepted iff its path unquotes and either the path is registered with the same alias, or the alias is empty or unused |
| Imports.RegisterValid | maker/maker.go:152-164 | one successful registration keeps the maps and the list consistent |
| Imports.RegisterAllValid | maker/maker.go:122-168 | parseImports keeps the registry consistent, and keeps every earlier registration, even when it stops at an error |
| Imports.AliasesDistinct | maker/maker.go:152-157 | in a consistent registry two different paths never share a non-empty alias |
| Imports.RegisterAllRecords | maker/maker.go:122-168 | after a run without error, every non-dot import of the file is registered under its path with its alias |
| Imports.RegisterAllExtends | maker/maker.go:122-168 | registrations are never removed or changed, even by a run that fails |
| Imports.DotImportsIgnored | maker/maker.go:128-138 | a file whose imports are all dot imports changes nothing and raises no error |
| Qualifier.QualifyFooExample | maker/maker.go:365-409 | `Foo` with package `pkg` becomes `pkg.Foo` |
| Samples.GetMethodExample | maker/maker.go:98-108 | `func (t *T) Get(k string) (v Foo, err error)` with source package `pkg` renders as `Get(k string) (v pkg.Foo,err error)` without docs |
| Samples.GetParamsExample | maker/maker.go:304-336 | the parameter list `k string` prints as `k string` |
| Samples.GetResultsExample | maker/maker.go:304-336 | the result list `v Foo, err error` prints as `v pkg.Foo,err error` |
| Samples.OneField | maker/maker.go:304-336 | a list of one field that prints is that field's text |
| Samples.TwoFields | maker/maker.go:304-336 | a list of two fields that print is their texts joined by a comma |
| Samples.PlainField | maker/maker.go:311-328 | a field with one name and a type without upper-case runes prints as the name, a space and the type |
| Samples.FooField | maker/maker.go:311-328 | a field with one name of type `Foo` prints as the name, a space and `pkg.Foo` |
| Emitter.AllImportLines | maker/maker.go:224-226 | one line per import |
| Emitter.ImportLineAt | maker/maker.go:277-281 | import k is rendered as `alias "path"` |
| Emitter.MethodLinesLength | maker/maker.go:270-275 | the method block has one line per doc comment plus one code line per method |
| Emitter.MethodLinesAt | maker/maker.go:236-238 | method i occupies its own block of lines, its docs followed by its code |
| Emitter.InterfaceHead | maker/maker.go:216-242 | the positions of the generated comment, blank line, package clause, import parentheses and interface header; the assertion line is present iff a source package is set; the last line is `}` |
| Emitter.InterfaceImportLine | maker/maker.go:223-226 | import k is on the line after `import (` plus k |
| Emitter.InterfaceMethodLines | maker/maker.go:233-239 | every collected method appears in the interface body, in collection order, docs first |
| Makers.IrrelevantFileChangesNothing | maker/maker.go:201-206 | a file without an exported method of the struct changes no state and raises no error, whatever its imports are |
| Makers.ImportErrorNeedsMethod | maker/maker.go:196-211 | an import error can only come from a file that has an exported method of the struct |
| Makers.Maker.constructor | maker/maker.go:24-39 | a fresh Maker has the given struct name and CopyDocs, and no methods, imports or source package |
| Makers.Maker.Init | maker/maker.go:50-63 | resetting methodNames while no method is collected leaves a consistent Maker unchanged |
| Makers.Maker.AddImport | maker/maker.go:65-68 | the import is appended to the list only; neither map is touched |
| Makers.Maker.SourcePackage | maker/maker.go:70-72 | sets the source package and nothing else |
| Makers.Maker.OmitGeneratedComment | maker/maker.go:74-76 | sets the flag and nothing else |
| Makers.Maker.ReplaceType | maker/maker.go:365-409 | the loop computes `Qualify`; with no source package the input is returned as is; otherwise deleting the inserted qualifiers restores the input |
| Makers.Maker.PrintNames | maker/maker.go:311-322 | the names loop fails iff some name does not print; otherwise it writes the names joined by "," followed by a space |
| Makers.Maker.PrintParameters | maker/maker.go:304-336 | the loop computes `PrintedParams`: the first printing failure, or the fields joined by commas |
| Makers.Maker.BuildMethod | maker/maker.go:98-113 | printing the parameters, then the results, and building the code line gives exactly `RenderMethod` under the Maker's settings |
| Makers.Maker.AddMethod | maker/maker.go:115-116 | the method is appended under its new name; the Maker stays consistent; imports and settings are unchanged |
| Makers.Maker.ParseMethods | maker/maker.go:78-120 | the loop computes `CollectDecls` on the state before it, keeps the Maker consistent and leaves the imports alone |
| Makers.Maker.ImportOne | maker/maker.go:124-165 | one iteration registers the import exactly as `Register` does, or leaves the registry as it was and reports `Register`'s error |
| Makers.Maker.ParseImports | maker/maker.go:122-168 | the loop computes `RegisterAll` on the registry before it and leaves the methods alone |
| Makers.Maker.ParseSource | maker/maker.go:189-214 | the new state and the error are those of `Ingest`: a parse error, a rendering error, or imports registered only when the file has methods |
| Makers.Maker.ParseDeclarations | maker/maker.go:172-185 | a parse error gives an empty map; otherwise each receiver name maps to its number of declarations; the state is unchanged |
| Makers.Maker.MakeInterfaceText | maker/maker.go:216-242 | the unexported `makeInterface`: the text is `InterfaceLines` joined by newlines |

## Left out

- Parsing, `go/printer` and the file set: represented by their outputs, as described above. Printer failures are modelled only as "this name or type did not print".
- `strconv.Unquote` is an `Option` given with each import. Go's `%q` quoting of a path is modelled as wrapping it in double quotes, without escaping.
- Rune classes: `unicode.IsLetter`, `unicode.IsDigit` and `unicode.IsUpper` are restricted to ASCII. Decoding invalid UTF-8 to U+FFFD is not modelled; a string is a sequence of runes.
- `formatCode` and the public `MakeInterface` wrapper (gofmt and goimports) are not modelled. The model stops at the unformatted text. That text has no space after the commas between parameter names or between fields (see `Collector.PrintedParamsExample`); it is formatting that adds them.
- Error values: only their kind and the data they carry are kept (`ImportError`, `RenderError`, `MakerError`), not their message strings or wrapping.
- `Makers.Maker.ParseDeclarations`: counts are unbounded integers, so the `int32` wrap-around after 2^31 - 1 declarations is not modelled. The same holds for `Declarations.MergeCounts`.
- `Makers.Maker.PrintParameters`: the names loop, which Go writes inline, is the separate method `PrintNames`. It writes the same text in the same order.
- `Makers.Maker.ParseMethods`: the body for a new method, which Go writes inline, is the separate methods `BuildMethod` and `AddMethod`. The body of the `parseImports` loop is likewise `ImportOne`. They do the same steps in the same order.
- nil versus empty: Go's nil maps, nil slices and nil doc lists are the empty `map`, `seq` and list. A nil `FieldList` is the empty field list, which prints as "" just as the nil check does. `init`'s allocation of nil maps has no effect in the model.
- The file set (`fset`) is not part of the state.
- `GetGoFiles`, `ParseFiles`, `ReadStructs` file reading and `ioutil.ReadFile`: I/O. Only `ReadStructs`' merge of the per-file counts is modelled.
- `replaceTypeOld` and `removePrefix` are not modelled, because nothing calls them.
- The command-line program `ifacemaker.go` is not part of this model.

## Findings

| source | as written | input that shows it | evidently intended | confidence | as-written member | corrected member |
|---|---|---|---|---|---|---|
| maker/maker.go:84-88 | a declaration is skipped only when its receiver name differs from `StructName`; `getReceiverTypeName` returns `("", nil)` for non-methods, so with an empty `StructName` the next line reads `fd.Name` on a nil `fd` | `StructName` = "" and a file holding a plain function `func f() {}` or any non-func declaration | skip every declaration that is not a method of the struct | not executed; follows from the code for an empty struct name | Declarations.EmptyStructNameDereferencesNil | Declarations.Select |
