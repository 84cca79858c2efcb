# goctl handler merger, modelled in Dafny

This project models the handler merger of goctl's compact Go generator
(`mergehandlers.go`). For each group of an API description, the merger:

- works out where every route's handler lives and what it is called,
  starting from the route's `server.handler` and `server.group` annotations;
- opens the group's `handlers` file, creating it empty when it is missing;
- skips each route whose handler the file already declares;
- renders a handler function for each remaining route and gathers the
  route's imports without duplicates;
- appends the formatted new block to the file's original content. The block
  is preceded by an import header only when the file is new.

Modules:

- `Wrappers`: `Option` and `Result`, standing in for Go's `(value, ok)` and
  `(value, error)` pairs.
- `GoStrings`: the pieces of Go's `strings` package the merger uses, over
  `seq<char>`:
  - `TrimPrefix`, `TrimSuffix`, `TrimSpace` and `Join`;
  - `Title`, following Go's word-start rule.
- `Routes`: routes and groups with their annotation maps.
- `Naming`: resolving a route's handler base name, handler name and logic
  name (`getHandlerBaseName`, `getHandlerName`, `getLogicName`), with each
  error case as a `NameError`. It also holds the folder fallback
  (`getHandlerFolderPath`, `getLogicFolderPath`).
- `Imports`: `genHandlerImports`, `joinPackages`, and the membership-guarded
  append that builds a duplicate-free import list in first-seen order.
- `Merge`: the body of `gen`.
  - `MergeRoutes` is the route loop, with `MergeRoute` and `AppendNew` for
    its body. Each is proved equal to a specification function: `Fold`,
    `Step` or `AddNew`.
  - `Gen` drives a `VirtualFile` object, the destination file, which it
    changes in place. It is proved equal to the specification function
    `MergeSpec`.
  - The lemmas beside these functions give what the merge promises: which
    routes are synthesised and in what order, which errors stop it, the
    shape of the import list and the shape of the written file.
- `Driver`: `main`'s loop body for one group. `RunGroup` resolves every
  route's handler name and then calls `Gen`. It is proved equal to the
  specification function `RunGroupSpec`.
- `Example`: a worked instance. A group annotated `server.group: order` has
  one route whose handler annotation is `create`.

What the merger calls but cannot be seen from this file is a field of
`Collaborators`:

- `render`: executing the handler template on a `Handler` descriptor;
- `renderHeader`: executing the import-header template, including undoing
  its `&#34;` escaping;
- `goFormat`: Go's source formatter, `None` when formatting fails;
- `parse`: Go's parser, giving the names of a file's top-level function
  declarations, or its error message.

The parent package and the destination folder are plain inputs.

Some behaviour of the code that a reader might not expect, and that the
model keeps:

- **Handler names in custom folders.** Outside `internal/handler` the code
  title-cases handler names (lines 236-238). A route with handler
  `create` in group `order` gets `CreateHandler`, not `createHandler`
  (`Example.ExampleNames`).
- **Names are checked before the file is touched.** `main` resolves the
  handler name of every route of a group (lines 96-100) before it calls
  `gen` (line 106), and a rejected annotation panics there. So the
  destination file is neither created nor written
  (`Driver.RejectedAnnotationLeavesFileUntouched`), and a missing file is
  never left behind empty by a failed run (`Driver.MissingFileNeverLeftEmpty`).
  `gen` itself creates a missing file, empty, before it looks at any route
  (lines 130-136). `Merge.FailureWritesNothing` and
  `Merge.FailedRunBlocksRetry` state what `gen` does when it is called on
  its own. Through `main` an empty file is left behind only by failures after
  line 132 that the model does not have: `os.OpenFile` (line 139),
  `util2.LoadTemplate` (line 145), template parse or execute errors
  (lines 169-172 and 186-191), an `ioutil.ReadFile` error (lines 195-198)
  and an `fp.WriteString` error (line 203).
- **Re-running with nothing new.** When the file already declares every
  handler, the code still appends a newline and the formatter's output for
  empty input (`Merge.NothingNewStillAppends`), so the file grows.
- **Empty base names.** The code accepts an empty `server.handler` value,
  and also `handler` or `Handler`, each of which yields an empty base name.

## Model

| member | source | states |
|---|---|---|
| Routes.AnnotationValue | mergehandlers.go:256 | an annotation lookup succeeds exactly when `category.key` is annotated, and returns that value |
| GoStrings.TrimPrefixShape | mergehandlers.go:250 | `strings.TrimPrefix` removes one copy of a prefix that is present and changes nothing otherwise |
| GoStrings.TrimSuffixShape | mergehandlers.go:269-270 | `strings.TrimSuffix` removes one copy of a suffix that is present and changes nothing otherwise |
| GoStrings.TrimSpaceShape | mergehandlers.go:268 | `strings.TrimSpace` keeps an infix that neither starts nor ends with white space, and only white space lies around it |
| GoStrings.TrimSpaceNoSpace | mergehandlers.go:261-268 | on a name without white space, which validation guarantees, `TrimSpace` changes nothing |
| GoStrings.Title | mergehandlers.go:237 | `strings.Title` keeps the length and title-cases the first character; lines 161-163 use it too |
| GoStrings.Join | mergehandlers.go:185-194 | `strings.Join` of no parts is empty, of one part is that part, and of two parts puts one separator between them |
| GoStrings.JoinEnds | mergehandlers.go:185-194 | a join of at least one part starts with the first part and ends with the last |
| GoStrings.TitleOfIdentifier | mergehandlers.go:237 | `strings.Title` on a name of letters and digits only upper-cases its first character and keeps it letters and digits |
| GoStrings.TitleInsideIdentifier | mergehandlers.go:237 | inside an identifier no word starts, so the title-casing pass leaves it unchanged |
| GoStrings.UpperFirstKeepsSuffix | mergehandlers.go:235-237 | upper-casing the first character of `base + "Handler"` leaves the `Handler` suffix in place |
| GoStrings.AppendLetterOrDigit | mergehandlers.go:235 | appending a letters-and-digits suffix to a letters-and-digits name keeps it letters and digits |
| Naming.Message | mergehandlers.go:258-264 | the missing-annotation text has the path at offset 32 and starts with `m`; the invalid-annotation text has the path at offset 7, the value at offset 18 plus the path's length, and starts with `r`, so the two kinds never share a text |
| Naming.MessageNamesRoute | mergehandlers.go:258-265 | each error message contains the route path, and a rejected value is quoted in it as well |
| Naming.StripHandlerSuffixes | mergehandlers.go:268-270 | after white space is trimmed, nothing, one 7-letter suffix, or two of them are removed |
| Naming.StripHandlerSuffixesShape | mergehandlers.go:268-270 | after trimming white space, one trailing `handler` is removed when there is one, then one trailing `Handler`; the result is a prefix of the trimmed annotation |
| Naming.HandlerBaseName | mergehandlers.go:255-272 | every resolution error carries the path of the route being resolved |
| Naming.BaseNameShape | mergehandlers.go:255-272 | a missing annotation is an error. An annotation is rejected exactly when it is not all letters and digits. An accepted base is letters and digits, with at most one trailing `handler` and then at most one trailing `Handler` removed |
| Naming.MissingAnnotationReported | mergehandlers.go:255-259 | without a `server.handler` annotation, neither a handler name nor a logic name is produced, and the error names the route path |
| Naming.InvalidCharacterReported | mergehandlers.go:261-266 | resolution fails exactly when some character is neither a letter nor a digit, and the error carries and quotes both the path and the value |
| Naming.HandlerName | mergehandlers.go:229-233 | the handler name fails exactly when the base name does, with the same error |
| Naming.HandlerNameShape | mergehandlers.go:229-240 | the name is base + `Handler`, first character upper-cased exactly when the folder is not `internal/handler`. It always ends in `Handler`, is letters and digits, and its tail after the first character never changes |
| Naming.LogicName | mergehandlers.go:274-278 | the logic name fails exactly when the base name does, with the same error |
| Naming.LogicNameShape | mergehandlers.go:274-281 | the logic name is base + `Logic`, letters and digits, and ends in `Logic` |
| Naming.GroupAnnotation | mergehandlers.go:243-249 | a route's `server.group` annotation is used when present, the group's otherwise |
| Naming.TrimSlashes | mergehandlers.go:250-251 | dropping one leading and one trailing `/` never lengthens the value |
| Naming.TrimSlashesShape | mergehandlers.go:250-251 | the value is the result with the one leading `/` that was removed, if there was one, in front, and the one trailing `/` that was removed, if there was one, behind |
| Naming.PathJoin | mergehandlers.go:252 | an empty segment gives the root; otherwise the result splits back into the root, one `/` and the segment |
| Naming.FolderPath | mergehandlers.go:242-253 | with no annotation, or one that is empty, `/` or `//`, the result is the root. Otherwise it is root + `/` + the trimmed annotation, so always the root or under it |
| Naming.HandlerFolderPath | mergehandlers.go:242-253 | a handler folder is `internal/handler` or lies under it |
| Naming.LogicFolderPath | mergehandlers.go:309-320 | a logic folder is `internal/logic` or lies under it |
| Naming.RouteAnnotationWins | mergehandlers.go:243-245 | when the route has its own `server.group`, the group's annotation does not matter |
| Naming.DefaultFolders | mergehandlers.go:245-248 | with no annotation anywhere, the folders are exactly `internal/handler` and `internal/logic` |
| Naming.HandlerAndLogicFoldersAgree | mergehandlers.go:309-320 | a handler's folder and its logic package's folder carry the same sub-path under their roots |
| Naming.SlashOnlyGroupIsDefault | mergehandlers.go:250-252 | a `server.group` of `/` or `//` selects the default handler folder, so the handler name keeps its case |
| Imports.JoinPackages | mergehandlers.go:305-307 | two packages are joined with one `/` |
| Imports.HandlerImports | mergehandlers.go:292-303 | in order: the quoted logic path, then the quoted `svc` path under the parent package, then the types import when there is a request, then the fixed httpx import. The list has length 4 with a request and 3 without |
| Imports.TypesImport | mergehandlers.go:298 | the types import is the quoted `internal/types` path under the parent package, followed by a newline |
| Imports.TypesImportIffRequest | mergehandlers.go:298-301 | the types package is imported exactly when the route has a request type, and the httpx import does not depend on the parent package |
| Imports.FirstIndex | mergehandlers.go:176-180 | the first position of an element in a list: the vocabulary for the first-seen order that the import loop builds |
| Imports.FirstSeenOrderHasNoDuplicates | mergehandlers.go:176-180 | a list in first-seen order has no duplicates |
| Imports.AddNewMembers | mergehandlers.go:176-180 | the guarded append holds exactly what was there and what was offered |
| Imports.AddNewExtends | mergehandlers.go:176-180 | entries already in the list are never moved or dropped |
| Imports.AddNewAppend | mergehandlers.go:176-180 | offering two lists in turn is offering their concatenation |
| Imports.AddNewFirstSeen | mergehandlers.go:176-180 | starting from a duplicate-free list, the result has no duplicates and is in first-seen order of the list followed by the items |
| Merge.AlreadyDeclared | mergehandlers.go:154 | a route is skipped only in a file that existed; in an existing file that parses, it is skipped exactly when the file declares its handler name |
| Merge.Describe | mergehandlers.go:159-166 | the descriptor carries the handler name it was built for |
| Merge.DescriptorNames | mergehandlers.go:159-166 | for a resolved route: `Call` is the base name with its first letter upper-cased in every folder, and `LogicType` is `Call` + `Logic`. `RequestType` is the title-cased request type. `HasRequest` and `HasResp` hold exactly when the request and response types are non-empty |
| Merge.FoldErrorPersists | mergehandlers.go:152-181 | once the loop has failed, later routes do not change the outcome |
| Merge.AppendNew | mergehandlers.go:176-180 | the import loop computes the guarded append `AddNew` |
| Merge.MergeRoute | mergehandlers.go:153-180 | one pass of the loop body computes `Step`: name error, then parse error, then skip, then render and gather imports |
| Merge.MergeRoutes | mergehandlers.go:150-181 | the route loop computes `Fold`, stopping at the first error |
| Merge.AllResolvePrefix | mergehandlers.go:152-153 | if all routes resolve, so do all routes of any prefix |
| Merge.AllResolveSplit | mergehandlers.go:152-153 | all routes resolve exactly when the front and the last one do |
| Merge.Selected | mergehandlers.go:153-156 | a route is synthesised exactly when the file did not exist or does not declare its handler name, and every route is synthesised for a new file |
| Merge.RenderAll | mergehandlers.go:159-174 | one rendered function per synthesised route, in route order: the i-th is the template rendered on the i-th route's descriptor |
| Merge.ImportsOfMembers | mergehandlers.go:176 | an import is offered exactly when some route's import list holds it |
| Merge.FoldSucceeds | mergehandlers.go:152-181 | when every route resolves and an existing file parses, the loop renders exactly the selected routes in route order. It gathers their imports through the guarded append |
| Merge.FoldFails | mergehandlers.go:152-156 | the loop fails exactly when some handler annotation is missing or invalid, or when an existing file does not parse |
| Merge.FirstNameErrorReported | mergehandlers.go:152-153 | the first route with a bad annotation decides the error |
| Merge.UnparsableFileReported | mergehandlers.go:214-218 | when the first route resolves, an existing file that does not parse stops the loop there, with the parser's message |
| Merge.ImportsDeduplicated | mergehandlers.go:176-180 | when every route resolves and an existing file parses, the loop succeeds, and the gathered imports have no duplicates and are in first-seen order. An import is there exactly when some synthesised route needs it, so skipped routes contribute nothing |
| Merge.FormatCode | mergehandlers.go:283-290 | a formatting failure keeps the code unchanged; otherwise the formatted text is used |
| Merge.NewBlock | mergehandlers.go:183-194 | the formatted functions joined by a blank line; for a new file only, the rendered import header comes in front before formatting |
| Merge.Output | mergehandlers.go:194-202 | the original content is kept as a prefix; a non-empty content is followed by one newline and then the new block, an empty one by the block alone |
| Merge.WriteAt | mergehandlers.go:203 | writing at the start of a file opened without truncation: the text is a prefix, the length is the larger of the old length and the text's, and past a shorter text the old bytes are kept |
| Merge.VirtualFile.constructor | mergehandlers.go:139 | a file object with the given presence and content |
| Merge.VirtualFile.Create | mergehandlers.go:130-136 | `os.Create` leaves the file present and empty |
| Merge.VirtualFile.WriteString | mergehandlers.go:203 | the content becomes the text written over the old content |
| Merge.Gen | mergehandlers.go:114-205 | the file and the error `gen` leaves are those of `MergeSpec` on the file before the run |
| Merge.MergeWritesWholeOutput | mergehandlers.go:195-203 | on success the file holds exactly the assembled output, with no stale tail |
| Merge.HeaderOnlyWhenNew | mergehandlers.go:183-202 | a new file gets the formatted import header plus functions. An existing non-empty file gets its content, a newline and the formatted functions. An existing empty file gets only the formatted functions |
| Merge.OriginalContentKept | mergehandlers.go:200-203 | an existing file's content stays an unchanged prefix, on success and on failure |
| Merge.FailureWritesNothing | mergehandlers.go:130-181 | `gen` called on its own writes nothing when it fails, but a missing file has already been created empty |
| Merge.NothingNewStillAppends | mergehandlers.go:194-203 | re-running on a non-empty file that declares every handler adds no function, but the file still grows by a newline and the formatter's output for empty input |
| Merge.FailedRunBlocksRetry | mergehandlers.go:130-156 | for `gen` called on its own: if the parser rejects an empty file, a failed call on a new file leaves an empty file behind, and the next call fails to parse it |
| Driver.RunGroup | mergehandlers.go:89-111 | `main`'s body for one group computes `RunGroupSpec`: a group without routes is skipped, every handler name is resolved in the first route's folder, and only then is `Gen` called |
| Driver.FirstNameErrorResolves | mergehandlers.go:96-100 | the name check of `main` passes exactly when every route's handler annotation resolves |
| Driver.FirstNameErrorAt | mergehandlers.go:96-100 | the name check of `main` reports the error of the first route whose annotation is missing or invalid |
| Driver.RejectedAnnotationLeavesFileUntouched | mergehandlers.go:96-106 | a rejected annotation stops the group with the first bad route's error before `gen`, so the file is neither created nor written |
| Driver.ResolvedGroupIsMerged | mergehandlers.go:95-106 | when every route resolves, the group is merged into the folder chosen from its first route |
| Driver.MissingFileNeverLeftEmpty | mergehandlers.go:96-136 | run from `main`, a group whose file is missing either fails before the file is created or is merged without error |
| Example.ExampleBaseName | mergehandlers.go:255-272 | the annotation `create` has base name `create` |
| Example.ExampleFolders | mergehandlers.go:242-253 | `server.group: order` puts the handler under `internal/handler/order` and the logic under `internal/logic/order` |
| Example.CreateSpellings | mergehandlers.go:235-237 | `create` + `Handler` with its first letter upper-cased is `CreateHandler` |
| Example.ExampleNames | mergehandlers.go:229-240 | in that folder the handler is `CreateHandler` and the logic name is `createLogic` |

## Left out

- File-system calls are not modelled as I/O. `fileutil.Exist`, `os.Create`,
  `os.OpenFile`, `ioutil.ReadFile` and `fp.WriteString` become the
  `VirtualFile` object, and their I/O errors are not modelled.
- Removing the legacy per-route handler files in `main` (line 103) is file
  I/O outside the merge. `main`'s `format.FileNamingFormat` error on a
  handler name (lines 97-100) is not modelled; only the name check that
  precedes it is.
- `getParentPackage` and `format.FileNamingFormat` are external project
  collaborators. The parent package and the destination folder are inputs.
- `util2.LoadTemplate` is an external project collaborator; the template
  source is part of the `render` collaborator.
- Template execution, and the `&#34;` unescaping of the header, are the
  opaque `render` and `renderHeader` functions. Template execution errors
  (lines 170-172 and 189-191) are not modelled, because rendering is total
  here.
- `funcExist`'s Go parsing is the opaque `parse` function. Its
  unreadable-file case, which returns false, is I/O and is not modelled. Its
  parse panic becomes `ParseFailure`.
- `go/format`'s `Source` is the opaque `goFormat`. Only the fallback to the
  unformatted code is modelled.
- Panics and `debug.PrintStack` become error results.
- The console notice `merge handler <name>` (line 157) is output only.
- `unicode.IsLetter` and `unicode.IsDigit` are modelled on ASCII only, so a
  handler annotation with non-ASCII letters is rejected here. Go accepts it.
- `unicode.IsSpace` is modelled on Latin-1. `unicode.ToTitle` upper-cases
  only ASCII letters.
- `strings.Title` is modelled with ASCII word separators. Above ASCII, only
  white space separates words.
- `path.Join`'s cleaning (collapsing `//`, resolving `.` and `..`) is not
  modelled. A non-empty segment is joined with one `/`. Go's cleaning makes
  the result differ: `server.group: ..` gives `internal`, outside the root,
  and `server.group: .` gives `internal/handler`, which keeps the handler
  name's case. So the "under the root" contracts of `Naming.FolderPath`,
  `Naming.HandlerFolderPath` and `Naming.LogicFolderPath`, and the
  title-casing branch for such a group, hold only in the model. An
  annotation of three or more slashes is another such case: `///` trims to
  `/`, so the model's folder is `internal/handler//` and the name is
  title-cased, while Go cleans it to `internal/handler` and keeps the case.
- Go's `%q` escaping in the missing-annotation message is not modelled. The
  path is shown between plain double quotes.
- `util.GetAnnotationValue` is not part of this model. Annotations are a map
  from category and key to value.
- Merge.Selected: selection is stated only for routes that all resolve. When
  some route does not, the loop fails instead (`Merge.FoldFails`).
