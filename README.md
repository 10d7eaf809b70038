# search-nixos-api in Dafny

A model of the core of search-nixos-api, the service behind a search page for
options and packages of the Nix ecosystem. It covers four parts:

- The indexer turns the five upstream JSON releases (NixOS options,
  Home Manager options, nix-darwin options, nixpkgs packages and NUR
  packages) into one uniform shape:
  - `Option` for the three option sources;
  - `Package` for the two package sources, with a simplified platform list.
- The lenient decoders read the fields whose JSON shape varies from one
  upstream entry to the next:
  - platform lists;
  - licences as a string or an object, one or a list of them;
  - NUR maintainers as an object, a bare name or a string.
- The search engine filters the key list by source and by whitespace-separated
  terms, then ranks the keys by length.
- The `/search` endpoint validates `q`, `page`, `per_page` and `exclude` and
  returns one page of the ranked result.

## Layout

| File | Module | Contents |
|---|---|---|
| `wrappers.dfy` | `Wrappers` | `Option` and `Result`, which supports `:-` |
| `gostrings.dfy` | `GoStrings` | the parts of Go's `strings` and `unicode` that the core uses |
| `strconv.dfy` | `Strconv` | `strconv.Atoi` on 64-bit `int`, and its inverse `Itoa` |
| `json.dfy` | `Json` | JSON values and the `encoding/json` rules the decoders rely on |
| `lenient.dfy` | `Lenient` | `FlexibleStringSlice`, `License`, `ElemOrSlice` |
| `nixpkgs.dfy` | `Nixpkgs` | the nixpkgs release format, with its strict maintainer shape |
| `nur.dfy` | `Nur` | the NUR release format, with the lenient `Maintainer`/`Maintainers` decoders |
| `sources.dfy` | `Nixos`, `Homemanager`, `Darwin`, `IndexType` | the option-source records and the uniform index records |
| `index.dfy` | `Index` | `simplifyPlatform` and the record-mapping loops of the five `dl*` functions |
| `search.dfy` | `Search` | `DeleteNonMatchingItems`, `Keys.Search` and the ranking sort |
| `api.dfy` | `Api` | the `/search` handler: validation, pagination, and the handler itself |

The nixpkgs and NUR copies of `FlexibleStringSlice`, `License` and
`ElemOrSlice` are identical (`indexer/nixpkgs/nixpkgs.go:39-129`,
`indexer/nur/nur.go:45-191`), so each is defined once, in `Lenient`, and both
source modules use that definition. The two copies therefore agree on every
input by construction.

The code changes state in several places, and the model keeps that form:
- the map-building loops of the `dl*` functions are `Index.Normalize*`;
- the platform simplification is `Index.SimplifyPlatform`;
- the NUR maintainer loop is `Nur.UnmarshalMaintainers`;
- the filter loop is `Search.DeleteNonMatchingItems`;
- the term loop is `Search.FilterTerms`;
- the in-place sort is `Search.SortBy`, which works on an `array`.

Each method is proved against a function that specifies it, and the lemmas are
about those functions. Regular expressions are not modelled as strings. The
search builds only two kinds, and `Search.Pattern` names them:
- a disjunction of anchored source prefixes;
- a case-insensitive literal with optional anchors at the start and the end.

### Behaviour of the code worth knowing

- A query that is empty after trimming returns the key list as it is,
  unfiltered and in its stored order (`indexer/search.go:36-39`).
- Sources are excluded only through the `exclude` parameter; every term of
  the query is a literal with optional `^` and `$` anchors.
- The exclusion names are `nixpkgs`, `nixos`, `homemanager`, `darwin` and
  `nur`. `home-manager` excludes nothing (`Search.ExcludeHomeManagerSpelling`).
  Excluding `nixos` removes the `nixpkgs/option/` names.
- The ranking compares Go's `len`, the UTF-8 byte length, of the key after
  one leading `services.` and then one leading `programs.` are trimmed. No
  suffix is trimmed, so `services.foo.enable` ranks by `foo.enable`
  (`Search.SortLenTrims`), and `éé` ranks after `abc`
  (`Search.SortLenCountsBytes`).
- `PositionUrl` replaces the first `:` of the position with `#L`
  (`indexer/index.go:145-150`).
- `Vulnerable` is set when `knownVulnerabilities` is present. A present but
  empty list also sets it (`Index.VulnerableIffPresent`).
- NixOS options carry the source name `nixpkgs` (`indexer/index.go:50`).
- The NUR key-name prefix is `nur/option/` (`indexer/nur/nur.go:10`).
- The handler checks `q` before trimming it, so a `q` made only of spaces
  passes validation. The search then returns every key.
- A numeric NUR `githubId` goes through a float64, so ids above 2^53 are
  rounded (`Json.Float64Rounds`); a string id is read exactly.
- `indexer/index.go:214` reads `v.Meta.KnownVulnerabilities` from a NUR
  package, but the NUR `Meta` (`indexer/nur/nur.go:26-38`) declares no such
  field. The model gives the NUR meta an optional `knownVulnerabilities`,
  decoded like the nixpkgs one (`Nur.MetaKnownVulnerabilities`).

## Model

| member | source | states |
|---|---|---|
| GoStrings.ContainsAt | indexer/index.go:25 | `strings.Contains` holds whenever the substring occurs at some position |
| GoStrings.TrimLeftSpace | indexer/search.go:36 | the result is a suffix of the input, what was cut is all white space, and the result does not start with white space |
| GoStrings.TrimRightSpace | indexer/search.go:36 | the result is a prefix of the input, what was cut is all white space, and the result does not end with white space |
| GoStrings.TrimSpaceEmpty | indexer/search.go:36-39 | a query trims to nothing exactly when every character is white space |
| GoStrings.WordLength | indexer/search.go:66 | the length of the leading run of non-space characters, and what follows it is a space |
| GoStrings.ByteLen | indexer/search.go:87-90 | the length of the UTF-8 encoding of a string, which is Go's `len`: at least one and at most four bytes per character |
| GoStrings.AsciiByteLen | indexer/search.go:87-90 | an ASCII string is as many bytes long as it has characters |
| GoStrings.FieldsWords | indexer/search.go:66 | every field of `strings.Fields` is a non-empty run of non-space characters |
| GoStrings.FieldsEmpty | indexer/search.go:66 | `strings.Fields` returns no field exactly when the text is all white space |
| GoStrings.Split | cmd/main.go:115 | `strings.Split` returns at least one piece |
| GoStrings.SplitJoin | cmd/main.go:112-116 | joining the pieces of a split with the separator gives the input back, and no piece contains the separator |
| GoStrings.IndexOf | indexer/index.go:145-150 | the position of the first occurrence of the character |
| GoStrings.ReplaceFirstAbsent | indexer/index.go:145-150 | replacing the first `:` of a text without `:` leaves it unchanged |
| GoStrings.ReplaceFirstPresent | indexer/index.go:145-150 | otherwise the replacement is spliced in at the first occurrence only, and the text before and after it is kept |
| Strconv.NatDigits | cmd/main.go:91 | the decimal digits of a natural number are non-empty and all digits |
| Strconv.NatDigitsValue | cmd/main.go:91 | reading the decimal digits of `n` gives `n` |
| Strconv.AtoiItoa | indexer/nur/nur.go:79 | `Atoi` inverts the decimal rendering of every 64-bit integer |
| Json.DecodeEachOk | indexer/nur/nur.go:91-94 | decoding an array succeeds exactly when every element decodes, and the result keeps length and order |
| Json.StringsRoundTrip | indexer/nixpkgs/nixpkgs.go:34 | a list of strings published as an array decodes into a Go `[]string` as itself |
| Json.RoundToMultiple | indexer/nur/nur.go:72-77 | the result is one of the two multiples of the step around the number, at most half a step away, and on a tie it is the lower one exactly when that one is an even multiple |
| Json.RoundFloat64 | indexer/nur/nur.go:72-77 | the float64 a JSON number becomes: its magnitude is one of the two multiples of the float64 spacing around the number's magnitude, on a tie the even multiple, the sign is kept, and it is at most half a spacing away |
| Json.Float64Exact | indexer/nur/nur.go:72-77 | a number of at most 2^53 in magnitude decodes to itself |
| Json.Float64Rounds | indexer/nur/nur.go:72-77 | above 2^53 numbers are rounded: 2^53 + 1 decodes to 2^53 and 2^53 + 3 to 2^53 + 4 |
| Lenient.FlexibleStringSliceCases | indexer/nixpkgs/nixpkgs.go:39-56 | a string array is taken as is, a string becomes a one-element list, and anything else (another array, a number, a boolean, an object) becomes the empty list, never an error |
| Lenient.FlexibleStringSliceRoundTrip | indexer/nur/nur.go:45-62 | a list of strings encoded as a JSON array decodes back to itself |
| Lenient.ElemOrSliceArray | indexer/nixpkgs/nixpkgs.go:105-129 | an array decodes exactly when every element does, element by element |
| Lenient.ElemOrSliceSingleton | indexer/nur/nur.go:167-191 | a lone element behaves as a one-element array: it succeeds exactly when that would, with the same single value |
| Lenient.LicenseRoundTrip | indexer/nur/nur.go:139-163 | a string licence becomes a licence with only `fullName` set, and an encoded licence object decodes back to itself |
| Lenient.LicensesRoundTrip | indexer/nur/nur.go:167-191 | an array of published licence objects decodes through `ElemOrSlice` back to the licences, in order |
| Lenient.StringListRoundTrip | indexer/nur/nur.go:167-191 | an array of strings goes through `ElemOrSlice` unchanged |
| Lenient.LicenseZeroAndErrors | indexer/nixpkgs/nixpkgs.go:77-101 | an empty object gives the zero licence, and a number, boolean or array is an error |
| Lenient.MixedLicenses | indexer/nixpkgs/nixpkgs.go:105-129 | a licence list can mix strings and objects, and both decode in place |
| Nixpkgs.StrictMaintainers | indexer/nixpkgs/nixpkgs.go:58-63 | a nixpkgs maintainer is decoded by the plain struct rules: a bare string or a string id makes `json.Unmarshal` report an error, and absent fields are zero |
| Nixpkgs.DecodeMaintainersOk | indexer/nixpkgs/nixpkgs.go:27 | the maintainer list decodes exactly when it is an array of decodable maintainers, element by element |
| Nixpkgs.MaintainersRoundTrip | indexer/nixpkgs/nixpkgs.go:58-63 | every list of maintainers with 64-bit ids, published as an array of objects, decodes back to itself |
| Nixpkgs.MetaKnownVulnerabilities | indexer/nixpkgs/nixpkgs.go:21-35 | a `meta` with no keys decodes to the zero value, and `knownVulnerabilities: []` is kept as present-but-empty rather than absent |
| Nixpkgs.MetaHomepage | indexer/nixpkgs/nixpkgs.go:25 | a single homepage string decodes to a one-element homepage list |
| Nixpkgs.MetaPlatforms | indexer/nixpkgs/nixpkgs.go:33 | an object given as `platforms` decodes to the empty list instead of failing the package |
| Nixpkgs.PackageWithoutMeta | indexer/nixpkgs/nixpkgs.go:16-19 | a package object holding only `version` decodes with the zero meta and that version |
| Nixpkgs.MetaRoundTrip | indexer/nixpkgs/nixpkgs.go:21-35 | every `meta` whose maintainers have 64-bit ids decodes back to itself from its published object, an absent homepage, platform or vulnerability list being an absent key |
| Nur.UnmarshalMaintainers | indexer/nur/nur.go:90-118 | the loop succeeds exactly when the input is an array whose every entry decodes, the entries become the maintainers in order, and it agrees with the functional decoder |
| Nur.GithubIdCases | indexer/nur/nur.go:75-86 | a numeric id goes through a float64: an id of at most 2^53 in magnitude is kept unchanged, while 2^53 + 1 comes back as 2^53; a decimal string is read by `Atoi`; a malformed string, a missing id or any other type is an error |
| Nur.MaintainerRoundTrip | indexer/nur/nur.go:64-88 | an encoded maintainer decodes back to itself when its id is sent as a string, and when it is sent as a number of at most 2^53 in magnitude |
| Nur.MaintainersRoundTrip | indexer/nur/nur.go:90-118 | every list of maintainers whose ids are at most 2^53 in magnitude, published as an array of objects with numeric ids, decodes back to itself |
| Nur.NameOnlyFallback | indexer/nur/nur.go:102-108 | an object that fails the full decoding but has a non-empty `name` becomes a maintainer with only the name |
| Nur.EntryShapes | indexer/nur/nur.go:96-115 | a bare string is a name-only maintainer, and a number, boolean, array or empty object is an error |
| Nur.MaintainersFailure | indexer/nur/nur.go:91-114 | a non-array, or an array holding one entry that fits no shape, fails the whole list |
| Nur.PackageWithoutMeta | indexer/nur/nur.go:17-20 | a package object holding only `version` decodes with the zero meta and that version |
| Nur.MetaKnownVulnerabilities | indexer/nur/nur.go:26-38 | a present `knownVulnerabilities: []` is kept apart from an absent one, and a meta with no keys is the zero meta |
| Nur.MetaRoundTrip | indexer/nur/nur.go:26-38 | every `meta` whose maintainers' ids are at most 2^53 in magnitude decodes back to itself from its published object, an absent homepage, platform or vulnerability list being an absent key |
| Index.FirstNewTag | indexer/index.go:24-31 | the first platform tag at or after `j` that the platform string contains and that has not been collected yet |
| Index.SimplifiedFacts | indexer/index.go:20-35 | the simplified platforms have no duplicates, each is one of the five tags and occurs in some platform string, and there are no more of them than platform strings |
| Index.SimplifiedPrefix | indexer/index.go:23-33 | the simplification only appends: the result for a prefix of the platforms is a prefix of the result for all of them |
| Index.SimplifiedCovers | indexer/index.go:23-33 | every platform string that contains some tag contributes, so some collected tag occurs in it |
| Index.NotContains | indexer/index.go:25 | a string lacking some character of the tag does not contain the tag |
| Index.AddLinux | indexer/index.go:23-33 | `x86_64-linux` contributes `linux` |
| Index.AddDarwin | indexer/index.go:23-33 | `aarch64-darwin` adds `darwin` after `linux` |
| Index.SimplifiedExample | indexer/index.go:20-35 | `[x86_64-linux, aarch64-darwin]` simplifies to `[linux, darwin]` |
| Index.ScanTags | indexer/index.go:24-32 | the scan of one platform string appends the first tag it contains that is not yet collected, skipping collected ones, and otherwise leaves the tags as they were |
| Index.SimplifyPlatform | indexer/index.go:20-35 | only `platformsSimplify` changes; it becomes the simplification of `platforms`, without duplicates, with only tags that occur in some platform string |
| Index.DeclarationUrls | indexer/index.go:79-85 | one URL per Home Manager declaration, in order |
| Index.CopyLicenses | indexer/index.go:167-173 | one licence record per decoded licence, in order, with the same fields |
| Index.CopyNixpkgsMaintainers | indexer/index.go:174-181 | one maintainer record per nixpkgs maintainer, in order, with the same fields |
| Index.CopyNurMaintainers | indexer/index.go:237-244 | one maintainer record per NUR maintainer, in order, with the same fields |
| Index.NormalizeNixos | indexer/index.go:47-58 | the options have the same keys as the release, and each is that key's record as mapped |
| Index.NormalizeHomemanager | indexer/index.go:73-87 | the options have the same keys as the release, and each is that key's record as mapped |
| Index.NormalizeDarwin | indexer/index.go:102-113 | the options have the same keys as the release, and each is that key's record as mapped |
| Index.NixpkgsRecord | indexer/index.go:130-182 | one nixpkgs package becomes its mapped record, which is well formed |
| Index.NormalizeNixpkgs | indexer/index.go:128-183 | the packages have the same keys as the release, and each is that key's mapped record and is well formed |
| Index.NurRecord | indexer/index.go:200-245 | one NUR package becomes its mapped record, with the position as its URL, and that record is well formed |
| Index.NormalizeNur | indexer/index.go:198-246 | the packages have the same keys as the release, and each is that key's mapped record and is well formed |
| Index.NixpkgsPositionUrlSpec | indexer/index.go:145-150 | the URL is the GitHub base followed by the position with its first `:` replaced by `#L`, or by the position unchanged when it has no `:` |
| Index.VulnerableIffPresent | indexer/index.go:151-156 | a package is vulnerable exactly when its vulnerability list is present, and the list is then copied, else empty; the NUR loop (lines 214-219) follows the same rule |
| Index.PackagesWellFormed | indexer/index.go:130-245 | every mapped package is well formed: its simplified tags have no duplicates, each is one of the five tags and is mentioned by one of its platforms, it is never insecure, and a non-vulnerable package has no vulnerability list; and the simplified tags are the simplification of its platforms |
| Index.RecordRules | indexer/index.go:49-229 | the source names, the NUR position URL is the bare position, absent homepages and platforms are empty lists, and list lengths are kept |
| Index.PackagesWithoutMeta | indexer/index.go:128-246 | a nixpkgs or NUR package with only a version decodes and normalises to a record with that version, no platforms, no simplified tags, no homepages, no vulnerabilities and not vulnerable; its URL is the bare browsing base for nixpkgs and empty for NUR |
| Search.DeleteNonMatchingItems | indexer/search.go:16-30 | the kept items are the matching ones in their original order, and a pattern that does not compile returns the input unchanged |
| Search.RetainedOrder | indexer/search.go:23-29 | the filter only removes items and keeps the relative order of the rest |
| Search.RetainedCount | indexer/search.go:23-29 | a matching item keeps all its copies, and a non-matching one keeps none |
| Search.RetainedUncompilable | indexer/search.go:17-21 | on a compile error every item is kept |
| Search.RetainedMembers | indexer/search.go:23-29 | an item is kept exactly when it was present and its name matches |
| Search.SourcePrefixesEmpty | indexer/search.go:43-64 | no source pattern is built exactly when all five source names are excluded |
| Search.AllTermsKeepIff | indexer/search.go:66-80 | a key passes all the term filters exactly when every term of the query matches its name |
| Search.ApplyTermsCount | indexer/search.go:66-80 | after the term loop a key keeps all its copies exactly when every term matches its name, and none otherwise |
| Search.SelectedCounts | indexer/search.go:41-80 | for a non-empty query, each key keeps all its copies exactly when its source is not excluded and every term matches it, and none otherwise, so the result is a sub-multiset of the input |
| Search.SelectedCount | indexer/search.go:41-80 | the same count, for one key |
| Search.NothingAdmitted | indexer/search.go:59-64 | with all five sources excluded no key is admitted |
| Search.SelectedCountSome | indexer/search.go:41-80 | with some source left, a key keeps all its copies when it is admitted and none otherwise |
| Search.SourceAllowedIff | indexer/search.go:43-61 | a name passes the source filter exactly when it starts with the prefix of a source that is not excluded |
| Search.PrefixesAgree | indexer/search.go:43-61 | two prefixes that both start a name agree where both are defined |
| Search.ExcludeNixpkgs | indexer/search.go:44-46 | excluding `nixpkgs` removes exactly the `nixpkgs/package/` names and keeps the NixOS options |
| Search.ExcludeNixos | indexer/search.go:47-49 | excluding `nixos` removes exactly the `nixpkgs/option/` names |
| Search.ExcludeHomeManagerSpelling | indexer/search.go:50-52 | excluding `home-manager` removes nothing, and excluding `homemanager` removes exactly the Home Manager names |
| Search.AllExcluded | indexer/search.go:59-64 | with all five sources excluded, no pattern is built and the result is empty |
| Search.TermAnchors | indexer/search.go:66-80 | ignoring case, `^w` tests the start of the name, `w$` its end, `^w$` the whole name, and `w` any substring |
| Search.BareAnchors | indexer/search.go:69-77 | a lone `^` or `$` matches every name, and `^$` matches only the empty name |
| Search.AnchorPatterns | indexer/search.go:69-77 | `^`, `$` and `^$` strip to the empty literal with the corresponding anchors |
| Search.MinFrom | indexer/search.go:82-93 | a position in the rest of the array whose key has the least rank there |
| Search.SelectionStep | indexer/search.go:82-93 | swapping a least-ranked key of the unsorted rest into place extends the sorted prefix and keeps the keys with their multiplicities |
| Search.SortBy | indexer/search.go:82-93 | the array ends up sorted by the rank given (the ranking length, from `Search.Rank`) and holds the same keys with the same multiplicities |
| Search.SortLenTrims | indexer/search.go:83-90 | the ranking length is the UTF-8 byte length of the key after one leading `services.` and then one leading `programs.` are trimmed, in that order, and nothing else |
| Search.SortLenCountsBytes | indexer/search.go:87-90 | `len` counts bytes: `abc` (3 bytes) ranks before the two-character `éé` (4 bytes), and not the other way round |
| Search.Search | indexer/search.go:32-96 | a query that trims to nothing returns the keys unchanged; otherwise the result is ranked by byte length and holds exactly the selected keys with their multiplicities, and it is empty when every source is excluded |
| Search.Rank | indexer/search.go:82-93 | the ranked copy of the keys (cloned at line 41) is sorted by ranking length, the UTF-8 byte length of the trimmed key, and is a permutation of the input |
| Search.SourcePatterns | indexer/search.go:43-58 | the prefixes of the sources that are not excluded, in the order nixpkgs, nixos, homemanager, darwin, nur |
| Search.FilterTerms | indexer/search.go:66-80 | the term loop applies each term's anchored filter in turn |
| Api.ParseCount | cmd/main.go:91-110 | a counting parameter is accepted exactly when it is a decimal integer of at least 1; a non-number and a number below 1 give distinct 400 errors |
| Api.ParseRequest | cmd/main.go:86-118 | accepted exactly when `page` (default 1) and `per_page` (default 20) are positive integers and `q` is non-empty; a non-integer gives the "Invalid" message and a value of 0 or less the "must be greater than 0" message of its parameter; `page` errors come first, then `per_page`, then `q`, all with status 400; an accepted request carries the parsed numbers and the `exclude` list |
| Api.Defaults | cmd/main.go:87-116 | absent `page`, `per_page` and `exclude` mean page 1, 20 per page and no exclusions |
| Api.ExcludeListRoundTrip | cmd/main.go:112-116 | the exclude list consists of comma-free pieces that rejoin into the parameter |
| Api.Paginate | cmd/main.go:121-133 | an empty result is total 0 and one page; `totalPages` is the ceiling of total over `per_page`; a short result is returned whole whatever the page; otherwise the page is the slice from `(page-1)*per_page` to `min(page*per_page, total)`, at most `per_page` long, and a start past the end is the out-of-range slice panic, answered as a 500 with an empty body (`Api.SlicePanic`) |
| Api.CeilingDivision | cmd/main.go:126 | `(n + d - 1) / d` is the least number of pages of `d` that hold `n` |
| Api.PageCoverage | cmd/main.go:127-132 | every key of a long result appears on page `i / per_page + 1` at offset `i % per_page`, and that page exists |
| Api.Wrap64 | cmd/main.go:126-129 | two's-complement wrap-around: the result lies in the 64-bit range and differs from the exact value by a multiple of 2^64, so in-range values are unchanged |
| Api.PaginateInt64 | cmd/main.go:121-133 | the pagination evaluated in 64-bit `int`, with the total unchanged |
| Api.PaginateInt64Agrees | cmd/main.go:121-133 | without overflow, the 64-bit pagination equals the unbounded one |
| Api.StartNoWrap | cmd/main.go:128-129 | when `page * per_page` fits in 64 bits, so do the page start and the page end, which are then exact |
| Api.TotalPagesOverflow | cmd/main.go:126 | two results with the largest `per_page` report -1 pages in the 64-bit code and 1 page in `Api.Paginate` |
| Api.StartOverflow | cmd/main.go:128-132 | page 2^62+1 of five results at four per page serves the first four results in the 64-bit code, while `Api.Paginate` finds the start past the end and answers `Api.SlicePanic` |
| Api.HandleSearch | cmd/main.go:86-135 | a validation error is returned as it is; a `q` of spaces pages through every key unfiltered; otherwise the response pages a ranked permutation of the selected keys. It pages with the unbounded `Api.Paginate`, so on the two overflow inputs under Findings it answers `totalPages` 1 where the code as written answers -1, and the 500 where the code serves the first page |

## Left out

- Reading, downloading and writing files, the HTTP client, logging, the
  `Info` counts, the index assembly of `DownloadReleases` and the background
  refresh goroutine. These are I/O and concurrency, and they sit around the
  modelled loops.
- Gin routing, CORS and the JSON rendering of responses. The other endpoints
  are plain map lookups.
- JSON `null`, Go's case-insensitive matching of object keys, and duplicate
  keys. The model's objects are maps with exact keys.
- The decoding of the three option-source records into their Go structs. The
  records start out already decoded.
- Lenient.DecodeLicense, Lenient.ElemOrSlice: the guard against empty
  input bytes is not modelled. A parsed JSON value is never empty.
- Nur.GithubId, Nur.GithubIdCases, Nur.MaintainerRoundTrip: the JSON
  numbers of the model are integers, so the truncation of a fraction by
  `int(v)` has nothing to act on. The rounding to float64 is modelled, so a
  numeric id round-trips only up to 2^53 in magnitude. Go leaves `int(v)`
  implementation-dependent for a float64 outside the 64-bit range; the model
  keeps the rounded value there.
- Nixpkgs.DecodeMeta, Nixpkgs.DecodeMaintainer, Nixpkgs.StrictMaintainers, Nur.DecodeMeta:
  the model returns an error for every failed field, and Go's `encoding/json`
  treats two kinds of failure differently. A value of the wrong type in a
  plain field (a string as `knownVulnerabilities`, a string `githubId` or a
  bare-string entry in the nixpkgs maintainer list, a number as `name`) does
  not stop decoding. Go leaves that field at its zero value, decodes the
  rest, and returns the partly filled value together with the error. An error
  returned by a custom `UnmarshalJSON` (License, ElemOrSlice, the NUR
  maintainers) stops decoding at that entry. `dlNixpkgs` and `dlNur`
  (`indexer/index.go:122-125`, `indexer/index.go:192-195`) only log the error
  returned by `indexer/utils.go:53-55` and normalise whatever was decoded. So
  a package with a mistyped plain field is still indexed, with that field
  zero (`Vulnerable` false, or a maintainer with `githubId` 0). The model
  covers releases that decode without error.
- Error texts of the decoders are approximations; only the fact of an error
  is modelled. The 400 messages of the handler are exact. A page past the
  end makes the code panic on the slice; gin's Recovery middleware then
  answers 500 with an empty body, which `Api.SlicePanic` stands for.
- The distinction between Go's `nil` slices and empty slices. Both are
  empty sequences.
- Search.LiteralMatch: case is folded for ASCII letters only. Go's `(?i)`
  uses Unicode simple case folding.
- Search.Keeps: a term containing invalid UTF-8 makes `regexp.Compile`
  fail, which is the `Uncompilable` pattern. Strings of the model are
  sequences of characters and cannot hold invalid UTF-8, so the search never
  builds that pattern.
- Search.SortBy: the order of keys of equal ranking length is left
  unspecified, as it is in Go's unstable `slices.SortFunc`.
- Api.PaginateInt64: its contract states only the total. Its agreement with
  the unbounded `Api.Paginate` and its two overflow cases are separate
  lemmas, listed under Findings.
- The `Key`/`Keys` types are not defined in the modelled files. `Search.Key`
  is built from how the search uses them, and `Search.Search` takes the key
  list as a parameter.

## Findings

| source | as written | input that shows it | evidently intended | confidence | as-written member | corrected member |
|---|---|---|---|---|---|---|
| cmd/main.go:126 | `(total + perPageInt - 1) / perPageInt` in 64-bit `int` | two results, `per_page=9223372036854775807`: the sum wraps to -2^63 and `totalPages` is -1 | `totalPages` is 1, the ceiling of 2 / per_page | not executed | Api.TotalPagesOverflow | Api.Paginate |
| cmd/main.go:128-132 | `start := (pageInt - 1) * perPageInt` in 64-bit `int` | five results, `per_page=4`, `page=4611686018427387905`: the product wraps to 0 and the first four results are served | a page past the end is not served as page 1 | not executed | Api.StartOverflow | Api.Paginate |
