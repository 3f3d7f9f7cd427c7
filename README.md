# Catalog, scoring and compose helpers of the Docker Compose authoring tool

The front end of this Docker Compose authoring tool ships a block of helper
functions beside its sample data (`frontend/src/mockdata.ts`, lines 784-873).
This project models those helpers in Dafny and proves what they promise:

- **finders**: `getMockImageByName`, `getMockScanResult` and
  `getMockTemplateById` return the first record with the exact key, or
  nothing (module `Catalog`, on top of `Seqs.Find`);
- **catalog filters**: `filterImagesByCategory`, with its `"All"` sentinel,
  and `searchImages`, a case-insensitive substring search on the name and
  the description (module `Catalog`, on top of `Seqs.Filter`, `Text.Lower`
  and `Text.Includes`);
- **security score**: `calculateSecurityScore`, which is 100 minus a
  weighted count of vulnerabilities, floored at 0 (module `Security`);
- **compose generator**: `generateSampleComposeYaml` renders an ordered list
  of service configurations as Docker Compose text. The text holds the
  version "3.8" header and the `services` element with the `image`, `ports`,
  `environment` and `restart` attributes of each service (module `Compose`).

The records the helpers read are datatypes:

- `DockerImage` (lines 12-24);
- `ScanResult` and its summary (lines 183-202);
- `Template` (lines 503-515);
- `ServiceConfig` and its parts (lines 620-641).

The finders and filters each read a module-level array of sample records.
In the model that array is a parameter. The generator and the score take
their input as parameters in the source too. Module `Fixtures` holds a few of the sample records
and proves what the helpers give for them.

The generator builds its text with `+=` inside nested loops. So
`Compose.GenerateSampleComposeYaml` is a method with the same loops, and it
is proved to return `Compose.ComposeYaml`, a function that defines the
document. That function is then related to an independent, line-by-line
description (`Compose.BlockLines`, `Text.JoinLines`). When no name, image,
tag, restart value, environment key or environment value contains a line
break, the text cut at its line breaks gives those lines back. The other
helpers are single
`filter`/`find` expressions or arithmetic, and they are functions.

Facts about the code that the model keeps:

- `searchImages` does not search tags, does not trim the query, and does not
  sort. The category filter and the text search are separate helpers, and
  neither calls the other.
- The score exceeds 100 exactly when the weighted count is negative, which
  needs a negative count.

## Model

| member | source | states |
|---|---|---|
| Seqs.Filter | frontend/src/mockdata.ts:812 | `Array.prototype.filter`: the result is no longer than the input, holds only elements of the input that the predicate accepts, and holds every accepted element |
| Seqs.FilterIsSubsequence | frontend/src/mockdata.ts:812 | filtering keeps the order of the elements it keeps (the result is a subsequence of the input) |
| Seqs.FilterAppend | frontend/src/mockdata.ts:812 | filtering a concatenation is the concatenation of the filtered parts |
| Seqs.FilterKeepsAll | frontend/src/mockdata.ts:820-824 | a predicate that accepts every element returns the input unchanged |
| Seqs.Find | frontend/src/mockdata.ts:785 | `Array.prototype.find`: nothing exactly when no element is accepted; otherwise an accepted element with no accepted element before it |
| Seqs.FindAt | frontend/src/mockdata.ts:785 | an accepted element with no accepted element before it is what `find` returns |
| Catalog.GetImageByName | frontend/src/mockdata.ts:784-786 | nothing iff no image has exactly this name; otherwise the first image with this name |
| Catalog.GetImageByNameFirst | frontend/src/mockdata.ts:784-786 | looking up the name of the image at position k, with no earlier image of that name, returns that image |
| Catalog.GetScanResult | frontend/src/mockdata.ts:791-798 | nothing iff no scan matches both the image and the tag; otherwise the first scan matching both |
| Catalog.GetTemplateById | frontend/src/mockdata.ts:803-805 | nothing iff no template has exactly this id; otherwise the first template with this id |
| Catalog.FilterImagesByCategory | frontend/src/mockdata.ts:810-813 | "All" returns the catalog unchanged; any other category returns only images of exactly that category, and every one of them |
| Catalog.CategoryFilterIsSubsequence | frontend/src/mockdata.ts:810-813 | the category filter never reorders and never invents an image |
| Catalog.CategoryFilterAppend | frontend/src/mockdata.ts:810-813 | the category filter works image by image over a concatenated catalog |
| Catalog.CategoryFilterSingleton | frontend/src/mockdata.ts:810-813 | one image is kept iff the category is "All" or the image's own |
| Catalog.MatchesQuery | frontend/src/mockdata.ts:821-823 | the `filter` callback: the empty query matches every image, and a match needs a name or a description at least as long as the query; `Catalog.SearchImages` keeps exactly the images it accepts |
| Catalog.SearchImages | frontend/src/mockdata.ts:818-825 | an image is in the result iff the lower-cased query is a substring of its lower-cased name or its lower-cased description |
| Catalog.SearchIsSubsequence | frontend/src/mockdata.ts:818-825 | search never reorders and never invents an image |
| Catalog.SearchAppend | frontend/src/mockdata.ts:818-825 | search works image by image over a concatenated catalog |
| Catalog.SearchEmptyQuery | frontend/src/mockdata.ts:819-824 | the empty query returns the whole catalog |
| Catalog.SearchCaseInsensitive | frontend/src/mockdata.ts:819 | queries that agree once lower-cased give the same result |
| Catalog.SearchFindsOwnName | frontend/src/mockdata.ts:822 | a query equal to an image's name in any letter case finds that image |
| Text.LowerChar | frontend/src/mockdata.ts:819 | `toLowerCase` on one character: an upper-case ASCII letter becomes the lower-case letter at the same offset; other characters are unchanged |
| Text.Lower | frontend/src/mockdata.ts:819 | lower-casing keeps the length and lower-cases each character in place |
| Text.LowerIdempotent | frontend/src/mockdata.ts:819-823 | lower-casing twice is lower-casing once |
| Text.LowerAppend | frontend/src/mockdata.ts:819-823 | lower-casing a concatenation lower-cases each part |
| Text.Includes | frontend/src/mockdata.ts:822-823 | `String.prototype.includes` as a left-to-right scan: a prefix is always included and a needle longer than the text never is; with `Text.IncludesIff`, it holds exactly when the needle occurs at some index |
| Text.IncludesIff | frontend/src/mockdata.ts:822-823 | the left-to-right scan of `includes` succeeds iff the needle occurs at some index |
| Text.IncludesEmpty | frontend/src/mockdata.ts:822-823 | every string includes the empty string |
| Text.IncludesInAppend | frontend/src/mockdata.ts:822-823 | a needle included in a part is included in the whole |
| Text.NatToString | frontend/src/mockdata.ts:842 | the decimal rendering of a number is a non-empty string of digits with no leading zero, except for zero itself |
| Text.NatToStringRoundTrip | frontend/src/mockdata.ts:842 | reading the digits back gives the number |
| Text.IntToString | frontend/src/mockdata.ts:842 | a negative number renders as `-` followed by the digits of its magnitude; a non-negative one as its digits |
| Text.IntToStringInjective | frontend/src/mockdata.ts:842 | different port numbers render differently |
| Security.WeightedIssues | frontend/src/mockdata.ts:865-870 | `totalIssues`: for non-negative counts it is at least ten per critical finding, and zero exactly when all four counts are zero |
| Security.SecurityScore | frontend/src/mockdata.ts:862-873 | the score is never negative, is at least 100 minus the weighted count, and is either 0 or exactly 100 minus the weighted count |
| Security.ScoreBounds | frontend/src/mockdata.ts:862-873 | for non-negative counts the score lies in [0, 100] |
| Security.ScoreAboveHundredIff | frontend/src/mockdata.ts:865-872 | the score exceeds 100 exactly when the weighted count is negative, and then some count is negative |
| Security.ScoreOfCleanScan | frontend/src/mockdata.ts:862-873 | a summary with no findings scores 100, whatever its stated total |
| Security.ScorePerfectIff | frontend/src/mockdata.ts:862-873 | for non-negative counts the score is 100 iff all four counts are 0 |
| Security.ScoreMonotone | frontend/src/mockdata.ts:865-872 | a summary with at least as many findings of every severity never scores higher |
| Security.ScoreIgnoresTotal | frontend/src/mockdata.ts:866-870 | the stated total plays no part in the score |
| Compose.ServiceBlock | frontend/src/mockdata.ts:836-853 | one service's block starts with its `  name:` line and ends with a blank line; `Compose.ServiceBlockIsLines` gives its full list of lines |
| Compose.ComposeYaml | frontend/src/mockdata.ts:833-856 | the returned document is longer than the header exactly when there are services, and then ends with a blank line; `Compose.ComposeYamlIsLines` and `Compose.ComposeYamlLines` give its lines |
| Compose.GenerateSampleComposeYaml | frontend/src/mockdata.ts:830-857 | the text built by appending the header and then each service's block in a loop is the document `ComposeYaml` |
| Compose.AppendService | frontend/src/mockdata.ts:835-854 | one pass of the service loop, with its nested ports and environment loops, appends exactly that service's block |
| Compose.ComposeYamlHeader | frontend/src/mockdata.ts:833-856 | every document starts with `version: "3.8"`, a blank line and `services:`; an empty list gives that header alone |
| Compose.ComposeYamlAppend | frontend/src/mockdata.ts:835-854 | the document for `a + b` is the document for `a` followed by the blocks of `b` |
| Compose.ServiceBlockAt | frontend/src/mockdata.ts:835-854 | each service's block sits at its own place and depends on that service alone |
| Compose.PortItemsAreLines | frontend/src/mockdata.ts:841-843 | the port items are one quoted `host:container` line per mapping, in order |
| Compose.EnvItemsAreLines | frontend/src/mockdata.ts:848-850 | the environment items are one `key: value` line per entry, in order |
| Compose.PortsSectionIsPart | frontend/src/mockdata.ts:839-844 | the text of the ports section is the `ports:` heading and the port lines, or nothing for no ports |
| Compose.EnvironmentSectionIsPart | frontend/src/mockdata.ts:846-851 | the text of the environment section is the `environment:` heading and the entry lines, or nothing for no entries |
| Compose.ServiceBlockIsLines | frontend/src/mockdata.ts:836-853 | a service's block is its list of lines, each ended by a line break |
| Compose.ServiceBlocksAreLines | frontend/src/mockdata.ts:835-854 | the blocks of all services are the lines of all blocks, in input order |
| Compose.HeaderIsLines | frontend/src/mockdata.ts:833 | the header is the three lines `version: "3.8"`, the empty line and `services:` |
| Compose.ComposeYamlIsLines | frontend/src/mockdata.ts:830-857 | the document is the header lines followed by every block's lines, each ended by a line break |
| Compose.BlockLength | frontend/src/mockdata.ts:836-853 | a block has four fixed lines, plus a heading and one line per item for each non-empty ports or environment list |
| Compose.BlockEnds | frontend/src/mockdata.ts:836-853 | a block opens with `  name:` and `    image: image:tag`, and closes with `    restart: R` and a blank line |
| Compose.BlockPorts | frontend/src/mockdata.ts:839-844 | for a service with ports, the `ports:` heading follows the image line, then one `      - "host:container"` line per mapping, in order |
| Compose.BlockEnvironment | frontend/src/mockdata.ts:846-851 | for a service with environment entries, the `environment:` heading follows the ports section, then one `key: value` line per entry, in order |
| Compose.PortsHeadingIff | frontend/src/mockdata.ts:839-844 | a `ports:` heading follows the image line iff the service has ports |
| Compose.EnvironmentHeadingIff | frontend/src/mockdata.ts:846-851 | an `environment:` heading follows the ports section iff the service has environment entries |
| Compose.BlockDependsOnWrittenFields | frontend/src/mockdata.ts:836-853 | two services that agree on name, image, tag, port numbers, environment and restart give the same block, so the id, protocols, volumes, networks, dependencies, health check and resources never appear |
| Compose.BlockLinesSingle | frontend/src/mockdata.ts:836-853 | when no written field contains a line break, no line of the block does |
| Compose.ComposeYamlLines | frontend/src/mockdata.ts:830-857 | when no written field contains a line break, cutting the document at its line breaks gives back exactly the header lines and each block's lines, in order |
| Text.SplitJoinLines | frontend/src/mockdata.ts:833-853 | lines without line breaks, each ended by one, are recovered by cutting the text at its line breaks |
| Fixtures.SampleScores | frontend/src/mockdata.ts:204-312 | the sample scans score 23, 54 and 91 |
| Fixtures.SampleImageLookup | frontend/src/mockdata.ts:784-786 | looking up "redis" in the sample catalog returns the redis image |
| Fixtures.SampleImageMiss | frontend/src/mockdata.ts:784-786 | looking up a name that is not in the sample catalog returns nothing |
| Fixtures.SampleScanLookup | frontend/src/mockdata.ts:791-798 | the scan of redis at tag 7.2 is scan_003 |
| Fixtures.SampleScanMiss | frontend/src/mockdata.ts:791-798 | nginx was scanned at 1.21.0 only, so looking up nginx at 1.25.3 returns nothing |
| Fixtures.SampleTemplateLookup | frontend/src/mockdata.ts:803-805 | looking up tpl_002 returns the MEAN stack template |
| Fixtures.SampleDatabases | frontend/src/mockdata.ts:810-813 | over nginx, postgres and redis, "Databases" gives postgres then redis |
| Fixtures.SampleWebServers | frontend/src/mockdata.ts:810-813 | over nginx, postgres and redis, "Web Servers" gives nginx alone |
| Fixtures.SampleSearch | frontend/src/mockdata.ts:818-825 | "re", in any letter case, finds postgres and redis |
| Fixtures.RedisBlockLines | frontend/src/mockdata.ts:836-853 | the block of the sample redis service has the name, image, ports heading, one port line, restart and blank lines, and no environment section |
| Fixtures.RedisDocument | frontend/src/mockdata.ts:830-857 | the document for the redis service alone is the header lines and those block lines, each ended by a line break |

## Left out

- The UI components, pages and routing, the Express backend and the Python
  scanner wrapper are not part of this model. They are markup, browser
  state, I/O, or a wrapper around an external tool.
- The module-level sample arrays are parameters. Only the few records
  used in `Fixtures` are written out.
- Text.Lower, Text.LowerChar: lower-case ASCII letters only, not all of
  Unicode as `toLowerCase` does.
- Text.IntToString, Text.NatToString: write every decimal digit of the
  number exactly. `${n}` in frontend/src/mockdata.ts:842 writes the digits
  of the nearest double instead, and switches to exponent notation from
  1e21. So above 2^53 the two can differ (`${2**54}` still gives the same
17 digits as the model): `${2**60}` gives
  `1152921504606847000` and `${1e21}` gives `1e+21`, while the model gives
  `1152921504606846976` and 22 digits. Port numbers are not bounded by
  the source.
- Catalog.FilterImagesByCategory: the model works on values, so aliasing is
  not captured. For "All" the source returns the module-level array object
  itself (frontend/src/mockdata.ts:811), for any other category a new array
  (line 812). A caller that sorts or changes the "All" result in place
  changes the catalog every later helper reads; the model cannot show
  this.
- JS numbers are modelled as integers, so fractional, infinite and NaN values
  are not modelled. For those, `Math.max` and the number-to-text conversion
  behave in ways the model does not capture. `pulls`, `stars`,
  `services` and `popularity` are `nat`. Port numbers and scan counts are
  `int`, because nothing in the source keeps them non-negative.
- Security.ScoreBounds: the upper bound of 100 is proved only for
  non-negative counts. The score exceeds 100 exactly when the weighted
  count is negative, which needs a negative count; the source and the
  model agree on this (`Security.ScoreAboveHundredIff`).
- `ScanResult.vulnerabilities` and `ScanResult.recommendation` are not
  modelled, because no helper reads them. Each vulnerability carries a
  floating-point `score`; the recommendation holds an action, a reason and
  a list of alternatives.
- `Template` is modelled with its fields, but only `id` is read by a
  helper.
- Fixtures.SampleSearch: shows that postgres and redis are kept for "re",
  but not that nginx is dropped. Proving that a long literal description
  does not contain a substring is beyond what the verifier does cheaply.
- These helpers keep no selection store, publish no selection events and
  debounce nothing; search results are not sorted, tags are not searched,
  the query is not trimmed, and the two filters are not combined. So none
  of these is modelled.
