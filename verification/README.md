# seo-analyser, modelled in Dafny

The analyser takes a URL and makes it safe to fetch: it forces `https:`,
refuses every other scheme and strips `utm_*` tracking parameters. It then
fetches the page and reads the page's title, description, robots, canonical,
language and charset tags plus its Open Graph and Twitter card tags. It
evaluates them against a fixed table of rules, and returns the list of issues
found. The front end summarises that list as a score out of 100, groups it
by severity, and previews the page as a social card for four platforms.

The model covers:

- `Urls`: the URL sanitiser (`SanitizeUrl` with its UTM-removal loop
  `RemoveTrackingParams`) and the normaliser. A URL is a record: scheme,
  authority, path, ordered query pairs and an optional fragment. The WHATWG
  parser is a parameter that may fail.
- `Extraction`: the post-processing of the metadata extractor. Each value is
  trimmed and an empty value becomes absent. The charset is taken untrimmed,
  from its attribute or from the `charset=` piece of the `Content-Type`
  header.
- `Catalogue`: the issue texts, as message templates with a slot and as
  advices.
- `Evaluation`: the rule evaluator. `Evaluation` is the list the rules
  produce. `EvaluateSeo` pushes issue by issue, as the route does, and is
  proved to build that list. The lemmas state the bands, exclusions,
  ordering and uniqueness of the rule table.
- `Summary`: the score card (counts, score, colour class, message).
- `IssueList`: the severity sections of the issue list.
- `Preview`: the per-tab fallback chains of the social preview.
- `Analyze`: the `POST` handler, with the request body, the parser, the
  network fetch and the HTML loader as parameters.

Where the code differs from what the rule names suggest, the model follows
the code:

- `canonical_relative` and `canonical_differs` are decided independently,
  so both can appear.
- `robots_ok` is suppressed by `noindex` only, not by `nofollow`.
- Twitter tags never inherit from Open Graph in the evaluator.
- The charset is not trimmed.

## Model

| member | source | states |
|---|---|---|
| Text.Trim | src/app/api/analyze/route.ts:56 | the result has no leading or trailing ECMAScript whitespace and is no longer than the input |
| Text.TrimIsInfix | src/app/api/analyze/route.ts:56 | the trimmed string occurs in the input with only whitespace before and after it |
| Text.TrimIdempotent | src/app/api/analyze/route.ts:109-118 | trimming a trimmed string changes nothing |
| Text.TrimEmptyIff | src/app/api/analyze/route.ts:109-118 | a string trims to empty exactly when it is all whitespace |
| Text.ToLower | src/app/api/analyze/route.ts:290 | lower-casing keeps the length and maps each character on its own |
| Text.ContainsIff | src/app/api/analyze/route.ts:292 | `includes` holds exactly when the needle occurs at some position |
| Text.NatToStringRoundTrip | src/app/api/analyze/route.ts:188-201 | the decimal text of a length reads back as that length |
| SeoTypes.Utf16Length | src/app/api/analyze/route.ts:183 | `.length` counts UTF-16 units: between one and two per character |
| SeoTypes.OfLevelMembers | src/app/components/IssueList/IssueList.tsx:28-33 | an issue is in a level's filter exactly when it is in the list with that level |
| SeoTypes.OfLevelConcat | src/app/components/IssueList/IssueList.tsx:28-33 | filtering distributes over concatenation, so the filter keeps the list's order |
| SeoTypes.OfLevelPartition | src/app/components/SeoSummary/SeoSummary.tsx:9-14 | the four level filters together are as long as the list |
| SeoTypes.OfLevelUnique | src/app/components/SeoSummary/SeoSummary.tsx:10 | a level held by at most one issue filters to that single issue |
| Catalogue.SlotInMessage | src/app/api/analyze/route.ts:173-368 | every message that reports a length or a tag value contains it |
| Catalogue.AdviceNonEmpty | src/app/api/analyze/route.ts:173-368 | every recommendation the evaluator attaches has text |
| Urls.SerializeStartsWithScheme | src/app/api/analyze/route.ts:88 | a serialised URL starts with its scheme and `//` |
| Urls.HasSchemePrefixIff | src/app/api/analyze/route.ts:59 | the `^[a-zA-Z]+:\/\/` test holds exactly when some run of letters at the start is followed by `://` |
| Urls.PrepareInput | src/app/api/analyze/route.ts:56-61 | a trimmed input with a letters-`://` prefix is passed on unchanged; any other trimmed input gets `https://` prepended; the result always has such a prefix |
| Urls.PrepareKeepsHttps | src/app/api/analyze/route.ts:56-61 | a trimmed `https://` input is left as it is |
| Urls.IsUtmKeyIff | src/app/api/analyze/route.ts:81 | a key is a tracking key exactly when its first four characters are `utm_` in any case |
| Urls.StripUtm | src/app/api/analyze/route.ts:78-86 | the filtered query is no longer than the input and holds no tracking key |
| Urls.StripUtmMembers | src/app/api/analyze/route.ts:78-86 | a pair survives exactly when it was in the query and its key is not a tracking key |
| Urls.StripUtmConcat | src/app/api/analyze/route.ts:78-86 | the filter distributes over concatenation, so survivors keep their relative order |
| Urls.StripUtmClean | src/app/api/analyze/route.ts:78-86 | a query without tracking keys is left unchanged |
| Urls.WithoutKey | src/app/api/analyze/route.ts:85 | after `params.delete(key)` no pair has that key |
| Urls.WithoutKeyStep | src/app/api/analyze/route.ts:85 | deleting keys one at a time is deleting the whole list of keys |
| Urls.WithoutUtmKeys | src/app/api/analyze/route.ts:79-85 | deleting exactly the collected tracking keys is the UTM filter |
| Urls.RemoveTrackingParams | src/app/api/analyze/route.ts:78-86 | the collect-then-delete loops leave exactly the UTM-filtered query |
| Urls.SanitizedUrl | src/app/api/analyze/route.ts:55-92 | an accepted URL has scheme `https:`, no fragment and no tracking key |
| Urls.SanitizeUrl | src/app/api/analyze/route.ts:55-92 | the in-place sanitiser fails exactly when the specification does, with the same error, and otherwise returns its serialisation |
| Urls.SanitizedIsHttps | src/app/api/analyze/route.ts:72-88 | every accepted URL serialises to a string starting with `https://` |
| Urls.SanitizeRejects | src/app/api/analyze/route.ts:63-69 | invalid exactly when the parser fails; unsupported exactly when it parses to a scheme other than `http:` or `https:` |
| Urls.SanitizeUpgradesHttp | src/app/api/analyze/route.ts:72 | an `http:` URL is accepted and sanitises like its `https:` twin |
| Urls.SanitizeQuery | src/app/api/analyze/route.ts:78-86 | for a parsed web URL, a pair is in the sanitised query exactly when it was in the original and is not a tracking pair |
| Urls.SanitizeIdempotent | src/app/api/analyze/route.ts:55-92 | sanitising a sanitised URL gives it back, when the parser reads serialisations back |
| Urls.NormalizeUrl | src/app/api/analyze/route.ts:94-102 | never fails; on a parse failure it is the trimmed input |
| Urls.NormalizeOnlyDropsFragment | src/app/api/analyze/route.ts:96-98 | on a parsed URL, only the fragment is dropped: scheme, authority, path and query are kept |
| Urls.NormalizeIdempotent | src/app/api/analyze/route.ts:94-102 | normalising twice is normalising once, under two assumptions on the parser: it reads back the serialisation of a fragment-free URL, and an input it rejects is still rejected once trimmed (the second fails for WHATWG on `"\u00A0https://a.com"`, see Left out) |
| Extraction.Clean | src/app/api/analyze/route.ts:109-118 | `?.trim() \|\| undefined`: the result is absent or a non-empty trimmed value, the trim of the input |
| Extraction.CleanDropsBlank | src/app/api/analyze/route.ts:109-118 | a value is dropped exactly when it is absent or all whitespace |
| Extraction.CleanOfClean | src/app/api/analyze/route.ts:109-118 | cleaning an already clean value changes nothing |
| Extraction.Or | src/app/api/analyze/route.ts:115-122 | `a \|\| b`: `a` when it is a non-empty string, else `b` |
| Extraction.IndexOf | src/app/api/analyze/route.ts:121 | the first occurrence of the separator, or none anywhere |
| Extraction.SecondPiece | src/app/api/analyze/route.ts:121 | `split(sep)[1]` is absent exactly when the separator does not occur; otherwise it is the text after the first occurrence up to the next occurrence or the end |
| Extraction.SecondPieceAfterMarker | src/app/api/analyze/route.ts:121 | a `Content-Type` value in which `charset=` occurs only once yields the text after it, untrimmed |
| Extraction.Og | src/app/api/analyze/route.ts:124-125 | an Open Graph value is absent or clean |
| Extraction.Tw | src/app/api/analyze/route.ts:136-137 | a Twitter value is absent or clean |
| Extraction.ExtractMeta | src/app/api/analyze/route.ts:104-153 | every extracted field is absent or non-empty and trimmed, except the charset, which is absent or non-empty |
| Extraction.LangPrefersHtmlAttribute | src/app/api/analyze/route.ts:115-118 | the `html` `lang` attribute wins; the header is read only when that is blank |
| Extraction.CharsetAttributeWins | src/app/api/analyze/route.ts:119-122 | a non-empty `meta[charset]` is taken verbatim, whatever the header says |
| Evaluation.CheckTitle | src/app/api/analyze/route.ts:173-203 | the title rules append the title group to the list |
| Evaluation.CheckDescription | src/app/api/analyze/route.ts:205-235 | the description rules append the description group |
| Evaluation.CheckCanonical | src/app/api/analyze/route.ts:237-286 | the canonical rules append the canonical group |
| Evaluation.CheckCanonicalAgainst | src/app/api/analyze/route.ts:247-276 | the relative, differs and ok checks with the `canonicalError` flag append the specified checks |
| Evaluation.CheckRobots | src/app/api/analyze/route.ts:288-316 | the robots rules with the `robotsWarning` flag append the robots group |
| Evaluation.CheckLang | src/app/api/analyze/route.ts:318-329 | the lang rule appends its one issue |
| Evaluation.CheckCharset | src/app/api/analyze/route.ts:331-342 | the charset rule appends its one issue |
| Evaluation.CheckOpenGraph | src/app/api/analyze/route.ts:344-355 | the Open Graph rule appends its one issue |
| Evaluation.CheckTwitter | src/app/api/analyze/route.ts:357-368 | the Twitter rule appends its one issue |
| Evaluation.EvaluateSeo | src/app/api/analyze/route.ts:155-371 | pushing group after group builds exactly the specified evaluation |
| Evaluation.TitleBands | src/app/api/analyze/route.ts:173-203 | one title issue. Absent: `title_missing`/error. Under 30: too short/warning. Over 60: too long/warning. 30..60: ok/success. The message's slot is the length |
| Evaluation.TitleWellFormed | src/app/api/analyze/route.ts:173-203 | the title group is one catalogued issue |
| Evaluation.DescriptionWellFormed | src/app/api/analyze/route.ts:205-235 | the description group is one catalogued issue |
| Evaluation.DescriptionBands | src/app/api/analyze/route.ts:205-235 | one description issue. Absent: warning. Under 70: info. Over 170: warning. 70..170: ok/success. The slot is the length |
| Evaluation.CanonicalRules | src/app/api/analyze/route.ts:237-286 | absent gives only `canonical_missing`. Otherwise relative and differs are decided on their own, ok comes exactly when relative does not, and `canonical_invalid` never appears |
| Evaluation.CanonicalChecksWellFormed | src/app/api/analyze/route.ts:247-276 | the checks on a present canonical form a well-formed group |
| Evaluation.CanonicalChecksRules | src/app/api/analyze/route.ts:251-276 | relative iff it does not start with `http`; differs iff it is non-empty, differs from the page and has no trailing `/`; ok iff not relative |
| Evaluation.RobotsRules | src/app/api/analyze/route.ts:288-316 | absent gives only `robots_none`; `noindex` and `nofollow` are independent; `robots_ok` iff no `noindex` |
| Evaluation.RobotsChecksWellFormed | src/app/api/analyze/route.ts:289-313 | the checks on present robots form a well-formed group |
| Evaluation.RobotsChecksRules | src/app/api/analyze/route.ts:289-313 | the three robots checks on the lower-cased value, each as an iff |
| Evaluation.RelativeCanonicalAlsoDiffers | src/app/api/analyze/route.ts:251-273 | an unparsable relative canonical that differs from the page gets both `canonical_relative` and `canonical_differs` |
| Evaluation.NofollowKeepsRobotsOk | src/app/api/analyze/route.ts:302-313 | `nofollow` without `noindex` yields `robots_nofollow` and still `robots_ok` |
| Evaluation.LangRules | src/app/api/analyze/route.ts:318-329 | one issue, `lang_ok`/success exactly when lang is present, reporting its value |
| Evaluation.CharsetRules | src/app/api/analyze/route.ts:331-342 | one issue, `charset_ok`/success exactly when a charset is present, reporting it |
| Evaluation.OpenGraphRules | src/app/api/analyze/route.ts:344-355 | one issue, `og_ok` exactly when og title, description and image are all present |
| Evaluation.TwitterRules | src/app/api/analyze/route.ts:357-368 | one issue, `twitter_ok` exactly when `twitter:card` is present, reporting it |
| Evaluation.OnlyTitleMissingIsErrorLevel | src/app/api/analyze/route.ts:173-368 | the only id the evaluator pushes at error level is `title_missing` |
| Evaluation.SingleGroup | src/app/api/analyze/route.ts:163-171 | one catalogued issue of a field is a group of that field |
| Evaluation.PairGroup | src/app/api/analyze/route.ts:163-171 | two catalogued issues of a field with distinct ids are a group |
| Evaluation.AllGroupsWellFormed | src/app/api/analyze/route.ts:173-368 | every rule group is well formed; title, description, lang, charset, Open Graph and Twitter emit exactly one issue |
| Evaluation.AppendGroup | src/app/api/analyze/route.ts:163-171 | appending a later field's group keeps the list in group order, catalogued and free of repeated ids |
| Evaluation.LeadingGroups | src/app/api/analyze/route.ts:173-316 | title, description, canonical and robots concatenate to a list in group order with distinct ids |
| Evaluation.ConcatGroups | src/app/api/analyze/route.ts:173-370 | the eight groups concatenate to a catalogued list in group order, with distinct ids and 8 to 16 issues |
| Evaluation.ConcatOwnGroups | src/app/api/analyze/route.ts:173-370 | each issue of the concatenation comes from the group of its own field |
| Evaluation.EvaluationShape | src/app/api/analyze/route.ts:155-371 | the evaluation is in group order, catalogued, free of repeated ids, 8 to 10 issues long, each issue in its own field's group |
| Evaluation.ErrorsOfCatalogued | src/app/api/analyze/route.ts:173-368 | in a catalogued list with distinct ids, error means `title_missing`, and the error filter is that issue or nothing |
| Evaluation.ErrorsOfGroups | src/app/api/analyze/route.ts:173-370 | the error filter of the eight groups is the title issue when it is `title_missing`, else empty |
| Evaluation.OnlyMissingTitleIsError | src/app/api/analyze/route.ts:173-203 | an issue is an error exactly when it is `title_missing`; the errors are that issue when the title is absent or empty, else none |
| Evaluation.CleanEvaluationHasSuccess | src/app/api/analyze/route.ts:173-203 | a list without warnings or errors has a success: the title group always yields error, warning or success |
| Evaluation.BarePageScenario | src/app/api/analyze/route.ts:155-371 | a page with only a `lang` gets exactly one error, `title_missing`, plus `og_incomplete` and `lang_ok` |
| Summary.CountsOf | src/app/components/SeoSummary/SeoSummary.tsx:9-17 | the four counts add up to the list length; the checks are the issues that are not info |
| Summary.Score | src/app/components/SeoSummary/SeoSummary.tsx:16-19 | 0..100; 0 without checks; otherwise the nearest integer to 100·(s + w/2)/T, halves up |
| Summary.ScoreIsNearest | src/app/components/SeoSummary/SeoSummary.tsx:19 | no other integer lies within half a point of the weighted mean: the rounding bounds determine the score |
| Summary.ScoreOf | src/app/components/SeoSummary/SeoSummary.tsx:9-19 | the score of an issue list lies in 0..100 |
| Summary.AllSuccessIsPerfect | src/app/components/SeoSummary/SeoSummary.tsx:16-19 | only successes gives 100 |
| Summary.AllErrorIsZero | src/app/components/SeoSummary/SeoSummary.tsx:16-19 | only errors gives 0 |
| Summary.ScoreZeroIff | src/app/components/SeoSummary/SeoSummary.tsx:19 | 0 exactly when there is no check or the mean is under half a point |
| Summary.PerfectScoreIff | src/app/components/SeoSummary/SeoSummary.tsx:16-19 | under 100 checks, 100 exactly when there is a check and no warning or error |
| Summary.NearPerfectRoundsUp | src/app/components/SeoSummary/SeoSummary.tsx:19 | 99 successes and one warning round up to 100 |
| Summary.ScoreIgnoresInfo | src/app/components/SeoSummary/SeoSummary.tsx:16-17 | inserting an info issue anywhere leaves the score unchanged |
| Summary.EvaluationPerfectIff | src/app/components/SeoSummary/SeoSummary.tsx:16-19 | an evaluator's list scores 100 exactly when it has no warning and no error |
| Summary.ClassOf | src/app/components/SeoSummary/SeoSummary.tsx:26-30 | low iff under 50, mid iff 50..84, high iff 85 or more |
| Summary.ClassMonotone | src/app/components/SeoSummary/SeoSummary.tsx:26-30 | a higher score never gets a lower class |
| Summary.MessageMatchesClass | src/app/components/SeoSummary/SeoSummary.tsx:32-37 | critical iff low, fair iff mid, "Excelente" iff 100, "Ótimo" iff high and not 100 |
| IssueList.LevelLabelInjective | src/app/components/IssueList/IssueList.tsx:8-13 | every level has a non-empty label and no two levels share one |
| IssueList.RenderItem | src/app/components/IssueList/IssueList.tsx:45-58 | an item shows its level's badge, the issue's message, and the recommendation when there is one |
| IssueList.RenderItems | src/app/components/IssueList/IssueList.tsx:45-58 | one item per issue, in order |
| IssueList.RenderSection | src/app/components/IssueList/IssueList.tsx:35-63 | nothing exactly when the level has no issue; otherwise that level and its count |
| IssueList.SectionIndex | src/app/components/IssueList/IssueList.tsx:65-73 | the position of each level in the section order |
| IssueList.RenderSectionsShape | src/app/components/IssueList/IssueList.tsx:35-73 | one section per non-empty level, each holding its level's issues in order |
| IssueList.RenderSectionsOrdered | src/app/components/IssueList/IssueList.tsx:65-73 | sections keep the order of the levels they are rendered from |
| IssueList.RenderSectionsLevels | src/app/components/IssueList/IssueList.tsx:65-73 | every rendered section belongs to one of the levels it was rendered from |
| IssueList.IssuesHaveSections | src/app/components/IssueList/IssueList.tsx:28-73 | the level of every issue in the list gets a section, so no issue is hidden |
| IssueList.EmptyStateIff | src/app/components/IssueList/IssueList.tsx:16-26 | the empty state is shown exactly for the empty list |
| IssueList.SectionsPartition | src/app/components/IssueList/IssueList.tsx:28-73 | 1 to 4 sections in the order error, warning, info, success; each non-empty with its level's issues; every issue's level has a section; counts sum to the list length |
| IssueList.SectionTotalLevels | src/app/components/IssueList/IssueList.tsx:35-37 | skipping empty sections loses no issue |
| IssueList.LevelTotalOfFour | src/app/components/IssueList/IssueList.tsx:28-33 | the number of issues of four levels is the sum of their four group sizes |
| IssueList.SectionTotalIsPartition | src/app/components/IssueList/IssueList.tsx:28-33 | the section counts add up to the list length |
| IssueList.GroupKeepsOrder | src/app/components/IssueList/IssueList.tsx:28-33 | the filter is stable: issues of a level keep their relative order |
| Preview.Coalesce | src/app/components/PreviewSocial/PreviewSocial.tsx:36-56 | `??` takes the left value whenever it is defined, even when empty |
| Preview.OrDefault | src/app/components/PreviewSocial/PreviewSocial.tsx:36-56 | a chain ending in a literal is the value, else the literal |
| Preview.ChainIsFirstDefined | src/app/components/PreviewSocial/PreviewSocial.tsx:36-56 | nested `??` yields the first defined option, else the default |
| Preview.XTabChains | src/app/components/PreviewSocial/PreviewSocial.tsx:33-46 | on X: title and description go Twitter, Open Graph, page, placeholder; image goes Twitter, Open Graph, placeholder |
| Preview.OtherTabChains | src/app/components/PreviewSocial/PreviewSocial.tsx:49-57 | on other tabs: Open Graph, page, "… para <label>"; image Open Graph, Twitter, placeholder |
| Preview.OtherTabsIgnoreTwitterText | src/app/components/PreviewSocial/PreviewSocial.tsx:49-57 | off X, the Twitter title and description never matter |
| Preview.ImagePreferenceFlips | src/app/components/PreviewSocial/PreviewSocial.tsx:45-56 | with both images set, X shows the Twitter one and other tabs the Open Graph one |
| Preview.CleanInputsGiveFullCard | src/app/components/PreviewSocial/PreviewSocial.tsx:30-58 | from extractor output, title, description and image are never empty |
| Preview.ChainNonEmpty | src/app/components/PreviewSocial/PreviewSocial.tsx:30-58 | non-empty options ending in a non-empty literal give a non-empty value |
| Preview.TabsAreComplete | src/app/components/PreviewSocial/PreviewSocial.tsx:14-27 | every tab, the initial `facebook` tab among them, is listed, and labels are distinct |
| Analyze.Analysis | src/app/api/analyze/route.ts:421-438 | the report carries the target URL, the HTML length, the normalised final URL (the target when the response has none), the extractor's metadata for the loaded page, and the evaluation of that metadata against that URL |
| Analyze.AfterFetch | src/app/api/analyze/route.ts:402-440 | the answer after the fetch is 200, 500 or 502 |
| Analyze.AfterSanitize | src/app/api/analyze/route.ts:385-440 | 400 exactly when the sanitiser rejected the URL |
| Analyze.Respond | src/app/api/analyze/route.ts:373-448 | the answer is 200, 400, 500 or 502 |
| Analyze.Post | src/app/api/analyze/route.ts:373-448 | the handler's early returns produce the specified answer |
| Analyze.FetchAndReport | src/app/api/analyze/route.ts:401-440 | fetching the target and answering 500 on a throw, 502 on a response that is not ok, else the report, gives exactly AfterFetch |
| Analyze.Deliver | src/app/api/analyze/route.ts:421-440 | the 200 branch produces the specified report |
| Analyze.RejectedUrlIsNeverFetched | src/app/api/analyze/route.ts:376-398 | a missing or rejected URL gets 400 whatever the network would answer |
| Analyze.BadRequestIff | src/app/api/analyze/route.ts:376-398 | 400 exactly for a missing or rejected URL; the message is the missing-URL text, the unsupported-protocol text or `Invalid URL`, according to the case |
| Analyze.FetchedReport | src/app/api/analyze/route.ts:401-440 | a 200 after the fetch means an ok response, whose report holds the target URL, the normalised final URL, the page's extracted (clean) metadata and its evaluation |
| Analyze.ReportIsEvaluation | src/app/api/analyze/route.ts:373-440 | a 200 answer comes from an accepted URL whose re-parsed serialisation was fetched with an ok response; the report holds that target, its normalised final URL, the page's extracted (clean) metadata and the evaluation of the two |
| Analyze.ReportStartsWithTitle | src/app/api/analyze/route.ts:428 | a 200 report's first issue is the title issue |

## Left out

- URLs without a host are not represented: serialisation always writes `//` after the scheme, where `new URL("mailto:").toString()` is `mailto:`. So for a canonical `mailto:` the route pushes `canonical_relative` and also `canonical_differs` (no trailing `/`), while any record the model's parser could return serialises with `//` and, for an empty authority and path, ends in `/`. `Urls.NormalizeOnlyDropsFragment`'s `scheme + "//"` clause holds for the model's records only.
- WHATWG URL parsing is a parameter that may fail. Its behaviour (hosts, ports, path normalisation, percent-encoding) is not part of this model. Serialisation writes the query as `key=value` pairs joined by `&`, without the percent-encoding `URLSearchParams` applies.
- The `URL` constructor's error text is represented by the fixed string `Invalid URL`. The route's fallback message "URL inválida. Use um formato…" is for throws that are not `Error`s. Every throw the sanitiser makes is an `Error`, so that fallback is not modelled.
- Urls.NormalizeIdempotent: assumes that an input the parser rejects is still rejected once trimmed. The WHATWG parser strips only C0 controls and spaces, while `trim()` also strips U+00A0 and U+FEFF, so `"\u00A0https://a.com"` normalises to `https://a.com` and then to `https://a.com/`.
- Setting `url.protocol = "https:"` drops an explicit `:443`, so `http://example.com:443/` sanitises to `https://example.com/`. The URL record keeps its authority as parsed, so the model keeps `example.com:443`.
- `normalizeUrl` returns the query as the parser stored it (`?a`, `?a&&b`), but the model writes the query back as `key=value` pairs. So a page `https://x/p?a=` with canonical `https://x/p?a` gets `canonical_differs` in the route, while the two compare equal in the model.
- `canonical_invalid` is in the catalogue but can never be pushed. Normalisation never fails, so the canonical `catch` has nothing to catch (`Evaluation.CanonicalRules` proves it).
- `toLowerCase` is ASCII-only here. Non-ASCII case mappings are not modelled.
- Summary.Score: computes `Math.round((totalWeighted / totalChecks) * 100)` on exact rationals. Floating-point error in the division and product, which can move a value sitting on a half, is not modelled.
- Summary.PerfectScoreIff: holds only under 100 checks, because the code's rounding lets 99 successes and one warning reach 100 (`Summary.NearPerfectRoundsUp`).
- The score gauge geometry (`Math.PI`, circumference, offset) is floating point and presentation only.
- The preview's `displayHost` uses the URL parser only for display.
- Issue texts are template ids with a slot, so the evaluator's rules are stated without the strings. `Catalogue.MessageText` and `Catalogue.AdviceText` spell them out.
- IssueList.RenderItem: shows the suggestion whenever the issue has a recommendation. The source tests the text's truthiness, and `Catalogue.AdviceNonEmpty` proves that every recommendation has text.
- The HTML parser and its selectors are a document parameter (`Extraction.Document`), so the page's title text and attribute lookups are inputs.
- `fetch`, its redirects, headers and `response.text()` are a parameter of the handler. A throw anywhere is the 500 answer, and the response's JSON encoding and logging are not modelled.
- React state and rendering are out of scope: the tab bar's `useState` is the tab parameter, and the markup is not modelled. `UrlForm`, `AnalyzerShell` and `page` only compose or call these parts. The older copies of the issue list and preview, and the Google preview, are not used by the shell.
- The multiset form of the level partition is not stated. Sizes, membership and order of each level's filter are.
