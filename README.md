# Portfolio site: a verified model of its view logic

The site is a single-page portfolio. It renders a profile, a résumé, projects, services and an optional blog, all from one aggregate data object served by its backend. Its logic is the set of derivations the pages and the content mapper compute from that object. This project models those derivations in Dafny, plus the theme toggle's small state machine, and proves what they promise.

Modules follow the source files:

- `Api` (`api.dfy`): the data model the backend serves. It also holds the selections several pages share: items of a résumé type, skills of a category, and projects shown on the home page.
- `Content` (`content.dfy`): the view-ready shapes the content mapper produces.
- `DataMapper` (`datamapper.dfy`): the content mapper. It covers the hero block, the years-of-experience figure, the timeline, skills, projects and services.
- `ThemeToggle` (`themetoggle.dfy`): the mode/theme toggle as a class. Its fields are the component state, plus the root element's class set and the browser's local storage.
- `HomePage`, `ResumePage`, `BlogPage`, `BlogPostPage`: the derivations embedded in each page.
- Shared modules that model the JavaScript built-ins the derivations rely on:
  - `Seqs`: `filter`, `find`, `findIndex`, `map`, `slice` and `Math.min(...xs)`.
  - `JsText`: `||` on strings, `startsWith`, `substring`, `split`/`join`, `parseInt`, number-to-string and the `/\d{4}/` match.
  - `Wrappers`: `Option`.

Conventions:

- The API base URL and the current year are parameters. The source reads them from the build environment and from the clock.
- Whether a certificate's end date is still in the future is a predicate parameter.
- An absent optional field is `None`.
- An empty list that `Math.min` would turn into `Infinity` gives `None`. A years figure of `None` is rendered `-Infinity`, as the source renders it.
- A page that reads `blogPosts` without a guard returns `None` when it is absent, standing for the page failing.
- Two fields are renamed because their names are reserved in Dafny: a résumé item's `type` is `kind`, and a call-to-action's `label` is `caption`.
- The `summary` of a résumé item is declared required in `apps/frontend/src/services/api.ts:23`. Every reader tolerates its absence (`summary || ''`, `summary?.substring`, and an unguarded JSX read, which renders nothing), so it is optional here and the code is followed. Likewise `blogPosts` is declared required but defaulted by the mapper.

## Model

| member | source | states |
|---|---|---|
| Seqs.Filter | apps/frontend/src/pages/ResumePage.tsx:15-18 | `filter` keeps exactly the elements that pass, and no more than the input holds |
| Seqs.FilterMultiset | apps/frontend/src/pages/BlogPage.tsx:14 | a passing element occurs in the filter as often as in the input; a failing one never |
| Seqs.FilterConcat | apps/frontend/src/pages/ResumePage.tsx:15-18 | filtering distributes over concatenation, so input order is kept |
| Seqs.FilterShorterIfRejects | apps/frontend/src/pages/HomePage.tsx:358 | one element failing the test makes the filter shorter than its input |
| Seqs.FilterKeepsAll | apps/frontend/src/pages/HomePage.tsx:358 | when every element passes, the filter is its input |
| Seqs.FilterShorterIffRejects | apps/frontend/src/pages/HomePage.tsx:358 | the filter is shorter than its input iff some element fails; if not shorter it is the input |
| Seqs.FindIndex | apps/frontend/src/pages/BlogPostPage.tsx:16 | the index found holds a passing element and every earlier one fails; none found iff none passes |
| Seqs.Find | apps/frontend/src/utils/dataMapper.ts:22 | `find` returns a passing element of the list, is undefined iff none passes, and is the head of the filter |
| Seqs.Map | apps/frontend/src/utils/dataMapper.ts:61-68 | `map` keeps length and maps each index |
| Seqs.MapFilterSplit | apps/frontend/src/utils/dataMapper.ts:11-12 | mapping the two halves of a split by complementary tests gives the mapped list, each element once |
| Seqs.Slice | apps/frontend/src/pages/HomePage.tsx:33 | `slice` clamps both bounds to the length and is empty when they cross |
| Seqs.Minimum | apps/frontend/src/utils/dataMapper.ts:26-29 | `Math.min(...xs)` is an element no greater than any other; an empty list gives none (`Infinity`) |
| JsText.Or | apps/frontend/src/utils/dataMapper.ts:34 | The logical or of two strings is one of the two, `a` whenever it is non-empty, and empty only when both are |
| JsText.OrElse | apps/frontend/src/utils/dataMapper.ts:65-67 | The logical or of a possibly undefined `a` and `b` is `a` when it is truthy and `b` otherwise, and empty only when neither is truthy |
| JsText.StartsWith | apps/frontend/src/pages/HomePage.tsx:149 | `startsWith` holds iff the string is the prefix followed by the rest |
| JsText.Substring | apps/frontend/src/pages/HomePage.tsx:200 | `substring` of in-range ordered bounds is that slice; bounds beyond both ends give the whole string; never longer than the string |
| JsText.Split | apps/frontend/src/pages/HomePage.tsx:82 | `split(' ')` yields at least one piece and no piece holds a space |
| JsText.Join | apps/frontend/src/pages/HomePage.tsx:82 | `join` starts with the first piece and holds exactly the pieces' characters, plus the separator when there are two or more pieces |
| JsText.JoinSplit | apps/frontend/src/pages/HomePage.tsx:82 | joining the pieces of a split gives the string back |
| JsText.SplitJoin | apps/frontend/src/pages/HomePage.tsx:82 | splitting a join of separator-free pieces gives the pieces back |
| JsText.FirstChars | apps/frontend/src/pages/HomePage.tsx:82 | `map(n => n[0]).join('')` yields at most one character per piece |
| JsText.NatToDecimal | apps/frontend/src/utils/dataMapper.ts:54 | a count renders as decimal digits with no leading zero |
| JsText.ParseInt | apps/frontend/src/utils/dataMapper.ts:76 | definitional: `parseInt` is NaN iff the text after leading white space and one sign has no digit run (after a `0x` prefix, no hex digit run); else it is that run's value, negated after a minus. The read-back facts are ParseIntString, ParseIntDigits and ParseIntSignedNonDigit |
| JsText.IntToString | apps/frontend/src/utils/dataMapper.ts:53-55 | `${n}` is the decimal numeral of n, with a leading minus iff n is negative |
| JsText.ParseIntString | apps/frontend/src/utils/dataMapper.ts:53-55 | `parseInt` reads a rendered integer back, whatever suffix ends the numeral: any non-digit, except `x`/`X` after a lone `0`, which would start a hex prefix |
| JsText.ParseIntSignedNonDigit | apps/frontend/src/utils/dataMapper.ts:53 | a minus sign followed by a non-digit parses to NaN, as `-Infinity+` does |
| JsText.ParseIntDigits | apps/frontend/src/utils/dataMapper.ts:28 | `parseInt` of a run of decimal digits is their value |
| JsText.ValueOfBound | apps/frontend/src/utils/dataMapper.ts:27-28 | k decimal digits denote a value below 10^k |
| JsText.MatchFourDigits | apps/frontend/src/utils/dataMapper.ts:27 | `/\d{4}/` finds the leftmost run of four digits, or none when there is none |
| Api.OfType | apps/frontend/src/pages/ResumePage.tsx:15-18 | the items of one résumé type: exactly those, all of that type |
| Api.OfTypeConcat | apps/frontend/src/pages/ResumePage.tsx:15-18 | selecting by type keeps input order |
| Api.TypesPartition | apps/frontend/src/services/api.ts:17 | the four type lists together hold every résumé item once; their lengths sum to the résumé's |
| Api.InCategory | apps/frontend/src/utils/dataMapper.ts:72-73 | the skills of one category: exactly those |
| Api.InCategoryConcat | apps/frontend/src/pages/HomePage.tsx:57-65 | selecting by category keeps input order |
| Api.CategoriesPartition | apps/frontend/src/services/api.ts:53 | technical and professional skills together hold every skill once |
| Api.Featured | apps/frontend/src/utils/dataMapper.ts:83 | exactly the projects whose home-page flag is not explicitly false |
| Api.FeaturedConcat | apps/frontend/src/pages/HomePage.tsx:39 | selecting featured projects keeps input order |
| DataMapper.MapDataToContent | apps/frontend/src/utils/dataMapper.ts:6-18 | profile and blog flag are copied; absent posts become `[]`; hero, timeline, each skill list, projects and services are exactly what their own mapper gives; both skill lists together are every mapped skill once; timeline, project and service counts |
| DataMapper.StartYear | apps/frontend/src/utils/dataMapper.ts:27-28 | the year read from the leftmost four-digit run, between 0 and 9999; the current year when there is none |
| DataMapper.StartYears | apps/frontend/src/utils/dataMapper.ts:26-29 | one start year per experience, in order |
| DataMapper.YearsOfExperience | apps/frontend/src/utils/dataMapper.ts:26-30 | current year minus the earliest start year: attained by some item and not exceeded by any; never negative when no year is in the future; none iff no experience |
| DataMapper.YearsTextParses | apps/frontend/src/utils/dataMapper.ts:53 | the rendered `${years}+` reads back as the figure (NaN for `-Infinity`) |
| DataMapper.BadgeTitle | apps/frontend/src/utils/dataMapper.ts:22-49 | first awards item's certification, else its award, else `Professional`; never empty |
| DataMapper.BadgeSubtitle | apps/frontend/src/utils/dataMapper.ts:50 | first awards item's organization, or empty |
| DataMapper.PhotoSrc | apps/frontend/src/utils/dataMapper.ts:45 | base URL plus photo, empty exactly when there is no photo |
| DataMapper.StatTextsParse | apps/frontend/src/utils/dataMapper.ts:53-55 | each hero stat text (years with `+`, projects with `+`, companies) reads back through `parseInt` as its figure |
| DataMapper.MapToHeroContent | apps/frontend/src/utils/dataMapper.ts:20-58 | eyebrow from the first experience's role or the title; the bio as title, the default title when the bio is empty; CTAs "Book an intro" to `mailto:` plus the e-mail and "Download resume" to `/resume`; photo with alt text from the name; badge; the three stats, whose values read back as years, experience count and project count |
| DataMapper.MapToTimeline | apps/frontend/src/utils/dataMapper.ts:60-69 | one entry per experience item in order; period `start — end`; missing company, role, summary become empty |
| DataMapper.SkillValue | apps/frontend/src/utils/dataMapper.ts:76 | `parseInt(level)` when a non-zero number, else 50; never 0 |
| DataMapper.SkillValueOfNumeral | apps/frontend/src/utils/dataMapper.ts:76 | a level written as a non-zero integer followed by any non-digit suffix (such as `%`) has that value |
| DataMapper.SkillValueOfZero | apps/frontend/src/utils/dataMapper.ts:76 | a level of `0` falls back to 50 |
| DataMapper.MapToSkills | apps/frontend/src/utils/dataMapper.ts:71-79 | the skills of the category in order, names kept, values parsed, no description |
| DataMapper.MappedSkillsPartition | apps/frontend/src/utils/dataMapper.ts:11-12 | the two mapped lists together are every mapped skill once |
| DataMapper.ProjectLink | apps/frontend/src/utils/dataMapper.ts:89 | first non-empty of url, source, `#` |
| DataMapper.MapToProjects | apps/frontend/src/utils/dataMapper.ts:81-92 | featured projects in order; name, description, link; base URL plus image or the default image; empty stack and highlight |
| DataMapper.MapToServices | apps/frontend/src/utils/dataMapper.ts:94-100 | one card per service in order; summary to description, highlights to outcomes |
| ThemeToggle.AppliedClasses | apps/frontend/src/components/ThemeToggle.tsx:24-35 | after applying, exactly one mode class and it is the mode; the theme class present iff not ocean, no other theme class; every other class unchanged |
| ThemeToggle.LastApplicationWins | apps/frontend/src/components/ThemeToggle.tsx:28-34 | applying twice is applying the second time only |
| ThemeToggle.ApplySyncs | apps/frontend/src/components/ThemeToggle.tsx:28-34 | the root's managed classes then show exactly the mode and theme; reapplying a synced state changes nothing |
| ThemeToggle.Toggled | apps/frontend/src/components/ThemeToggle.tsx:38 | the toggled mode is a mode, and differs from a valid one |
| ThemeToggle.ToggledTwice | apps/frontend/src/components/ThemeToggle.tsx:38 | toggling twice restores the mode |
| ThemeToggle.StoredOr | apps/frontend/src/components/ThemeToggle.tsx:15-21 | the stored value when present and non-empty, else the fallback |
| ThemeToggle.ThemeToggle.constructor | apps/frontend/src/components/ThemeToggle.tsx:9-11 | starts dark, ocean, dropdown closed |
| ThemeToggle.ThemeToggle.ApplyTheme | apps/frontend/src/components/ThemeToggle.tsx:24-35 | the root's classes become the applied set computed from the old ones |
| ThemeToggle.ThemeToggle.LoadPreferences | apps/frontend/src/components/ThemeToggle.tsx:13-22 | mode and theme adopt non-empty stored values; classes applied from the stored values or dark and ocean; storage untouched; from the initial state the classes match the new mode and theme, and the state is valid and in sync when the stored values are a valid mode and theme |
| ThemeToggle.ThemeToggle.ToggleMode | apps/frontend/src/components/ThemeToggle.tsx:37-42 | mode flips, theme and dropdown kept, only `theme-mode` written, classes applied and in sync |
| ThemeToggle.ThemeToggle.SelectTheme | apps/frontend/src/components/ThemeToggle.tsx:44-49 | theme set, mode kept, dropdown closed, only `theme-color` written, classes applied and in sync |
| ThemeToggle.ThemeToggle.ToggleThemeMenu | apps/frontend/src/components/ThemeToggle.tsx:67 | the dropdown flag flips |
| ThemeToggle.ThemeToggle.CloseThemeMenu | apps/frontend/src/components/ThemeToggle.tsx:113 | the dropdown closes |
| ThemeToggle.ToggleTwice | apps/frontend/src/components/ThemeToggle.tsx:37-42 | two toggles from a synced state restore mode, theme and root classes |
| HomePage.Experiences | apps/frontend/src/pages/HomePage.tsx:32-35 | the first min(6, count) experience items, in order; all of them when at most six |
| HomePage.FeaturedProjects | apps/frontend/src/pages/HomePage.tsx:38-41 | the first min(6, count) featured projects, in order; all of them when at most six |
| HomePage.ShowAllProjectsLinkIff | apps/frontend/src/pages/HomePage.tsx:358 | "View all projects" shows iff some project is explicitly not featured or more than six are |
| HomePage.CurrentCertifications | apps/frontend/src/pages/HomePage.tsx:44-54 | exactly the certification items with no end or an unexpired one |
| HomePage.CurrentCertificationsConcat | apps/frontend/src/pages/HomePage.tsx:44-54 | the selection commutes with concatenation, so it keeps the résumé's order |
| HomePage.CurrentCertificationsMultiset | apps/frontend/src/pages/HomePage.tsx:44-54 | each current certification occurs as often as in the résumé; every other item never |
| HomePage.OpenCertificationIsCurrent | apps/frontend/src/pages/HomePage.tsx:49 | a certification without an end is always current |
| HomePage.FirstColumn | apps/frontend/src/pages/HomePage.tsx:195 | the first three experiences |
| HomePage.SecondColumn | apps/frontend/src/pages/HomePage.tsx:206-208 | present iff more than three experiences; then experiences four to six |
| HomePage.ColumnsShowExperiences | apps/frontend/src/pages/HomePage.tsx:195-216 | the two columns together show the home page's experiences once each, in order |
| HomePage.SummaryText | apps/frontend/src/pages/HomePage.tsx:200 | summary unchanged up to 200 characters, else its first 200 plus `...`; at most 203; empty when absent |
| HomePage.SummaryTextTruncates | apps/frontend/src/pages/HomePage.tsx:200 | a shown summary longer than 200 is a truncation: the summary's first 200 characters then `...` |
| HomePage.YearsExperience | apps/frontend/src/pages/HomePage.tsx:68-74 | none (`-Infinity`) iff there is no experience among the first six; otherwise the years since the earliest start among them: attained by one of them and exceeded by none |
| DataMapper.PrefixYearsAtMost | apps/frontend/src/pages/HomePage.tsx:68-74 | the years counted over a prefix of the experiences never exceed those over all of them |
| HomePage.YearsExperienceAtMostMapper | apps/frontend/src/pages/HomePage.tsx:68-74 | counted over the first six experiences only: never above the mapper's figure, equal when six or fewer |
| HomePage.HeroStats | apps/frontend/src/pages/HomePage.tsx:160-173 | the three figures read back as years, project count and min(6, experience count) |
| HomePage.Initials | apps/frontend/src/pages/HomePage.tsx:82 | no spaces, at most one character per piece |
| HomePage.WordStarts | apps/frontend/src/pages/HomePage.tsx:82 | reference definition of initials: word-start characters only, no spaces |
| HomePage.InitialsAreWordStarts | apps/frontend/src/pages/HomePage.tsx:82 | the initials are exactly the word-start characters; repeated spaces add nothing |
| HomePage.ResolveUrl | apps/frontend/src/pages/HomePage.tsx:149 | a URL starting with `http` is kept, any other is prefixed by the base URL; absolute when the base is |
| HomePage.ResolveUrlIdempotent | apps/frontend/src/pages/HomePage.tsx:149 | resolving twice against an absolute base is resolving once |
| HomePage.ProjectImage | apps/frontend/src/pages/HomePage.tsx:325-327 | the resolved image, or the default image when empty |
| HomePage.ProjectImageAgreesWithMapper | apps/frontend/src/pages/HomePage.tsx:325-327 | the page and the mapper agree on a relative or empty image and disagree on an absolute one |
| HomePage.ResumeDownloadHref | apps/frontend/src/pages/HomePage.tsx:146-149 | a link iff the download URL is non-empty, and then the resolved URL |
| ResumePage.ResumeSections | apps/frontend/src/pages/ResumePage.tsx:15-18 | each list is its type's items (its category's skills) in input order; together they hold the résumé (the skills) once each |
| ResumePage.Layout | apps/frontend/src/pages/ResumePage.tsx:76-153 | each section appears iff its flag is set |
| ResumePage.LayoutInPageOrder | apps/frontend/src/pages/ResumePage.tsx:76-183 | the shown sections keep the page's order: Experience, Education, Certifications, Awards, Skills, then its Technical and Professional sub-sections |
| ResumePage.RenderedSections | apps/frontend/src/pages/ResumePage.tsx:76-183 | each section renders iff its list is non-empty, and the rendered sections are in page order |
| ResumePage.SkillsShownIffSubsection | apps/frontend/src/pages/ResumePage.tsx:153-183 | the skills section renders iff one of its sub-sections does |
| BlogPage.PublishedPosts | apps/frontend/src/pages/BlogPage.tsx:14 | exactly the published posts, each as often as in the input; no draft |
| BlogPage.PublishedPostsConcat | apps/frontend/src/pages/BlogPage.tsx:14 | the listing keeps input order |
| BlogPage.PostHref | apps/frontend/src/pages/BlogPage.tsx:94 | `/blog/` followed by the slug |
| BlogPage.Render | apps/frontend/src/pages/BlogPage.tsx:74-110 | empty state iff nothing is published; else one card per published post, in order, linking to its slug, showing the post's own featured image exactly when it is non-empty, and tags only when present |
| BlogPostPage.FindPost | apps/frontend/src/pages/BlogPostPage.tsx:16 | the first post in list order published under the slug; none iff no published post has it |
| BlogPostPage.Render | apps/frontend/src/pages/BlogPostPage.tsx:16-18 | not found iff the lookup fails; else the article, with tags only when there are some |
| BlogPostPage.DraftIsNotFound | apps/frontend/src/pages/BlogPostPage.tsx:16-18 | a slug carried only by drafts gives not found |
| BlogPostPage.ListedPostIsFound | apps/frontend/src/pages/BlogPostPage.tsx:16 | every listed post's slug finds a post with that slug |
| BlogPostPage.ListedPostOpensItself | apps/frontend/src/pages/BlogPostPage.tsx:16 | with unique published slugs, the listed post is the one found |
| BlogPostPage.RouteSlug | apps/frontend/src/App.tsx:46 | a slug is returned only where the route matches: `/blog/` in any letter case, one non-empty segment, then only trailing slashes |
| BlogPostPage.RouteSlugComplete | apps/frontend/src/App.tsx:46 | wherever the route matches, the slug returned is the matched segment, so the match is unique |
| BlogPostPage.CardLinkOpensPost | apps/frontend/src/pages/BlogPage.tsx:94 | a card's link routes back to its slug and opens its post, for non-empty slugs of URL-unreserved characters (ASCII letters, digits, `-`, `.`, `_`, `~`) other than `.` and `..` |

## Left out

- Fetching the data, loading and error screens, and the asynchronous data hook are network and effect sequencing. The model starts from the data object.
- BlogPostPage.CardLinkOpensPost: URL parsing rewrites a link's path before routing. It cuts the path at the first `?` or `#`, turns `\` into `/`, drops tabs and line breaks, strips trailing spaces and control characters, percent-decodes, and resolves `.`, `..` and their encoded forms away. The model does not do this parsing, so the lemma is stated only for slugs of URL-unreserved characters other than `.` and `..`, which the parser leaves unchanged.
- Routing beyond the `/blog/:slug` pattern is left out, and so is percent-decoding of the route segment; case-insensitive matching is limited to ASCII letters, which are all the pattern holds.
- Dates are handled by parameters. The certificate expiry test `new Date(end) > now` is a predicate parameter, the current year is a parameter, and `toLocaleDateString` formatting is left out.
- Rendering is left out: markup, styling, animation timings, icons, labels and `aria` text, the mobile menu flag and smooth scrolling.
- Strings are sequences of characters, not UTF-16 code units. `n[0]` of a name piece starting outside the basic plane gives a half character in the source, and a whole one here.
- `parseInt` is over unbounded integers. A numeral beyond 2^53 loses precision in the source but not here.
- Number-to-string is modelled for integers only. The figures rendered are counts and differences of small years, so the exponent form of `${n}` from 1e21 up does not arise.
- The order of classes in the root's class list is not modelled; the class list is a set.
- `classList.add` rejecting an empty token or a token holding whitespace is not modelled. Such a mode or theme can only come from a hand-edited storage entry.
- ThemeToggle.ThemeToggle.LoadPreferences: React applies the state updates after the effect returns; the model assigns them in place. Nothing reads the state in between.
- The rendering of pages the home page links to (projects, services, footer) is left out as pure rendering. The projects page repeats the home page's image rule, which `HomePage.ProjectImage` models.
- The content mapper always prefixes the base URL to a project image, while the pages keep an absolute image as it is. `HomePage.ProjectImageAgreesWithMapper` states the difference; each is modelled as written.
