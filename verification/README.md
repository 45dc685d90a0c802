# pyreadiness decision logic in Dafny

pyreadiness publishes one page per Python release. Each page lists the most
downloaded projects of that release's family and says whether each project
"supports" the release. The logic behind those pages lives in `main.py`:

- the `Status` record of six lifecycle flags (`dying`, `eol`, `dev`, `alpha`,
  `beta`, `rc`), all false unless given;
- the constant table `MAJORS` from release key (`"2.3"` … `"3.10"`) to its `Status`;
- `supports(major, classifiers, status)`. It checks whether the project
  declares the classifier `"Programming Language :: Python :: <major>"`, and
  the verdict is true exactly when that check disagrees with
  `status.eol or status.dying`;
- the pure part of `run`. It takes the union of all family project lists as
  the names to look up. For each release it maps that release's family list
  (`projects[major[0]]`) to `(name, verdict)` pairs, in rank order.

`readiness.dfy` (module `Readiness`) models these as datatypes, functions and
lemmas, because the source is pure.

- The table is a sequence of `(Version, Status)` pairs in source order.
  `Version` holds the numeric major and minor parts. `VersionString` writes a
  release as the source's key (`"3.10"`), and `ParseVersion` reads a key back.
  Together they justify the numeric reading used for the ordering lemmas.
- The download query becomes an input: a map from family (`"2"`, `"3"`) to
  ranked project names.
- The package-index lookup becomes an input: a map from project name to its
  published classifier list.
- A name the index does not hold makes the source's fetch raise. That aborts
  the run, so `FetchClassifiers` and `Run` return `None` in that case.
- The pages' payload is `Report(major, status, results)`.

Three facts about `main.py` shape the model:

- `MAJORS` lists releases in ascending order, and the run visits them in that order.
- An unknown project aborts the run, because the fetch has no per-project fallback.
- `main.py` computes no per-release count of supported projects.

## Model

| member | source | states |
|---|---|---|
| `Readiness.MajorsStatusDefaults` | main.py:12-34 | flags not given are false: entries 2.3–3.5 carry only `eol`, 3.6–3.9 carry no flag, 3.10 carries only `dev` |
| `Readiness.MajorsWellFormed` | main.py:16-34 | every table status has at most one of {eol, dying} and at most one of {dev, alpha, beta, rc} |
| `Readiness.MajorsExpiredFirst` | main.py:16-34 | every expired release precedes every release still supported |
| `Readiness.MajorsAscending` | main.py:16-34 | keys are in strictly ascending numeric (major, minor) order, between any two positions and not only neighbours |
| `Readiness.MajorsKeys` | main.py:16-34 | entry i of the table has exactly the key at position i of the source's literal, "2.3" through "3.10" |
| `Readiness.MajorsLastKeys` | main.py:32-33 | the last two keys are "3.9" and "3.10", and 3.9 is numerically below 3.10 |
| `Readiness.MajorsDistinct` | main.py:16-34 | no key string occurs twice in the table |
| `Readiness.MajorsFamilies` | main.py:16-34 | the first character of every key is "2" or "3", the families whose projects are fetched |
| `Readiness.ParseVersionString` | main.py:16-34 | reading a key "X.Y" back numerically gives the release it was written from |
| `Readiness.VersionStringInjective` | main.py:16-34 | two releases have the same key exactly when they are equal |
| `Readiness.FamilyOfVersion` | main.py:114 | for a single-digit major number, `major[0]` is that number's numeral |
| `Readiness.VersionTag` | main.py:71 | the declaration tag is the fixed prefix followed by the key, and both parts can be read back from it |
| `Readiness.VersionTagInjective` | main.py:71 | distinct keys give distinct declaration tags |
| `Readiness.Supports` | main.py:70-73 | for a release neither eol nor dying, the verdict is membership of its tag; for an eol or dying release, the verdict is absence of its tag |
| `Readiness.SupportsOnlyOwnTag` | main.py:71-73 | two classifier sets that agree on the release's tag give the same verdict |
| `Readiness.SupportsIgnoresOtherTags` | main.py:71 | adding or removing any other classifier leaves the verdict unchanged |
| `Readiness.SupportsIgnoresOtherReleases` | main.py:71 | declaring a different release does not change the verdict for this one |
| `Readiness.SupportsFlipsOnExpiry` | main.py:71-73 | for the same classifiers, an expired and a live status give opposite verdicts |
| `Readiness.SupportsAcrossMajors` | main.py:16-34 | for every table release after 3.5 the verdict is "declares it"; for 3.5 and older it is "leaves it out" |
| `Readiness.ClassifierSet` | main.py:93 | the classifier set holds exactly the strings of the published list |
| `Readiness.SupportsPublished` | main.py:93 | the verdict on a published list depends only on whether the tag occurs in it, not on order or repetition |
| `Readiness.NameUnion` | main.py:109 | a name is in the lookup set exactly when some family list contains it |
| `Readiness.FetchClassifiers` | main.py:90-97 | succeeds exactly when the index holds every name; then its keys are exactly the names and each value is that project's classifier set |
| `Readiness.LookupsInDomain` | main.py:109-114 | a classifier map covering the name union has an entry for every project of every family |
| `Readiness.Results` | main.py:112-115 | same length as the family list; entry i names project i and carries `supports(major, classifiers[name_i], status)` |
| `Readiness.Reports` | main.py:111-115 | one report per table release, in table order, with that release's key, status and results over its family's list |
| `Readiness.ReportAt` | main.py:111-115 | the report at position i carries that release's key and status, and the results over the list of the key's first character |
| `Readiness.Run` | main.py:106-115 | the run fails exactly when some listed project is unknown to the index; otherwise it yields one report per table release, in table order |
| `Readiness.RunVerdicts` | main.py:106-115 | each release's results list exactly its family's projects in rank order; entry j carries the verdict on the published classifiers of project j, which the index holds |
| `Readiness.ScenarioExpired` | test/render.py:4-15 | with "2.6" eol in the table, foobar and blaha–blahd get true and bizbaz, which declares 2.6, gets false |
| `Readiness.ScenarioSupported` | test/render.py:4-15 | with "3.9" stable in the table and declared by nobody, every project gets false |
| `Readiness.ScenarioExpiredPage` | test/render.py:4-15 | the "2.6" page the run builds from the test's inputs is `Report("2.6", eol, …)` with bizbaz false and the other five projects true |
| `Readiness.ScenarioSupportedPage` | test/render.py:4-15 | the "3.9" page the run builds from the test's inputs is `Report("3.9", no flags, …)` with all six projects false |
| `Readiness.ScenarioInputs` | test/render.py:4-15 | the test's inputs cover every family the table uses, and every listed project has classifiers |

## Left out

- The download-statistics query and its client (main.py:36-52, 54, 76-87) are an external data-warehouse call. `projects` is an input that must hold the families "2" and "3", which `fetch_top_projects` always builds.
- The package-index HTTP fetch and JSON decoding (main.py:10, 64-67) are network I/O. `registry` is an input holding each project's `info.classifiers` list. Any fetch failure becomes `None` for the whole run.
- FetchClassifiers: does not say which unknown project the run fails on. Lookup order follows set iteration in the source and is not modelled.
- Uploading pages to the storage bucket (main.py:55-56, 100-103) and the file-writing replacement in test/render.py:18-25 are storage I/O.
- Template loading and rendering (main.py:58-61, 117-124) use a foreign library. The page paths `"<major>/index.html"` and the index page are not modelled; `Report` is the payload a release page receives.
- The timestamp `datetime.now()` (main.py:107), the unused `request` argument and all logging are nondeterminism or side effects with no bearing on verdicts.
- Table keys are modelled as `Version` numbers rendered by `VersionString`. `MajorsKeys` shows that the rendered keys are exactly the source's literal keys, and `ParseVersionString` and `VersionStringInjective` show that the rendering is reversible and injective.
