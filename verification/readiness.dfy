/**
 * The decision logic of the pyreadiness site generator (main.py): the
 * table of tracked Python releases and their lifecycle flags, the support
 * verdict for one package and one release, and the per-release result lists
 * that the run hands to its page templates.
 *
 * The download-statistics query, the package-index fetch, page rendering and
 * uploading are external services; they appear here only as the inputs they
 * produce (a family-keyed map of ranked project names and a map from project
 * name to its published classifier list).
 */
module Readiness {

  datatype Option<T> = None | Some(value: T)

  // ---------------------------------------------------------------------------
  // Lifecycle flags and the version table
  // ---------------------------------------------------------------------------

  /** Lifecycle flags of one release; a flag not given is false (main.py:12-14). */
  datatype Status = Status(
    dying: bool := false,
    eol: bool := false,
    dev: bool := false,
    alpha: bool := false,
    beta: bool := false,
    rc: bool := false
  )

  /** A release whose support window has ended or is about to end. */
  predicate Expired(s: Status) {
    s.eol || s.dying
  }

  function Flag(b: bool): nat {
    if b then 1 else 0
  }

  /** At most one expiry flag and at most one pre-release flag is set. */
  predicate WellFormed(s: Status) {
    && Flag(s.eol) + Flag(s.dying) <= 1
    && Flag(s.dev) + Flag(s.alpha) + Flag(s.beta) + Flag(s.rc) <= 1
  }

  /** A release number; the table's keys are these written as "major.minor". */
  datatype Version = Version(major: nat, minor: nat)

  /** The tracked releases, in the order the run visits them (main.py:16-34). */
  const Majors: seq<(Version, Status)> := [
    (Version(2, 3), Status(eol := true)),
    (Version(2, 4), Status(eol := true)),
    (Version(2, 5), Status(eol := true)),
    (Version(2, 6), Status(eol := true)),
    (Version(2, 7), Status(eol := true)),
    (Version(3, 0), Status(eol := true)),
    (Version(3, 1), Status(eol := true)),
    (Version(3, 2), Status(eol := true)),
    (Version(3, 3), Status(eol := true)),
    (Version(3, 4), Status(eol := true)),
    (Version(3, 5), Status(eol := true)),
    (Version(3, 6), Status()),
    (Version(3, 7), Status()),
    (Version(3, 8), Status()),
    (Version(3, 9), Status()),
    (Version(3, 10), Status(dev := true))
  ]

  /** The download families queried for top projects (main.py:83). */
  const FetchedFamilies: seq<string> := ["2", "3"]

  // ---------------------------------------------------------------------------
  // Version strings
  // ---------------------------------------------------------------------------

  predicate IsDigit(c: char) {
    '0' <= c <= '9'
  }

  predicate AllDigits(s: string) {
    forall i :: 0 <= i < |s| ==> IsDigit(s[i])
  }

  function Digit(d: nat): (c: char)
    requires d < 10
    ensures IsDigit(c) && c as int - '0' as int == d
  {
    ('0' as int + d) as char
  }

  /** The decimal numeral of `n`, without leading zeros. */
  function NatToString(n: nat): (s: string)
    ensures |s| > 0 && AllDigits(s)
  {
    if n < 10 then [Digit(n)] else NatToString(n / 10) + [Digit(n % 10)]
  }

  /** The decimal value of a string of digits. */
  function DigitsValue(s: string): nat
    requires AllDigits(s)
  {
    if s == [] then 0 else 10 * DigitsValue(s[..|s| - 1]) + (s[|s| - 1] as int - '0' as int)
  }

  lemma {:induction false} DigitsValueOfNatToString(n: nat)
    ensures DigitsValue(NatToString(n)) == n
  {
    if n >= 10 {
      DigitsValueOfNatToString(n / 10);
      var s := NatToString(n);
      assert s[..|s| - 1] == NatToString(n / 10);
    }
  }

  /** The key of a release in the table and in page paths, such as "3.10". */
  function VersionString(v: Version): (s: string)
    ensures |s| > 0
  {
    NatToString(v.major) + "." + NatToString(v.minor)
  }

  /** The position of the first `c` in `s`, or `|s|` when there is none. */
  function IndexOf(s: string, c: char): (k: nat)
    ensures k <= |s|
    ensures k < |s| ==> s[k] == c
    ensures forall j :: 0 <= j < k ==> s[j] != c
  {
    if s == [] then 0
    else if s[0] == c then 0
    else 1 + IndexOf(s[1..], c)
  }

  /** A key "X.Y" read back as a release number, numerically in both parts. */
  function ParseVersion(v: string): Option<Version>
  {
    var k := IndexOf(v, '.');
    if 0 < k < |v| - 1 && AllDigits(v[..k]) && AllDigits(v[k + 1..]) then
      Some(Version(DigitsValue(v[..k]), DigitsValue(v[k + 1..])))
    else
      None
  }

  /** Reading a key back gives the release it was written from. */
  lemma ParseVersionString(v: Version)
    ensures ParseVersion(VersionString(v)) == Some(v)
  {
    var a, b := NatToString(v.major), NatToString(v.minor);
    var s := VersionString(v);
    assert s[..|a|] == a && s[|a|] == '.' && s[|a| + 1..] == b;
    assert forall j :: 0 <= j < |a| ==> s[j] == a[j] && IsDigit(a[j]);
    assert IndexOf(s, '.') == |a|;
    DigitsValueOfNatToString(v.major);
    DigitsValueOfNatToString(v.minor);
  }

  /** Distinct releases have distinct keys. */
  lemma VersionStringInjective(v: Version, w: Version)
    ensures VersionString(v) == VersionString(w) <==> v == w
  {
    if VersionString(v) == VersionString(w) {
      ParseVersionString(v);
      ParseVersionString(w);
    }
  }

  /** The family whose project list a release uses: the key's first character (main.py:114). */
  function Family(major: string): string
    requires |major| > 0
  {
    major[..1]
  }

  /** A single-digit major release number is the family of its key. */
  lemma FamilyOfVersion(v: Version)
    requires v.major < 10
    ensures Family(VersionString(v)) == NatToString(v.major)
  {
  }

  // ---------------------------------------------------------------------------
  // Facts about the table
  // ---------------------------------------------------------------------------

  lemma MajorsWellFormed()
    ensures forall i :: 0 <= i < |Majors| ==> WellFormed(Majors[i].1)
  {
  }

  lemma MajorsStatusDefaults()
    ensures forall i :: 11 <= i < 15 ==> Majors[i].1 == Status(false, false, false, false, false, false)
    ensures forall i :: 0 <= i < 11 ==> Majors[i].1 == Status(false, true, false, false, false, false)
    ensures Majors[15].1 == Status(false, false, true, false, false, false)
  {
  }

  /** Every release belongs to one of the families whose projects are fetched. */
  lemma MajorsFamilies()
    ensures forall i :: 0 <= i < |Majors| ==> Family(VersionString(Majors[i].0)) in FetchedFamilies
  {
    forall i | 0 <= i < |Majors|
      ensures Family(VersionString(Majors[i].0)) in FetchedFamilies
    {
      var v := Majors[i].0;
      assert v.major == 2 || v.major == 3;
      FamilyOfVersion(v);
    }
  }

  /**
   * Expired releases all come before the releases that are still supported:
   * along the table, once a release is live every later one is live too, so
   * the table splits into one block of "leave it out" verdicts followed by
   * one block of "declare it" verdicts (see SupportsAcrossMajors).
   */
  lemma MajorsExpiredFirst()
    ensures forall i, j :: 0 <= i < j < |Majors| && Expired(Majors[j].1) ==> Expired(Majors[i].1)
  {
  }

  /** (major, minor) comparison, numeric in both parts. */
  predicate VersionLess(a: Version, b: Version) {
    a.major < b.major || (a.major == b.major && a.minor < b.minor)
  }

  /** Each release is below the next one. */
  predicate StrictlyAscending(table: seq<(Version, Status)>) {
    forall i :: 0 < i < |table| ==> VersionLess(table[i - 1].0, table[i].0)
  }

  lemma {:induction false} AscendingBetween(table: seq<(Version, Status)>, i: nat, j: nat)
    requires StrictlyAscending(table)
    requires i < j < |table|
    ensures VersionLess(table[i].0, table[j].0)
    decreases j - i
  {
    if i + 1 < j {
      AscendingBetween(table, i, j - 1);
      assert VersionLess(table[j - 1].0, table[j].0);
    }
  }

  /** The table lists releases in strictly ascending numeric order, so "3.10" follows "3.9". */
  lemma MajorsAscending()
    ensures StrictlyAscending(Majors)
    ensures forall i, j :: 0 <= i < j < |Majors| ==> VersionLess(Majors[i].0, Majors[j].0)
  {
    forall i, j | 0 <= i < j < |Majors|
      ensures VersionLess(Majors[i].0, Majors[j].0)
    {
      AscendingBetween(Majors, i, j);
    }
  }

  /** The keys of the table, written out as the source's dictionary literal has them. */
  lemma MajorsKeys()
    ensures forall i :: 0 <= i < |Majors| ==> VersionString(Majors[i].0) == ["2.3", "2.4", "2.5", "2.6", "2.7", "3.0", "3.1", "3.2", "3.3", "3.4", "3.5", "3.6", "3.7", "3.8", "3.9", "3.10"][i]
  {
  }

  /** The last two keys: numerically 3.9 comes before 3.10, though "3.10" sorts first as text. */
  lemma MajorsLastKeys()
    ensures VersionString(Majors[14].0) == "3.9" && VersionString(Majors[15].0) == "3.10"
    ensures VersionLess(Majors[14].0, Majors[15].0)
  {
    assert Majors[14].0 == Version(3, 9) && Majors[15].0 == Version(3, 10);
  }

  /** No key appears twice in the table. */
  lemma MajorsDistinct()
    ensures forall i, j :: 0 <= i < j < |Majors| ==> VersionString(Majors[i].0) != VersionString(Majors[j].0)
  {
    MajorsAscending();
    forall i, j | 0 <= i < j < |Majors|
      ensures VersionString(Majors[i].0) != VersionString(Majors[j].0)
    {
      VersionStringInjective(Majors[i].0, Majors[j].0);
    }
  }

  // ---------------------------------------------------------------------------
  // The support verdict
  // ---------------------------------------------------------------------------

  const TagPrefix: string := "Programming Language :: Python :: "

  /** The classifier a package publishes to declare support for `major` (main.py:71). */
  function VersionTag(major: string): (tag: string)
    ensures |tag| == |TagPrefix| + |major|
    ensures tag[..|TagPrefix|] == TagPrefix && tag[|TagPrefix|..] == major
  {
    TagPrefix + major
  }

  /** Distinct releases have distinct declaration tags. */
  lemma VersionTagInjective(a: string, b: string)
    ensures VersionTag(a) == VersionTag(b) <==> a == b
  {
  }

  /**
   * A package is counted as doing the right thing for `major` when it declares
   * a release that is still supported, or leaves out one that has expired
   * (main.py:70-73).
   */
  function Supports(major: string, classifiers: set<string>, status: Status): (r: bool)
    ensures !Expired(status) ==> (r <==> VersionTag(major) in classifiers)
    ensures Expired(status) ==> (r <==> VersionTag(major) !in classifiers)
  {
    (VersionTag(major) in classifiers) != (status.eol || status.dying)
  }

  /** The verdict depends on the classifier set only through the release's own tag. */
  lemma SupportsOnlyOwnTag(major: string, c1: set<string>, c2: set<string>, status: Status)
    requires VersionTag(major) in c1 <==> VersionTag(major) in c2
    ensures Supports(major, c1, status) == Supports(major, c2, status)
  {
  }

  /** Adding or removing any other classifier leaves the verdict unchanged. */
  lemma SupportsIgnoresOtherTags(major: string, classifiers: set<string>, tag: string, status: Status)
    requires tag != VersionTag(major)
    ensures Supports(major, classifiers + {tag}, status) == Supports(major, classifiers, status)
    ensures Supports(major, classifiers - {tag}, status) == Supports(major, classifiers, status)
  {
    SupportsOnlyOwnTag(major, classifiers + {tag}, classifiers, status);
    SupportsOnlyOwnTag(major, classifiers - {tag}, classifiers, status);
  }

  /** Declaring another release does not change the verdict for this one. */
  lemma SupportsIgnoresOtherReleases(major: string, other: string, classifiers: set<string>, status: Status)
    requires other != major
    ensures Supports(major, classifiers + {VersionTag(other)}, status) == Supports(major, classifiers, status)
  {
    VersionTagInjective(major, other);
    SupportsIgnoresOtherTags(major, classifiers, VersionTag(other), status);
  }

  /** For the same classifiers, an expired and a supported release get opposite verdicts. */
  lemma SupportsFlipsOnExpiry(major: string, classifiers: set<string>, live: Status, dead: Status)
    requires !Expired(live) && Expired(dead)
    ensures Supports(major, classifiers, live) != Supports(major, classifiers, dead)
  {
  }

  /**
   * Across the table: for releases after 3.5 the verdict is whether the
   * package declares the release; for 3.5 and older, whether it leaves it out.
   */
  lemma SupportsAcrossMajors(classifiers: set<string>)
    ensures forall i :: 0 <= i < |Majors| ==>
      var major := VersionString(Majors[i].0);
      Supports(major, classifiers, Majors[i].1) == ((VersionTag(major) in classifiers) == VersionLess(Version(3, 5), Majors[i].0))
  {
    MajorsStatusDefaults();
    assert forall i :: 0 <= i < |Majors| ==> (Expired(Majors[i].1) <==> !VersionLess(Version(3, 5), Majors[i].0));
  }

  // ---------------------------------------------------------------------------
  // Inputs produced by the external services
  // ---------------------------------------------------------------------------

  /** The classifiers of one project as a set: order and repetition in the published list are dropped. */
  function ClassifierSet(published: seq<string>): (c: set<string>)
    ensures forall t :: t in c <==> t in published
  {
    set t | t in published
  }

  /** The verdict for a published list depends only on whether the tag occurs in it. */
  lemma SupportsPublished(major: string, published: seq<string>, status: Status)
    ensures Supports(major, ClassifierSet(published), status) == ((VersionTag(major) in published) != Expired(status))
  {
  }

  /** Every project named in any family list, each once (main.py:109). */
  function NameUnion(projects: map<string, seq<string>>): (names: set<string>)
    ensures forall f, n :: f in projects && n in projects[f] ==> n in names
    ensures forall n :: n in names ==> exists f :: f in projects && n in projects[f]
  {
    set f, n | f in projects && n in projects[f] :: n
  }

  /**
   * Looks every name up in the package index (main.py:90-97). `registry` maps
   * each published project to its classifier list; looking up any other name
   * raises, which aborts the run, so the result is then None.
   */
  function FetchClassifiers(names: set<string>, registry: map<string, seq<string>>): (r: Option<map<string, set<string>>>)
    ensures r.Some? <==> names <= registry.Keys
    ensures r.Some? ==> r.value.Keys == names
    ensures r.Some? ==> forall n :: n in names ==> r.value[n] == ClassifierSet(registry[n])
  {
    if names <= registry.Keys then Some(map n | n in names :: ClassifierSet(registry[n])) else None
  }

  // ---------------------------------------------------------------------------
  // Result assembly
  // ---------------------------------------------------------------------------

  /** Every name of `names` has an entry in `classifiers`. */
  predicate AllKnown(names: seq<string>, classifiers: map<string, set<string>>) {
    forall i :: 0 <= i < |names| ==> names[i] in classifiers
  }

  /**
   * A classifier map built over the union of the family lists has an entry
   * for every project of every family, so no lookup of result assembly can
   * miss (main.py:109, 113-114).
   */
  lemma LookupsInDomain(projects: map<string, seq<string>>, classifiers: map<string, set<string>>)
    requires NameUnion(projects) <= classifiers.Keys
    ensures forall f :: f in projects ==> AllKnown(projects[f], classifiers)
  {
    forall f | f in projects
      ensures AllKnown(projects[f], classifiers)
    {
      forall i | 0 <= i < |projects[f]|
        ensures projects[f][i] in classifiers
      {
        assert projects[f][i] in NameUnion(projects);
      }
    }
  }

  /** The verdicts for one release over one family's ranked project list (main.py:112-115). */
  function Results(major: string, names: seq<string>, classifiers: map<string, set<string>>, status: Status): (r: seq<(string, bool)>)
    requires AllKnown(names, classifiers)
    ensures |r| == |names|
    ensures forall i :: 0 <= i < |names| ==> r[i].0 == names[i]
    ensures forall i :: 0 <= i < |names| ==> r[i].1 == Supports(major, classifiers[names[i]], status)
  {
    if names == [] then []
    else [(names[0], Supports(major, classifiers[names[0]], status))] + Results(major, names[1..], classifiers, status)
  }

  /** One page's payload: the release key, its flags and its verdicts. */
  datatype Report = Report(major: string, status: Status, results: seq<(string, bool)>)

  /** Every family a table release uses has a project list. */
  predicate FamiliesPresent(table: seq<(Version, Status)>, projects: map<string, seq<string>>) {
    forall i :: 0 <= i < |table| ==> Family(VersionString(table[i].0)) in projects
  }

  /** The reports for every release of `table`, in table order (main.py:111-115). */
  function Reports(table: seq<(Version, Status)>, projects: map<string, seq<string>>, classifiers: map<string, set<string>>): (r: seq<Report>)
    requires FamiliesPresent(table, projects)
    requires forall f :: f in projects ==> AllKnown(projects[f], classifiers)
    ensures |r| == |table|
    ensures forall i :: 0 <= i < |table| ==> r[i].major == VersionString(table[i].0) && r[i].status == table[i].1
    ensures forall i :: 0 <= i < |table| ==>
      var major := VersionString(table[i].0);
      r[i].results == Results(major, projects[Family(major)], classifiers, table[i].1)
  {
    if table == [] then []
    else
      var major := VersionString(table[0].0);
      var names := projects[Family(major)];
      [Report(major, table[0].1, Results(major, names, classifiers, table[0].1))]
      + Reports(table[1..], projects, classifiers)
  }

  /** The report `Reports` builds at one position, for a known key and family. */
  lemma ReportAt(table: seq<(Version, Status)>, projects: map<string, seq<string>>, classifiers: map<string, set<string>>,
                 i: nat, major: string, family: string)
    requires FamiliesPresent(table, projects)
    requires forall f :: f in projects ==> AllKnown(projects[f], classifiers)
    requires i < |table| && VersionString(table[i].0) == major && Family(major) == family
    ensures family in projects
    ensures Reports(table, projects, classifiers)[i] == Report(major, table[i].1, Results(major, projects[family], classifiers, table[i].1))
  {
  }

  /**
   * The pure part of one run (main.py:106-115): `projects` is what the
   * download query returned for each fetched family, `registry` what the
   * package index publishes.
   */
  function Run(projects: map<string, seq<string>>, registry: map<string, seq<string>>): (r: Option<seq<Report>>)
    requires forall f :: f in FetchedFamilies ==> f in projects
    ensures r.Some? <==> NameUnion(projects) <= registry.Keys
    ensures r.Some? ==> |r.value| == |Majors|
    ensures r.Some? ==> forall i :: 0 <= i < |Majors| ==>
      r.value[i].major == VersionString(Majors[i].0) && r.value[i].status == Majors[i].1
  {
    MajorsFamilies();
    match FetchClassifiers(NameUnion(projects), registry)
    case None => None
    case Some(classifiers) =>
      LookupsInDomain(projects, classifiers);
      Some(Reports(Majors, projects, classifiers))
  }

  /**
   * The report for release `i` lists exactly its family's projects, in rank
   * order, and entry `j` carries the verdict on the `j`-th project's published
   * classifiers, which the package index is sure to hold.
   */
  lemma RunVerdicts(projects: map<string, seq<string>>, registry: map<string, seq<string>>, i: nat, j: nat)
    requires forall f :: f in FetchedFamilies ==> f in projects
    requires NameUnion(projects) <= registry.Keys
    requires i < |Majors| && Family(VersionString(Majors[i].0)) in projects
    requires j < |projects[Family(VersionString(Majors[i].0))]|
    ensures Run(projects, registry).Some?
    ensures |Run(projects, registry).value[i].results| == |projects[Family(VersionString(Majors[i].0))]|
    ensures
      var major := VersionString(Majors[i].0);
      var name := projects[Family(major)][j];
      && name in registry
      && Run(projects, registry).value[i].results[j] == (name, Supports(major, ClassifierSet(registry[name]), Majors[i].1))
  {
    MajorsFamilies();
    var classifiers := FetchClassifiers(NameUnion(projects), registry).value;
    var names := projects[Family(VersionString(Majors[i].0))];
    assert names[j] in NameUnion(projects);
    LookupsInDomain(projects, classifiers);
    assert Run(projects, registry).value == Reports(Majors, projects, classifiers);
  }

  // ---------------------------------------------------------------------------
  // The rendering scenario of test/render.py
  // ---------------------------------------------------------------------------

  const ScenarioNames: seq<string> := ["foobar", "bizbaz", "blaha", "blahb", "blahc", "blahd"]

  /** Both fetched families list the same six projects. */
  const ScenarioProjects: map<string, seq<string>> := map f | f in FetchedFamilies :: ScenarioNames

  const ScenarioClassifiers: map<string, set<string>> := map[
    "foobar" := {},
    "bizbaz" := {VersionTag("2.6")},
    "blaha" := {},
    "blahb" := {},
    "blahc" := {},
    "blahd" := {}
  ]

  /**
   * The "2.6" page of the scenario: the release is expired in the table, and
   * only bizbaz, which still declares it, is marked down.
   */
  lemma ScenarioExpired()
    ensures Majors[3] == (Version(2, 6), Status(eol := true))
    ensures Results("2.6", ScenarioNames, ScenarioClassifiers, Majors[3].1)
      == [("foobar", true), ("bizbaz", false), ("blaha", true), ("blahb", true), ("blahc", true), ("blahd", true)]
  {
    assert Majors[3].0 == Version(2, 6);
  }

  /**
   * The "3.9" page of the scenario: the release is supported in the table and
   * declared by no project, so every verdict is false.
   */
  lemma ScenarioSupported()
    ensures Majors[14] == (Version(3, 9), Status())
    ensures Results("3.9", ScenarioNames, ScenarioClassifiers, Majors[14].1)
      == [("foobar", false), ("bizbaz", false), ("blaha", false), ("blahb", false), ("blahc", false), ("blahd", false)]
  {
    VersionTagInjective("3.9", "2.6");
  }

  /** Both scenario families list the same projects, all of which have classifiers. */
  lemma ScenarioInputs()
    ensures FamiliesPresent(Majors, ScenarioProjects)
    ensures NameUnion(ScenarioProjects) == ScenarioClassifiers.Keys
    ensures forall f :: f in ScenarioProjects ==> AllKnown(ScenarioProjects[f], ScenarioClassifiers)
  {
    MajorsFamilies();
    forall n | n in NameUnion(ScenarioProjects)
      ensures n in ScenarioClassifiers
    {
      assert n in ScenarioNames;
    }
    forall n | n in ScenarioClassifiers
      ensures n in NameUnion(ScenarioProjects)
    {
      assert n in ScenarioProjects["2"];
    }
    LookupsInDomain(ScenarioProjects, ScenarioClassifiers);
  }

  /** The keys and families of the two scenario pages. */
  lemma ScenarioKeys()
    ensures VersionString(Majors[3].0) == "2.6" && Family("2.6") == "2"
    ensures VersionString(Majors[14].0) == "3.9" && Family("3.9") == "3"
  {
  }

  /** A page of the scenario, for a known position, key and family. */
  lemma ScenarioPage(i: nat, major: string, family: string)
    requires FamiliesPresent(Majors, ScenarioProjects)
    requires forall f :: f in ScenarioProjects ==> AllKnown(ScenarioProjects[f], ScenarioClassifiers)
    requires i < |Majors| && VersionString(Majors[i].0) == major && Family(major) == family
    ensures Reports(Majors, ScenarioProjects, ScenarioClassifiers)[i]
      == Report(major, Majors[i].1, Results(major, ScenarioNames, ScenarioClassifiers, Majors[i].1))
  {
    ReportAt(Majors, ScenarioProjects, ScenarioClassifiers, i, major, family);
  }

  /** The "2.6" page the run builds from the scenario's inputs. */
  lemma ScenarioExpiredPage()
    ensures FamiliesPresent(Majors, ScenarioProjects)
    ensures forall f :: f in ScenarioProjects ==> AllKnown(ScenarioProjects[f], ScenarioClassifiers)
    ensures Reports(Majors, ScenarioProjects, ScenarioClassifiers)[3]
      == Report("2.6", Status(eol := true),
                [("foobar", true), ("bizbaz", false), ("blaha", true), ("blahb", true), ("blahc", true), ("blahd", true)])
  {
    ScenarioInputs();
    ScenarioKeys();
    ScenarioPage(3, "2.6", "2");
    ScenarioExpired();
  }

  /** The "3.9" page the run builds from the scenario's inputs. */
  lemma ScenarioSupportedPage()
    ensures FamiliesPresent(Majors, ScenarioProjects)
    ensures forall f :: f in ScenarioProjects ==> AllKnown(ScenarioProjects[f], ScenarioClassifiers)
    ensures Reports(Majors, ScenarioProjects, ScenarioClassifiers)[14]
      == Report("3.9", Status(),
                [("foobar", false), ("bizbaz", false), ("blaha", false), ("blahb", false), ("blahc", false), ("blahd", false)])
  {
    ScenarioInputs();
    ScenarioKeys();
    ScenarioPage(14, "3.9", "3");
    ScenarioSupported();
  }
}
