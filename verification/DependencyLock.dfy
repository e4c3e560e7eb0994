/**
 The dependency lock: a generator that turns three resolver reports into requirement files and a
 manifest, and the loader every other command trusts.  The two are written independently; the
 main theorem is that whatever the first writes, the second reads back as it was reported.
 */
module DependencyLock {
  import opened Prelude
  import opened Sorting
  import opened Text

  // ---------------------------------------------------------------- distribution names

  predicate Letter(c: char) {
    'a' <= c <= 'z' || 'A' <= c <= 'Z' || '0' <= c <= '9'
  }

  predicate Separator(c: char) {
    c == '-' || c == '_' || c == '.'
  }

  /** NAME: letters and digits, with single separators between them. */
  predicate IsName(s: string) {
    && s != "" && Letter(s[0]) && Letter(s[|s| - 1])
    && (forall i :: 0 <= i < |s| ==> Letter(s[i]) || Separator(s[i]))
    && (forall i :: 0 <= i < |s| - 1 ==> Letter(s[i]) || Letter(s[i + 1]))
  }

  /** Each run of separators becomes one hyphen. */
  function Collapse(s: string): string {
    if s == "" then ""
    else if !Separator(s[0]) then [s[0]] + Collapse(s[1..])
    else if |s| > 1 && Separator(s[1]) then Collapse(s[1..])
    else "-" + Collapse(s[1..])
  }

  function Canonical(name: string): Result<string, ()> {
    if IsName(name) then Ok(Lower(Collapse(name))) else Err(())
  }

  /** In a name no two separators touch, so collapsing is done character by character. */
  lemma {:induction false} CollapsePointwise(s: string)
    requires forall i :: 0 <= i < |s| - 1 ==> !Separator(s[i]) || !Separator(s[i + 1])
    ensures |Collapse(s)| == |s|
    ensures forall i :: 0 <= i < |s| ==> Collapse(s)[i] == if Separator(s[i]) then '-' else s[i]
  {
    if s != "" {
      CollapsePointwise(s[1..]);
    }
  }

  function FoldChar(c: char): char {
    if Separator(c) then '-' else LowerChar(c)
  }

  lemma CanonicalPointwise(name: string)
    requires IsName(name)
    ensures |Lower(Collapse(name))| == |name|
    ensures forall i :: 0 <= i < |name| ==> Lower(Collapse(name))[i] == FoldChar(name[i])
  {
    CollapsePointwise(name);
  }

  lemma FoldedIsName(name: string, folded: string)
    requires IsName(name) && |folded| == |name| && forall i :: 0 <= i < |name| ==> folded[i] == FoldChar(name[i])
    ensures IsName(folded)
  {
    forall i | 0 <= i < |name| - 1
      ensures Letter(folded[i]) || Letter(folded[i + 1])
    {
      assert Letter(name[i]) || Letter(name[i + 1]);
    }
  }

  /** A canonical name is a name, and is its own canonical form. */
  lemma CanonicalIsFixed(name: string)
    requires Canonical(name).Ok?
    ensures Canonical(Canonical(name).value) == Canonical(name)
  {
    var canonical := Canonical(name).value;
    CanonicalPointwise(name);
    FoldedIsName(name, canonical);
    CanonicalPointwise(canonical);
    var again := Lower(Collapse(canonical));
    forall i | 0 <= i < |name|
      ensures again[i] == canonical[i]
    {
      FoldTwice(name[i]);
    }
    assert again == canonical;
  }

  lemma FoldTwice(c: char)
    ensures FoldChar(FoldChar(c)) == FoldChar(c)
  {
  }

  // ---------------------------------------------------------------- reports, manifest, files

  datatype Entry = Entry(version: string, wheel: string, sha: string, url: string)

  /** A resolved distribution, under the name the resolver gives it. */
  datatype Item = Item(name: string, entry: Entry)

  /** A resolver report: the size of its file, and whether it comes from the one accepted resolver and target. */
  datatype Report = Report(bytes: nat, qualified: bool, install: seq<Item>)

  datatype Profile = Runtime | Dev | Build

  const PROFILES: seq<Profile> := [Runtime, Dev, Build]

  function FileName(p: Profile): string {
    match p
    case Runtime => "requirements.lock.txt"
    case Dev => "requirements.dev.lock.txt"
    case Build => "requirements.build.lock.txt"
  }

  datatype Reports = Reports(runtime: Report, dev: Report, build: Report)
  {
    function Of(p: Profile): Report {
      match p
      case Runtime => runtime
      case Dev => dev
      case Build => build
    }
  }

  datatype Info = Info(requirements: string, packages: seq<string>, sha: string)

  /** `qualified` stands for the fixed schema, target and resolver fields. */
  datatype Manifest = Manifest(qualified: bool, packages: map<string, Entry>, profiles: map<Profile, Info>)

  const METADATA_LIMIT: nat := 8_000_000

  /** Wheel tags, download origins, SHA-256 and the size of the encoded manifest. */
  datatype Facts = Facts(
    compatible: string -> bool, approved: string -> bool, digest: string -> string, size: Manifest -> nat)

  predicate IsVersion(s: string) {
    s != "" && Letter(s[0]) && forall c :: c in s ==> Letter(c) || c in ".!+_-"
  }

  predicate IsHash(s: string) {
    |s| == 64 && forall c :: c in s ==> 'a' <= c <= 'f' || '0' <= c <= '9'
  }

  predicate IsLocked(f: Facts, e: Entry) {
    IsVersion(e.version) && IsHash(e.sha) && f.compatible(e.wheel)
  }

  /** `hexdigest` writes 64 lower-case hexadecimal digits. */
  ghost predicate HashesWell(f: Facts) {
    forall text :: IsHash(f.digest(text))
  }

  // ---------------------------------------------------------------- requirement files

  function Requirement(name: string, e: Entry): string {
    name + "==" + e.version + " --hash=sha256:" + e.sha
  }

  function Requirements(names: seq<string>, packages: map<string, Entry>): (lines: seq<string>)
    requires forall name :: name in names ==> name in packages
    ensures |lines| == |names|
    ensures forall i :: 0 <= i < |names| ==> lines[i] == Requirement(names[i], packages[names[i]])
  {
    seq(|names|, i requires 0 <= i < |names| => Requirement(names[i], packages[names[i]]))
  }

  /** The three comment lines of a file; their wording is left out. */
  const HEADER: seq<string> := ["#", "#", "#"]

  function Render(names: seq<string>, packages: map<string, Entry>): string
    requires forall name :: name in names ==> name in packages
  {
    Join('\n', HEADER + Requirements(names, packages) + [""])
  }

  /** Where `splitlines` breaks; a break of two characters adds only an empty line. */
  predicate LineBreak(c: char) {
    c in "\n\r\U{000B}\U{000C}\U{001C}\U{001D}\U{001E}\U{0085}\U{2028}\U{2029}"
  }

  predicate IsComment(line: string) {
    line != "" && line[0] == '#'
  }

  /** The lines that are neither empty nor comments. */
  function Kept(lines: seq<string>): seq<string> {
    if lines == [] then []
    else if lines[0] == "" || IsComment(lines[0]) then Kept(lines[1..])
    else [lines[0]] + Kept(lines[1..])
  }

  lemma {:induction false} KeptConcat(a: seq<string>, b: seq<string>)
    ensures Kept(a + b) == Kept(a) + Kept(b)
  {
    if a == [] {
      assert a + b == b;
    } else {
      KeptConcat(a[1..], b);
      assert (a + b)[1..] == a[1..] + b && (a + b)[0] == a[0];
      assert [a[0]] + (Kept(a[1..]) + Kept(b)) == ([a[0]] + Kept(a[1..])) + Kept(b);
    }
  }

  lemma {:induction false} KeptAll(lines: seq<string>)
    requires forall i :: 0 <= i < |lines| ==> lines[i] != "" && !IsComment(lines[i])
    ensures Kept(lines) == lines
  {
    if lines != [] {
      KeptAll(lines[1..]);
      assert lines == [lines[0]] + lines[1..];
    }
  }

  lemma {:induction false} KeptNone(lines: seq<string>)
    requires forall line :: line in lines ==> IsComment(line)
    ensures Kept(lines) == []
  {
    if lines != [] {
      assert lines[0] in lines;
      KeptNone(lines[1..]);
    }
  }

  lemma WithoutConcat(a: string, b: string)
    requires Without(LineBreak, a) && Without(LineBreak, b)
    ensures Without(LineBreak, a + b)
  {
  }

  lemma NameIsLine(name: string)
    requires IsName(name)
    ensures Without(LineBreak, name)
  {
  }

  lemma VersionIsLine(version: string)
    requires IsVersion(version)
    ensures Without(LineBreak, version)
  {
  }

  lemma HashIsLine(sha: string)
    requires IsHash(sha)
    ensures Without(LineBreak, sha)
  {
  }

  lemma RequirementIsLine(name: string, e: Entry)
    requires IsName(name) && IsVersion(e.version) && IsHash(e.sha)
    ensures Without(LineBreak, Requirement(name, e))
    ensures Requirement(name, e) != "" && !IsComment(Requirement(name, e))
  {
    NameIsLine(name);
    VersionIsLine(e.version);
    HashIsLine(e.sha);
    LiteralsAreLines();
    WithoutConcat(name, "==");
    WithoutConcat(name + "==", e.version);
    WithoutConcat(name + "==" + e.version, " --hash=sha256:");
    WithoutConcat(name + "==" + e.version + " --hash=sha256:", e.sha);
    assert Requirement(name, e)[0] == name[0];
  }

  lemma LiteralsAreLines()
    ensures Without(LineBreak, "==") && Without(LineBreak, " --hash=sha256:")
  {
  }

  /** What is read back from a rendered file are the requirements written to it. */
  lemma RenderedLines(names: seq<string>, packages: map<string, Entry>)
    requires forall name :: name in names ==> name in packages
    requires forall name :: name in names ==> IsName(name) && IsVersion(packages[name].version) && IsHash(packages[name].sha)
    ensures Kept(Split(LineBreak, Render(names, packages))) == Requirements(names, packages)
  {
    var body := Requirements(names, packages);
    forall i | 0 <= i < |names|
      ensures Without(LineBreak, body[i]) && body[i] != "" && !IsComment(body[i])
    {
      RequirementIsLine(names[i], packages[names[i]]);
    }
    SplitJoin(LineBreak, '\n', HEADER + body + [""]);
    KeptBody(body);
  }

  lemma KeptBody(body: seq<string>)
    requires forall i :: 0 <= i < |body| ==> body[i] != "" && !IsComment(body[i])
    ensures Kept(HEADER + body + [""]) == body
  {
    KeptConcat(HEADER + body, [""]);
    KeptConcat(HEADER, body);
    KeptNone(HEADER);
    KeptAll(body);
  }

  // ---------------------------------------------------------------- load

  function Selected(names: seq<string>, packages: map<string, Entry>): map<string, Entry>
    requires forall name :: name in names ==> name in packages
  {
    map name | name in names :: packages[name]
  }

  /** The checks of `load` on a profile's names and file, once the file's hash agreed. */
  function LoadNames(f: Facts, packages: map<string, Entry>, listed: seq<string>, text: string): Result<map<string, Entry>, ()> {
    if exists name :: name in listed && name !in packages then Err(())
    else
      var names := Sort(TextLe, listed);
      SortElements(TextLe, listed);
      if exists name :: name in names && !(Canonical(name) == Ok(name) && IsLocked(f, packages[name])) then Err(())
      else if Kept(Split(LineBreak, text)) != Requirements(names, packages) then Err(())
      else Ok(Selected(listed, packages))
  }

  /** `load`: the locked distributions of a profile, or a refusal. */
  function Load(f: Facts, manifest: Option<Manifest>, files: map<string, string>, p: Profile): Result<map<string, Entry>, ()> {
    if manifest.None? || f.size(manifest.value) > METADATA_LIMIT then Err(())
    else
      var m := manifest.value;
      if !m.qualified || p !in m.profiles then Err(())
      else
        var info := m.profiles[p];
        if info.requirements != FileName(p) || !IsHash(info.sha) || FileName(p) !in files then Err(())
        else if f.digest(files[FileName(p)]) != info.sha || info.packages == [] || !NoDuplicates(info.packages) then Err(())
        else LoadNames(f, m.packages, info.packages, files[FileName(p)])
  }

  /** Profiles loaded from one checkout agree on every distribution they share. */
  lemma SharedEntriesAgree(f: Facts, manifest: Option<Manifest>, files: map<string, string>, p: Profile, q: Profile, name: string)
    requires var a := Load(f, manifest, files, p); a.Ok? && name in a.value
    requires var b := Load(f, manifest, files, q); b.Ok? && name in b.value
    ensures Load(f, manifest, files, p).value[name] == Load(f, manifest, files, q).value[name]
  {
  }

  // ---------------------------------------------------------------- what reports are accepted

  function Key(item: Item): string {
    if Canonical(item.name).Ok? then Canonical(item.name).value else ""
  }

  function Keys(items: seq<Item>): (keys: seq<string>)
    ensures |keys| == |items| && forall i :: 0 <= i < |items| ==> keys[i] == Key(items[i])
  {
    seq(|items|, i requires 0 <= i < |items| => Key(items[i]))
  }

  predicate ItemOk(f: Facts, item: Item) {
    Canonical(item.name).Ok? && IsLocked(f, item.entry) && f.approved(item.entry.url)
  }

  /** The distributions of a report by canonical name. */
  function Reported(items: seq<Item>): map<string, Entry> {
    if items == [] then map[]
    else Reported(items[..|items| - 1])[Key(items[|items| - 1]) := items[|items| - 1].entry]
  }

  lemma {:induction false} ReportedKeys(items: seq<Item>)
    ensures forall k :: k in Reported(items) <==> k in Keys(items)
  {
    if items != [] {
      var init := items[..|items| - 1];
      ReportedKeys(init);
      assert Keys(items) == Keys(init) + [Key(items[|items| - 1])];
    }
  }

  /** Under distinct names, each item is found under its own. */
  lemma {:induction false} ReportedHolds(items: seq<Item>, i: nat)
    requires NoDuplicates(Keys(items)) && i < |items|
    ensures Key(items[i]) in Reported(items) && Reported(items)[Key(items[i])] == items[i].entry
  {
    var init := items[..|items| - 1];
    if i < |init| {
      assert forall j :: 0 <= j < |init| ==> Keys(init)[j] == Keys(items)[j];
      ReportedHolds(init, i);
      assert Keys(items)[i] != Keys(items)[|items| - 1];
    }
  }

  /** Two items of one name lock the same entry. */
  predicate Agree(a: seq<Item>, b: seq<Item>) {
    forall i, j :: 0 <= i < |a| && 0 <= j < |b| && Key(a[i]) == Key(b[j]) ==> a[i].entry == b[j].entry
  }

  predicate ReportOk(f: Facts, r: Report) {
    && r.bytes <= METADATA_LIMIT && r.qualified && r.install != []
    && (forall i :: 0 <= i < |r.install| ==> ItemOk(f, r.install[i]))
    && NoDuplicates(Keys(r.install))
  }

  /** Exactly the reports `generate` does not refuse. */
  predicate Acceptable(f: Facts, rs: Reports) {
    && ReportOk(f, rs.runtime) && ReportOk(f, rs.dev) && ReportOk(f, rs.build)
    && Agree(rs.runtime.install, rs.dev.install)
    && Agree(rs.runtime.install, rs.build.install)
    && Agree(rs.dev.install, rs.build.install)
    && (forall k :: k in Keys(rs.runtime.install) ==> k in Keys(rs.dev.install))
    && (forall k :: k in Keys(rs.build.install) ==> k in Keys(rs.dev.install))
  }

  // ---------------------------------------------------------------- generate

  /** Item `i` checks out, under a name not met before it in its report, nor elsewhere with another entry. */
  predicate Fits(f: Facts, items: seq<Item>, packages: map<string, Entry>, i: nat)
    requires i < |items|
  {
    && ItemOk(f, items[i])
    && Key(items[i]) !in Keys(items[..i])
    && (Key(items[i]) in packages ==> packages[Key(items[i])] == items[i].entry)
  }

  predicate AdmissibleTo(f: Facts, items: seq<Item>, packages: map<string, Entry>, n: nat)
    requires n <= |items|
  {
    forall i :: 0 <= i < n ==> Fits(f, items, packages, i)
  }

  predicate Admissible(f: Facts, items: seq<Item>, packages: map<string, Entry>) {
    AdmissibleTo(f, items, packages, |items|)
  }

  /** The refusal inside the loop, on what has been collected so far. */
  predicate Refused(f: Facts, item: Item, names: seq<string>, grown: map<string, Entry>) {
    !ItemOk(f, item) || Key(item) in names || (Key(item) in grown && grown[Key(item)] != item.entry)
  }

  /** One report read: the loop over its items, stopping at the first it refuses. */
  method ReadReport(f: Facts, items: seq<Item>, packages: map<string, Entry>)
    returns (ok: bool, grown: map<string, Entry>, names: seq<string>)
    ensures ok <==> Admissible(f, items, packages)
    ensures ok ==> names == Keys(items) && grown == packages + Reported(items)
  {
    grown, names := packages, [];
    var i := 0;
    while i < |items|
      invariant 0 <= i <= |items| && AdmissibleTo(f, items, packages, i)
      invariant names == Keys(items[..i]) && grown == packages + Reported(items[..i])
    {
      ReadStep(f, items, packages, i);
      if Refused(f, items[i], names, grown) {
        return false, packages, [];
      }
      grown := grown[Key(items[i]) := items[i].entry];
      names := names + [Key(items[i])];
      i := i + 1;
    }
    assert items[..|items|] == items;
    ok := true;
  }

  lemma KeysStep(items: seq<Item>, i: nat)
    requires i < |items|
    ensures Keys(items[..i + 1]) == Keys(items[..i]) + [Key(items[i])]
    ensures Reported(items[..i + 1]) == Reported(items[..i])[Key(items[i]) := items[i].entry]
  {
    assert items[..i + 1][..i] == items[..i];
  }

  lemma UnionThenUpdate<K, V>(m: map<K, V>, n: map<K, V>, k: K, v: V)
    ensures m + n[k := v] == (m + n)[k := v]
  {
  }

  lemma RefusedIsUnfit(f: Facts, items: seq<Item>, packages: map<string, Entry>, i: nat)
    requires i < |items|
    ensures Refused(f, items[i], Keys(items[..i]), packages + Reported(items[..i])) <==> !Fits(f, items, packages, i)
  {
    ReportedKeys(items[..i]);
  }

  lemma AdmissibleStep(f: Facts, items: seq<Item>, packages: map<string, Entry>, i: nat)
    requires i < |items| && AdmissibleTo(f, items, packages, i)
    ensures Fits(f, items, packages, i) ==> AdmissibleTo(f, items, packages, i + 1)
    ensures !Fits(f, items, packages, i) ==> !Admissible(f, items, packages)
  {
  }

  lemma ReadStep(f: Facts, items: seq<Item>, packages: map<string, Entry>, i: nat)
    requires i < |items| && AdmissibleTo(f, items, packages, i)
    ensures Keys(items[..i + 1]) == Keys(items[..i]) + [Key(items[i])]
    ensures packages + Reported(items[..i + 1]) == (packages + Reported(items[..i]))[Key(items[i]) := items[i].entry]
    ensures if Refused(f, items[i], Keys(items[..i]), packages + Reported(items[..i])) then !Admissible(f, items, packages)
            else AdmissibleTo(f, items, packages, i + 1)
  {
    KeysStep(items, i);
    UnionThenUpdate(packages, Reported(items[..i]), Key(items[i]), items[i].entry);
    RefusedIsUnfit(f, items, packages, i);
    AdmissibleStep(f, items, packages, i);
  }

  lemma NewNamesAreDistinct(items: seq<Item>)
    ensures NoDuplicates(Keys(items)) <==> forall i :: 0 <= i < |items| ==> Key(items[i]) !in Keys(items[..i])
  {
  }

  predicate Holds(packages: map<string, Entry>, items: seq<Item>) {
    forall i :: 0 <= i < |items| ==> Key(items[i]) in packages && packages[Key(items[i])] == items[i].entry
  }

  lemma SortedKeys(items: seq<Item>)
    requires NoDuplicates(Keys(items))
    ensures var names := Sort(TextLe, Keys(items));
            && NoDuplicates(names) && |names| == |items|
            && Sort(TextLe, names) == names
            && forall name :: name in names <==> name in Keys(items)
  {
    var keys, names := Keys(items), Sort(TextLe, Keys(items));
    TextOrder();
    SortPermutes(TextLe, keys);
    SortElements(TextLe, keys);
    SortSorts(TextLe, keys);
    PermutationNoDuplicates(keys, names);
    assert Separates(TextLe, names);
    SortOfSorted(TextLe, names);
    assert |names| == |multiset(names)| == |multiset(keys)| == |keys|;
  }

  /** A locked name is canonical, and its entry passes every check of `load`. */
  lemma LockedNames(f: Facts, items: seq<Item>, packages: map<string, Entry>, name: string)
    requires (forall i :: 0 <= i < |items| ==> ItemOk(f, items[i])) && Holds(packages, items) && name in Keys(items)
    ensures name in packages && Canonical(name) == Ok(name) && IsName(name) && IsLocked(f, packages[name])
  {
    var i :| 0 <= i < |items| && Keys(items)[i] == name;
    CanonicalIsFixed(items[i].name);
  }

  lemma SelectedIsReported(items: seq<Item>, names: seq<string>, packages: map<string, Entry>)
    requires NoDuplicates(Keys(items)) && Holds(packages, items) && forall name :: name in names <==> name in Keys(items)
    ensures (forall name :: name in names ==> name in packages) && Selected(names, packages) == Reported(items)
  {
    ReportedKeys(items);
    forall name | name in Keys(items)
      ensures name in packages && packages[name] == Reported(items)[name]
    {
      var i :| 0 <= i < |items| && Keys(items)[i] == name;
      ReportedHolds(items, i);
    }
  }

  /** What is rendered for a good report passes the checks of `load` and selects what was reported. */
  lemma NamesLoadBack(f: Facts, packages: map<string, Entry>, r: Report)
    requires ReportOk(f, r) && Holds(packages, r.install)
    ensures var names := Sort(TextLe, Keys(r.install));
            && (forall name :: name in names ==> name in packages)
            && names != [] && NoDuplicates(names)
            && LoadNames(f, packages, names, Render(names, packages)) == Ok(Reported(r.install))
  {
    var names := Sort(TextLe, Keys(r.install));
    SortedKeys(r.install);
    forall name | name in names
      ensures name in packages && Canonical(name) == Ok(name) && IsName(name) && IsLocked(f, packages[name])
    {
      LockedNames(f, r.install, packages, name);
    }
    RenderedLines(names, packages);
    SelectedIsReported(r.install, names, packages);
  }

  /** The packages collected from the first `k` profiles. */
  function Union(rs: Reports, k: nat): map<string, Entry>
    requires k <= |PROFILES|
  {
    if k == 0 then map[] else Union(rs, k - 1) + Reported(rs.Of(PROFILES[k - 1]).install)
  }

  predicate ReadOk(f: Facts, rs: Reports, k: nat)
    requires k < |PROFILES|
  {
    var r := rs.Of(PROFILES[k]);
    r.bytes <= METADATA_LIMIT && r.qualified && r.install != [] && Admissible(f, r.install, Union(rs, k))
  }

  predicate DevHoldsAll(rs: Reports) {
    && (forall k :: k in Keys(rs.runtime.install) ==> k in Keys(rs.dev.install))
    && (forall k :: k in Keys(rs.build.install) ==> k in Keys(rs.dev.install))
  }

  predicate ItemsOk(f: Facts, items: seq<Item>) {
    forall i :: 0 <= i < |items| ==> ItemOk(f, items[i])
  }

  /** No item contradicts the table. */
  predicate Fitting(packages: map<string, Entry>, items: seq<Item>) {
    forall i :: 0 <= i < |items| && Key(items[i]) in packages ==> packages[Key(items[i])] == items[i].entry
  }

  lemma AdmissibleMeans(f: Facts, items: seq<Item>, packages: map<string, Entry>)
    ensures Admissible(f, items, packages) <==> ItemsOk(f, items) && NoDuplicates(Keys(items)) && Fitting(packages, items)
  {
    NewNamesAreDistinct(items);
    if Admissible(f, items, packages) {
      forall i | 0 <= i < |items|
        ensures ItemOk(f, items[i]) && Key(items[i]) !in Keys(items[..i])
        ensures Key(items[i]) in packages ==> packages[Key(items[i])] == items[i].entry
      {
        assert Fits(f, items, packages, i);
      }
    }
  }

  lemma FittingMeansAgree(a: seq<Item>, b: seq<Item>)
    requires NoDuplicates(Keys(a))
    ensures Fitting(Reported(a), b) <==> Agree(a, b)
  {
    ReportedKeys(a);
    forall i, j | 0 <= i < |a| && 0 <= j < |b| && Key(a[i]) == Key(b[j])
      ensures Key(b[j]) in Reported(a) && Reported(a)[Key(b[j])] == a[i].entry
    {
      ReportedHolds(a, i);
    }
    forall j | 0 <= j < |b| && Key(b[j]) in Reported(a)
      ensures exists i :: 0 <= i < |a| && Key(a[i]) == Key(b[j])
    {
      var i :| 0 <= i < |Keys(a)| && Keys(a)[i] == Key(b[j]);
    }
  }

  lemma ReportedFits(a: seq<Item>, b: seq<Item>, k: string)
    requires NoDuplicates(Keys(a)) && NoDuplicates(Keys(b)) && Agree(a, b) && k in Reported(a) && k in Reported(b)
    ensures Reported(a)[k] == Reported(b)[k]
  {
    ReportedKeys(a);
    ReportedKeys(b);
    var i :| 0 <= i < |Keys(a)| && Keys(a)[i] == k;
    var j :| 0 <= j < |Keys(b)| && Keys(b)[j] == k;
    ReportedHolds(a, i);
    ReportedHolds(b, j);
  }

  /** A table collected from two agreeing reports contradicts an item just when one of the two does. */
  lemma FittingUnion(a: seq<Item>, b: seq<Item>, c: seq<Item>)
    requires NoDuplicates(Keys(a)) && NoDuplicates(Keys(b)) && Agree(a, b)
    ensures Fitting(Reported(a) + Reported(b), c) <==> Agree(a, c) && Agree(b, c)
  {
    FittingMeansAgree(a, c);
    FittingMeansAgree(b, c);
    forall i | 0 <= i < |c| && Key(c[i]) in Reported(a) && Key(c[i]) in Reported(b)
      ensures Reported(a)[Key(c[i])] == Reported(b)[Key(c[i])]
    {
      ReportedFits(a, b, Key(c[i]));
    }
  }

  lemma FirstUnions(rs: Reports)
    ensures Union(rs, 1) == Reported(rs.runtime.install)
    ensures Union(rs, 2) == Reported(rs.runtime.install) + Reported(rs.dev.install)
    ensures Union(rs, 3) == Reported(rs.runtime.install) + Reported(rs.dev.install) + Reported(rs.build.install)
  {
  }

  lemma ReadFirst(f: Facts, rs: Reports)
    ensures ReadOk(f, rs, 0) <==> ReportOk(f, rs.runtime)
  {
    AdmissibleMeans(f, rs.runtime.install, Union(rs, 0));
  }

  lemma ReadSecond(f: Facts, rs: Reports)
    requires ReportOk(f, rs.runtime)
    ensures ReadOk(f, rs, 1) <==> ReportOk(f, rs.dev) && Agree(rs.runtime.install, rs.dev.install)
  {
    FirstUnions(rs);
    AdmissibleMeans(f, rs.dev.install, Union(rs, 1));
    FittingMeansAgree(rs.runtime.install, rs.dev.install);
  }

  lemma ReadThird(f: Facts, rs: Reports)
    requires ReportOk(f, rs.runtime) && ReportOk(f, rs.dev) && Agree(rs.runtime.install, rs.dev.install)
    ensures ReadOk(f, rs, 2)
       <==> ReportOk(f, rs.build) && Agree(rs.runtime.install, rs.build.install) && Agree(rs.dev.install, rs.build.install)
  {
    FirstUnions(rs);
    AdmissibleMeans(f, rs.build.install, Union(rs, 2));
    FittingUnion(rs.runtime.install, rs.dev.install, rs.build.install);
  }

  predicate AllRead(f: Facts, rs: Reports) {
    forall k :: 0 <= k < |PROFILES| ==> ReadOk(f, rs, k)
  }

  /** Reading one report after the other refuses exactly the unacceptable triples. */
  lemma ReadingMeansAcceptable(f: Facts, rs: Reports)
    ensures AllRead(f, rs) && DevHoldsAll(rs) <==> Acceptable(f, rs)
  {
    ReadFirst(f, rs);
    if ReportOk(f, rs.runtime) {
      ReadSecond(f, rs);
      if ReportOk(f, rs.dev) && Agree(rs.runtime.install, rs.dev.install) {
        ReadThird(f, rs);
      }
    }
    assert AllRead(f, rs) <==> ReadOk(f, rs, 0) && ReadOk(f, rs, 1) && ReadOk(f, rs, 2);
  }

  /** The collected table holds every report. */
  lemma UnionHolds(f: Facts, rs: Reports, p: Profile)
    requires Acceptable(f, rs)
    ensures Holds(Union(rs, |PROFILES|), rs.Of(p).install)
  {
    var a, b, c := rs.runtime.install, rs.dev.install, rs.build.install;
    var items := rs.Of(p).install;
    FirstUnions(rs);
    forall i | 0 <= i < |items|
      ensures Key(items[i]) in Union(rs, 3) && Union(rs, 3)[Key(items[i])] == items[i].entry
    {
      var k := Key(items[i]);
      ReportedHolds(items, i);
      if p != Build && k in Reported(c) {
        ReportedFits(items, c, k);
      } else if p == Runtime && k in Reported(b) {
        ReportedFits(a, b, k);
      }
    }
  }

  function NamesOf(rs: Reports, p: Profile): seq<string> {
    Sort(TextLe, Keys(rs.Of(p).install))
  }

  /** The profile's names are all in the collected table. */
  lemma NamesCollected(f: Facts, rs: Reports, p: Profile)
    requires Acceptable(f, rs)
    ensures forall name :: name in NamesOf(rs, p) ==> name in Union(rs, |PROFILES|)
  {
    UnionHolds(f, rs, p);
    NamesLoadBack(f, Union(rs, |PROFILES|), rs.Of(p));
  }

  /** The requirements file acceptable reports lead to. */
  function TextOf(f: Facts, rs: Reports, p: Profile): string
    requires Acceptable(f, rs)
  {
    NamesCollected(f, rs, p);
    Render(NamesOf(rs, p), Union(rs, |PROFILES|))
  }

  function InfoOf(f: Facts, rs: Reports, p: Profile): Info
    requires Acceptable(f, rs)
  {
    Info(FileName(p), NamesOf(rs, p), f.digest(TextOf(f, rs, p)))
  }

  /** The manifest's entries, and the files, after the first `n` profiles. */
  function InfosTo(f: Facts, rs: Reports, n: nat): map<Profile, Info>
    requires Acceptable(f, rs) && n <= |PROFILES|
  {
    if n == 0 then map[] else InfosTo(f, rs, n - 1)[PROFILES[n - 1] := InfoOf(f, rs, PROFILES[n - 1])]
  }

  function FilesTo(f: Facts, rs: Reports, files: map<string, string>, n: nat): map<string, string>
    requires Acceptable(f, rs) && n <= |PROFILES|
  {
    if n == 0 then files
    else FilesTo(f, rs, files, n - 1)[FileName(PROFILES[n - 1]) := TextOf(f, rs, PROFILES[n - 1])]
  }

  /** The manifest they lead to. */
  function ManifestOf(f: Facts, rs: Reports): Manifest
    requires Acceptable(f, rs)
  {
    Manifest(true, Union(rs, |PROFILES|), InfosTo(f, rs, |PROFILES|))
  }

  lemma FileNamesDiffer(p: Profile, q: Profile)
    requires p != q
    ensures FileName(p) != FileName(q)
  {
  }

  function Index(p: Profile): (n: nat)
    ensures n < |PROFILES| && PROFILES[n] == p
  {
    match p
    case Runtime => 0
    case Dev => 1
    case Build => 2
  }

  lemma {:induction false} InfoWritten(f: Facts, rs: Reports, n: nat, p: Profile)
    requires Acceptable(f, rs) && Index(p) < n <= |PROFILES|
    ensures p in InfosTo(f, rs, n) && InfosTo(f, rs, n)[p] == InfoOf(f, rs, p)
  {
    if PROFILES[n - 1] != p {
      InfoWritten(f, rs, n - 1, p);
    }
  }

  lemma {:induction false} FileWritten(f: Facts, rs: Reports, files: map<string, string>, n: nat, p: Profile)
    requires Acceptable(f, rs) && Index(p) < n <= |PROFILES|
    ensures FileName(p) in FilesTo(f, rs, files, n) && FilesTo(f, rs, files, n)[FileName(p)] == TextOf(f, rs, p)
  {
    if PROFILES[n - 1] != p {
      FileWritten(f, rs, files, n - 1, p);
      FileNamesDiffer(p, PROFILES[n - 1]);
    }
  }

  lemma {:induction false} OthersKept(f: Facts, rs: Reports, files: map<string, string>, n: nat)
    requires Acceptable(f, rs) && n <= |PROFILES|
    ensures KeepsOthers(files, FilesTo(f, rs, files, n))
  {
    if n > 0 {
      OthersKept(f, rs, files, n - 1);
    }
  }

  /** What was written for acceptable reports is loaded back exactly, unless the manifest outgrew the reader's bound. */
  lemma LoadsBack(f: Facts, rs: Reports, files: map<string, string>, p: Profile)
    requires HashesWell(f) && Acceptable(f, rs)
    requires FileName(p) in files && files[FileName(p)] == TextOf(f, rs, p)
    ensures LoadsReported(f, ManifestOf(f, rs), files, p, rs.Of(p))
  {
    var m := ManifestOf(f, rs);
    InfoWritten(f, rs, |PROFILES|, p);
    assert IsHash(f.digest(files[FileName(p)]));
    UnionHolds(f, rs, p);
    NamesLoadBack(f, m.packages, rs.Of(p));
  }

  class Checkout {
    var manifest: Option<Manifest>
    var files: map<string, string>

    constructor (manifest: Option<Manifest>, files: map<string, string>)
      ensures this.manifest == manifest && this.files == files
    {
      this.manifest, this.files := manifest, files;
    }

    /** The next report, into the table of packages collected so far. */
    method ReadOne(f: Facts, rs: Reports, i: nat, packages: map<string, Entry>)
      returns (ok: bool, grown: map<string, Entry>, names: seq<string>)
      requires i < |PROFILES| && packages == Union(rs, i)
      ensures ok <==> ReadOk(f, rs, i)
      ensures ok ==> grown == Union(rs, i + 1) && names == NamesOf(rs, PROFILES[i])
    {
      var r := rs.Of(PROFILES[i]);
      ok, grown, names := ReadReport(f, r.install, packages);
      ok := r.bytes <= METADATA_LIMIT && r.qualified && ok && names != [];
      names := Sort(TextLe, names);
    }

    /** The reports are read one after the other into one table of packages. */
    method Read(f: Facts, rs: Reports) returns (ok: bool, packages: map<string, Entry>, selected: map<Profile, seq<string>>)
      ensures ok <==> AllRead(f, rs)
      ensures ok ==> packages == Union(rs, |PROFILES|)
      ensures ok ==> forall p :: p in selected && selected[p] == NamesOf(rs, p)
    {
      packages, selected := map[], map[];
      for i := 0 to |PROFILES|
        invariant forall k :: 0 <= k < i ==> ReadOk(f, rs, k)
        invariant packages == Union(rs, i)
        invariant forall k :: 0 <= k < i ==> PROFILES[k] in selected && selected[PROFILES[k]] == NamesOf(rs, PROFILES[k])
      {
        var read, grown, names := ReadOne(f, rs, i, packages);
        if !read {
          return false, map[], map[];
        }
        packages := grown;
        selected := selected[PROFILES[i] := names];
      }
      ok := true;
      forall p: Profile
        ensures p in selected && selected[p] == NamesOf(rs, p)
      {
        assert p == PROFILES[Index(p)];
      }
    }

    /** One profile's requirements file, and its entry in the manifest. */
    method WriteProfile(f: Facts, rs: Reports, p: Profile, packages: map<string, Entry>, names: seq<string>) returns (info: Info)
      requires Acceptable(f, rs) && packages == Union(rs, |PROFILES|) && names == NamesOf(rs, p)
      modifies this`files
      ensures files == old(files)[FileName(p) := TextOf(f, rs, p)] && info == InfoOf(f, rs, p)
    {
      NamesCollected(f, rs, p);
      var text := Render(names, packages);
      files := files[FileName(p) := text];
      info := Info(FileName(p), names, f.digest(text));
    }

    /** The second half of `generate`: a file and a manifest entry per profile, then the manifest. */
    method Write(f: Facts, rs: Reports, packages: map<string, Entry>, selected: map<Profile, seq<string>>)
      requires Acceptable(f, rs) && packages == Union(rs, |PROFILES|)
      requires forall p :: p in selected && selected[p] == NamesOf(rs, p)
      modifies this
      ensures manifest == Some(ManifestOf(f, rs)) && files == FilesTo(f, rs, old(files), |PROFILES|)
    {
      var infos: map<Profile, Info> := map[];
      ghost var before := files;
      for i := 0 to |PROFILES|
        invariant infos == InfosTo(f, rs, i) && files == FilesTo(f, rs, before, i)
      {
        var info := WriteProfile(f, rs, PROFILES[i], packages, selected[PROFILES[i]]);
        infos := infos[PROFILES[i] := info];
      }
      manifest := Some(Manifest(true, packages, infos));
    }

    /**
     `generate`.  It accepts exactly the acceptable reports and otherwise changes nothing; having
     accepted them, it leaves files that load, in every profile, as exactly what was reported,
     if and only if the manifest the reports lead to is within the bound its reader enforces.
     */
    method Generate(f: Facts, rs: Reports) returns (ok: bool)
      requires HashesWell(f)
      modifies this
      ensures ok <==> Acceptable(f, rs)
      ensures !ok ==> manifest == old(manifest) && files == old(files)
      ensures ok ==> manifest == Some(ManifestOf(f, rs)) && forall p :: LoadsReported(f, ManifestOf(f, rs), files, p, rs.Of(p))
      ensures KeepsOthers(old(files), files)
    {
      var read, packages, selected := Read(f, rs);
      ReadingMeansAcceptable(f, rs);
      if !read || !DevHoldsAll(rs) {
        return false;
      }
      Write(f, rs, packages, selected);
      OthersKept(f, rs, old(files), |PROFILES|);
      forall p: Profile
        ensures LoadsReported(f, ManifestOf(f, rs), files, p, rs.Of(p))
      {
        FileWritten(f, rs, old(files), |PROFILES|, p);
        LoadsBack(f, rs, files, p);
      }
      ok := true;
    }
  }

  /** Files that are no profile's are left as they were. */
  predicate KeepsOthers(before: map<string, string>, after: map<string, string>) {
    forall name :: name in before && name !in {FileName(Runtime), FileName(Dev), FileName(Build)}
                   ==> name in after && after[name] == before[name]
  }

  /** `load` gives back the report, or refuses a manifest beyond its size bound. */
  predicate LoadsReported(f: Facts, m: Manifest, files: map<string, string>, p: Profile, r: Report) {
    Load(f, Some(m), files, p) == if f.size(m) <= METADATA_LIMIT then Ok(Reported(r.install)) else Err(())
  }

  /** Whatever the runtime and build profiles report is locked, with the same entry, in the dev profile. */
  lemma DevContainsOthers(f: Facts, rs: Reports, p: Profile, name: string)
    requires Acceptable(f, rs) && name in Reported(rs.Of(p).install)
    ensures name in Reported(rs.dev.install) && Reported(rs.dev.install)[name] == Reported(rs.Of(p).install)[name]
  {
    ReportedKeys(rs.Of(p).install);
    ReportedKeys(rs.dev.install);
    if p == Runtime {
      ReportedFits(rs.runtime.install, rs.dev.install, name);
    } else if p == Build {
      ReportedFits(rs.dev.install, rs.build.install, name);
    }
  }

  // ---------------------------------------------------------------- a manifest that is written and then refused

  /** The text of one package in the manifest. */
  function EntryText(name: string, e: Entry): nat {
    |name| + |e.version| + |e.wheel| + |e.sha| + |e.url|
  }

  /** Encoding loses no text: the manifest is no smaller than any of its packages. */
  ghost predicate CountsText(f: Facts) {
    forall m: Manifest, name :: name in m.packages ==> EntryText(name, m.packages[name]) <= f.size(m)
  }

  /** A file that holds only what is read of a report takes no more than this; the wheel's name is part of its URL. */
  function ReportText(items: seq<Item>): nat {
    if items == [] then 256
    else
      var last := items[|items| - 1];
      ReportText(items[..|items| - 1]) + 128 + |last.name| + |last.entry.version| + |last.entry.sha| + |last.entry.url|
  }

  const LONG: nat := 4_500_000

  /** A wheel whose distribution name alone takes more than half the bound. */
  function LongWheel(): string {
    seq(LONG, _ => 'a') + "-1-py3-none-any.whl"
  }

  function LongEntry(): Entry {
    Entry("1", LongWheel(), seq(64, _ => '0'), "https://files.pythonhosted.org/" + LongWheel())
  }

  function LongReport(): Report {
    Report(ReportText([Item("a", LongEntry())]), true, [Item("a", LongEntry())])
  }

  /**
   Three reports, each a file within the reader's bound, that `generate` accepts and whose
   manifest no profile loads from: it names a long wheel twice, once on its own and once in its URL.
   */
  lemma AcceptedButNotLoaded(f: Facts)
    requires HashesWell(f) && CountsText(f) && f.compatible(LongWheel()) && f.approved(LongEntry().url)
    ensures var rs := Reports(LongReport(), LongReport(), LongReport());
            && LongReport().bytes <= METADATA_LIMIT && Acceptable(f, rs) && f.size(ManifestOf(f, rs)) > METADATA_LIMIT
            && forall files, p :: Load(f, Some(ManifestOf(f, rs)), files, p) == Err(())
  {
    var e := LongEntry();
    var items := [Item("a", e)];
    var rs := Reports(LongReport(), LongReport(), LongReport());
    assert items[..0] == [];
    assert |e.url| == 31 + |LongWheel()| == 31 + LONG + 19;
    assert ReportText(items) == 256 + 128 + 1 + 1 + 64 + |e.url|;
    LongItemOk(f);
    UnionHolds(f, rs, Runtime);
    assert Key(items[0]) in ManifestOf(f, rs).packages && ManifestOf(f, rs).packages[Key(items[0])] == e;
    assert EntryText(Key(items[0]), e) > METADATA_LIMIT;
  }

  lemma LongItemOk(f: Facts)
    requires f.compatible(LongWheel()) && f.approved(LongEntry().url)
    ensures ItemOk(f, Item("a", LongEntry()))
  {
    assert IsName("a");
    assert IsHash(LongEntry().sha);
  }
}
