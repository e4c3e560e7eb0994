/**
 The generated code-owner file: printed from the tracked tree and its owners, and read back to
 check it or to refresh it.  Reading undoes printing, so checking accepts exactly what writing
 left, and refreshing keeps the owners however the tree changes.
 */
module CodeOwners {
  import opened Prelude
  import opened Sorting
  import opened Text

  const TARGET := ".gitlab/CODEOWNERS"
  const UNOWNED := "gap"
  const GROUP_SECTION := "[Gap maintainers]"
  const PROTECTED_SECTION := "[Protected list]"

  /** The three comment lines at the top; their wording is left out. */
  const HEADER: seq<string> := ["# Generated", "# the", "# After"]

  // ---------------------------------------------------------------- names and owners

  predicate EndOfLine(c: char) {
    c == '\n'
  }

  predicate Space(c: char) {
    c == ' '
  }

  predicate Slash(c: char) {
    c == '/'
  }

  predicate Word(c: char) {
    'a' <= c <= 'z' || 'A' <= c <= 'Z' || '0' <= c <= '9' || c == '_'
  }

  predicate NameChar(c: char) {
    Word(c) || c == '.' || c == '-'
  }

  /** NAME: a top-level entry that can stand in the file as a plain path. */
  predicate IsEntryName(s: string) {
    s != "" && s[0] != '-' && forall i :: 0 <= i < |s| ==> NameChar(s[i])
  }

  /** USER without its `@`, and each part of a group path. */
  predicate IsHandle(s: string) {
    s != "" && Word(s[0]) && forall i :: 0 <= i < |s| ==> NameChar(s[i])
  }

  predicate IsApprover(s: string) {
    s != "" && s[0] == '@' && IsHandle(s[1..])
  }

  predicate IsGroup(s: string) {
    s != "" && s[0] == '@' && forall part :: part in Split(Slash, s[1..]) ==> IsHandle(part)
  }

  datatype Owners = Owners(group: string, approvers: seq<string>)

  /** `validate_owners`. */
  predicate ValidOwners(o: Owners) {
    && IsGroup(o.group) && o.approvers != []
    && (forall i :: 0 <= i < |o.approvers| ==> IsApprover(o.approvers[i]))
    && (forall i :: 0 <= i < |o.approvers| ==> Lower(o.approvers[i]) != Lower(o.group))
    && (forall i, j :: 0 <= i < j < |o.approvers| ==> Lower(o.approvers[i]) != Lower(o.approvers[j]))
  }

  // ---------------------------------------------------------------- the tree

  /** The first part of a tracked path, and whether the path goes on below it. */
  function Top(path: string): (string, bool) {
    (Split(Slash, path)[0], |Split(Slash, path)| > 1)
  }

  function EntryOf(path: string): string {
    if Top(path).1 then Top(path).0 + "/" else Top(path).0
  }

  predicate TreeNamed(tracked: set<string>) {
    forall path :: path in tracked ==> IsEntryName(Top(path).0)
  }

  function Entries(tracked: set<string>): set<string> {
    {".gitlab/"} + set path | path in tracked && Top(path).0 != UNOWNED :: EntryOf(path)
  }

  // ---------------------------------------------------------------- printing

  /** A character that neither ends a line nor separates owners. */
  predicate Breaks(c: char) {
    c == ' ' || c == '\n'
  }

  predicate IsPath(s: string) {
    Without(Breaks, s)
  }

  function Line(path: string, owners: seq<string>): string {
    "/" + path + " " + Join(' ', owners)
  }

  function LinesOf(paths: seq<string>, owners: seq<string>): (lines: seq<string>)
    ensures |lines| == |paths| && forall i :: 0 <= i < |paths| ==> lines[i] == Line(paths[i], owners)
  {
    seq(|paths|, i requires 0 <= i < |paths| => Line(paths[i], owners))
  }

  function FileLines(entries: seq<string>, locked: seq<string>, o: Owners): seq<string> {
    HEADER + ["", GROUP_SECTION] + LinesOf(entries, [o.group]) + ["", PROTECTED_SECTION] + LinesOf(locked, o.approvers)
  }

  /** `render` for the top-level entries and the protected list it is given. */
  function Render(entries: seq<string>, locked: seq<string>, o: Owners): string {
    Join('\n', FileLines(entries, locked, o) + [""])
  }

  // ---------------------------------------------------------------- reading back

  function IndexOf(lines: seq<string>, line: string): (index: nat)
    ensures index <= |lines| && line !in lines[..index]
    ensures index < |lines| ==> lines[index] == line
  {
    if lines == [] || lines[0] == line then 0
    else
      var rest := IndexOf(lines[1..], line);
      assert lines[..rest + 1] == [lines[0]] + lines[1..][..rest];
      rest + 1
  }

  /** The owners a line names. */
  function Fields(line: string): seq<string> {
    Split(Space, line)[1..]
  }

  /** The one owner list that every line names. */
  function Common(lines: seq<string>): Option<seq<string>> {
    if lines == [] || exists line :: line in lines && Fields(line) != Fields(lines[0]) then None
    else Some(Fields(lines[0]))
  }

  /** `lines[from:to]`, with a negative `to` counting from the end. */
  function Slice(lines: seq<string>, from: nat, to: int): seq<string> {
    var end := if to < 0 then to + |lines| else to;
    if from <= end <= |lines| then lines[from..end] else []
  }

  /** The owners two sections name, when each names its own consistently. */
  function OwnersNamed(top: seq<string>, bottom: seq<string>): Result<Owners, ()> {
    var groups, named := Common(top), Common(bottom);
    if groups.None? || named.None? || |groups.value| != 1 then Err(())
    else if !ValidOwners(Owners(groups.value[0], named.value)) then Err(())
    else Ok(Owners(groups.value[0], named.value))
  }

  function WithoutLastEmpty(lines: seq<string>): seq<string> {
    if lines != [] && lines[|lines| - 1] == "" then lines[..|lines| - 1] else lines
  }

  /** `owners_of`. */
  function OwnersOf(text: string): Result<Owners, ()> {
    var lines := Split(EndOfLine, text);
    var start, middle := IndexOf(lines, GROUP_SECTION), IndexOf(lines, PROTECTED_SECTION);
    if start == |lines| || middle == |lines| then Err(())
    else OwnersNamed(Slice(lines, start + 1, middle - 1), WithoutLastEmpty(lines[middle + 1..]))
  }

  lemma {:induction false} SplitCovers(p: char -> bool, text: string, c: char)
    requires c in text && !p(c)
    ensures exists piece :: piece in Split(p, text) && c in piece
  {
    var rest := Split(p, text[1..]);
    if c == text[0] {
      assert c in [text[0]] + rest[0] && [text[0]] + rest[0] in Split(p, text);
    } else {
      assert text == [text[0]] + text[1..];
      SplitCovers(p, text[1..], c);
      var piece :| piece in rest && c in piece;
      if !p(text[0]) && piece == rest[0] {
        assert [text[0]] + rest[0] in Split(p, text);
      } else if p(text[0]) {
        assert piece in Split(p, text);
      } else {
        assert piece in rest[1..];
      }
    }
  }

  /** No owner's handle can be mistaken for two, or for the end of a line. */
  lemma OwnersAreWords(o: Owners)
    requires ValidOwners(o)
    ensures IsPath(o.group) && forall a :: a in o.approvers ==> IsPath(a)
  {
    forall c | c in o.group
      ensures !Breaks(c)
    {
      if c in o.group[1..] && c != '/' {
        SplitCovers(Slash, o.group[1..], c);
        var part :| part in Split(Slash, o.group[1..]) && c in part;
        assert IsHandle(part);
      } else {
        assert o.group == [o.group[0]] + o.group[1..];
      }
    }
    forall i, c | 0 <= i < |o.approvers| && c in o.approvers[i]
      ensures !Breaks(c)
    {
      var a := o.approvers[i];
      assert a == [a[0]] + a[1..] && IsHandle(a[1..]);
    }
  }

  /** A line names exactly the owners printed on it. */
  lemma FieldsOfLine(path: string, owners: seq<string>)
    requires IsPath(path) && owners != [] && forall a :: a in owners ==> IsPath(a)
    ensures Fields(Line(path, owners)) == owners
  {
    SplitFirst(Space, "/" + path, ' ', Join(' ', owners));
    SplitJoin(Space, ' ', owners);
  }

  /** Entries and locked paths as the tree and the fixed list supply them. */
  predicate Printable(entries: seq<string>, locked: seq<string>) {
    && entries != [] && locked != []
    && (forall i :: 0 <= i < |entries| ==> IsPath(entries[i]))
    && (forall i :: 0 <= i < |locked| ==> IsPath(locked[i]))
  }

  lemma CommonOfLines(paths: seq<string>, owners: seq<string>)
    requires paths != [] && owners != []
    requires (forall i :: 0 <= i < |paths| ==> IsPath(paths[i])) && forall a :: a in owners ==> IsPath(a)
    ensures Common(LinesOf(paths, owners)) == Some(owners)
  {
    var lines := LinesOf(paths, owners);
    forall i | 0 <= i < |lines|
      ensures Fields(lines[i]) == owners
    {
      FieldsOfLine(paths[i], owners);
    }
  }

  lemma LineIsPlain(path: string, owners: seq<string>)
    requires IsPath(path) && owners != [] && forall a :: a in owners ==> IsPath(a)
    ensures Without(EndOfLine, Line(path, owners))
  {
    JoinIsPlain(owners);
  }

  lemma {:induction false} JoinIsPlain(owners: seq<string>)
    requires forall i :: 0 <= i < |owners| ==> IsPath(owners[i])
    ensures forall c :: c in Join(' ', owners) ==> c != '\n'
  {
    if |owners| > 1 {
      JoinIsPlain(owners[1..]);
    }
  }

  lemma FileSplits(entries: seq<string>, locked: seq<string>, o: Owners)
    requires Printable(entries, locked) && ValidOwners(o)
    ensures Split(EndOfLine, Render(entries, locked, o)) == FileLines(entries, locked, o) + [""]
  {
    OwnersAreWords(o);
    var top := LinesOf(entries, [o.group]);
    var bottom := LinesOf(locked, o.approvers);
    forall i | 0 <= i < |entries|
      ensures Without(EndOfLine, top[i])
    {
      LineIsPlain(entries[i], [o.group]);
    }
    forall i | 0 <= i < |locked|
      ensures Without(EndOfLine, bottom[i])
    {
      LineIsPlain(locked[i], o.approvers);
    }
    SplitJoin(EndOfLine, '\n', FileLines(entries, locked, o) + [""]);
  }

  lemma {:induction false} IndexFound(lines: seq<string>, line: string, index: nat)
    requires index < |lines| && lines[index] == line && forall i :: 0 <= i < index ==> lines[i] != line
    ensures IndexOf(lines, line) == index
  {
  }

  lemma Sections(entries: seq<string>, locked: seq<string>, o: Owners)
    ensures var lines := FileLines(entries, locked, o) + [""];
            && IndexOf(lines, GROUP_SECTION) == 4 && IndexOf(lines, PROTECTED_SECTION) == 6 + |entries|
            && lines[5..5 + |entries|] == LinesOf(entries, [o.group])
            && lines[7 + |entries|..] == LinesOf(locked, o.approvers) + [""]
  {
    var lines := FileLines(entries, locked, o) + [""];
    var top := LinesOf(entries, [o.group]);
    assert lines[3] == "" && lines[4] == GROUP_SECTION;
    assert lines[5 + |entries|] == "" && lines[6 + |entries|] == PROTECTED_SECTION;
    forall i | 0 <= i < 6 + |entries|
      ensures lines[i] != PROTECTED_SECTION
    {
      if 5 <= i < 5 + |entries| {
        assert lines[i] == top[i - 5] && top[i - 5][0] == '/';
      } else if i < 3 {
        assert lines[i] == HEADER[i] && HEADER[i][0] == '#';
      } else if i == 4 {
        assert lines[i][1] == 'G';
      }
    }
    forall i | 0 <= i < 4
      ensures lines[i] != GROUP_SECTION
    {
      if i < 3 {
        assert lines[i] == HEADER[i] && HEADER[i][0] == '#';
      }
    }
    IndexFound(lines, GROUP_SECTION, 4);
    IndexFound(lines, PROTECTED_SECTION, 6 + |entries|);
  }

  lemma PrintedOwners(entries: seq<string>, locked: seq<string>, o: Owners)
    requires Printable(entries, locked) && ValidOwners(o)
    ensures OwnersNamed(LinesOf(entries, [o.group]), LinesOf(locked, o.approvers)) == Ok(o)
  {
    OwnersAreWords(o);
    CommonOfLines(entries, [o.group]);
    CommonOfLines(locked, o.approvers);
  }

  /** Where `owners_of` cuts a file whose sections stand where the generator puts them. */
  lemma ReadSections(text: string, lines: seq<string>, top: seq<string>, bottom: seq<string>)
    requires Split(EndOfLine, text) == lines
    requires IndexOf(lines, GROUP_SECTION) == 4 && IndexOf(lines, PROTECTED_SECTION) == 6 + |top|
    requires 7 + |top| <= |lines| && lines[5..5 + |top|] == top && lines[7 + |top|..] == bottom + [""]
    ensures OwnersOf(text) == OwnersNamed(top, bottom)
  {
    assert (bottom + [""])[..|bottom|] == bottom;
  }

  /** Reading what was printed gives back the group and the approvers, in their order. */
  lemma OwnersOfRender(entries: seq<string>, locked: seq<string>, o: Owners)
    requires Printable(entries, locked) && ValidOwners(o)
    ensures OwnersOf(Render(entries, locked, o)) == Ok(o)
  {
    FileSplits(entries, locked, o);
    Sections(entries, locked, o);
    ReadSections(Render(entries, locked, o), FileLines(entries, locked, o) + [""],
                 LinesOf(entries, [o.group]), LinesOf(locked, o.approvers));
    PrintedOwners(entries, locked, o);
  }

  /** Two generated files with the same text list the same entries for the same owners. */
  lemma RenderIsInjective(entries: seq<string>, others: seq<string>, locked: seq<string>, o: Owners, p: Owners)
    requires Printable(entries, locked) && Printable(others, locked) && ValidOwners(o) && ValidOwners(p)
    requires Render(entries, locked, o) == Render(others, locked, p)
    ensures entries == others && o == p
  {
    OwnersOfRender(entries, locked, o);
    OwnersOfRender(others, locked, p);
    FileSplits(entries, locked, o);
    FileSplits(others, locked, p);
    Sections(entries, locked, o);
    Sections(others, locked, p);
    assert |entries| == |others| && LinesOf(entries, [o.group]) == LinesOf(others, [o.group]);
    forall i | 0 <= i < |entries|
      ensures entries[i] == others[i]
    {
      LineDetermines(entries[i], others[i], o.group);
    }
  }

  lemma LineDetermines(path: string, other: string, group: string)
    requires Line(path, [group]) == Line(other, [group])
    ensures path == other
  {
    var line := Line(path, [group]);
    assert |line| == |path| + 2 + |group| == |other| + 2 + |group|;
    assert line[1..1 + |path|] == path && line[1..1 + |other|] == other;
  }

  // ---------------------------------------------------------------- the tree and its file

  lemma EntriesArePaths(tracked: set<string>, entry: string)
    requires TreeNamed(tracked) && entry in Entries(tracked)
    ensures IsPath(entry)
  {
  }

  /** The generated file of a tree. */
  ghost function Generated(tracked: set<string>, locked: seq<string>, o: Owners): string {
    Render(SortedOf(Entries(tracked)), locked, o)
  }

  /** The protected list: not empty, and no path on it holds a space or a line break. */
  predicate IsLockedList(locked: seq<string>) {
    locked != [] && forall i :: 0 <= i < |locked| ==> IsPath(locked[i])
  }

  lemma TreeIsPrintable(tracked: set<string>, locked: seq<string>, entries: seq<string>)
    requires TreeNamed(tracked) && IsLockedList(locked) && Enumerates(entries, Entries(tracked))
    ensures Printable(entries, locked) && entries == SortedOf(Entries(tracked))
  {
    assert ".gitlab/" in entries;
    forall i | 0 <= i < |entries|
      ensures IsPath(entries[i])
    {
      EntriesArePaths(tracked, entries[i]);
    }
    EnumerationUnique(entries, SortedOf(Entries(tracked)), Entries(tracked));
  }

  /** The generated file names its owners, whatever the tree. */
  lemma GeneratedNamesOwners(tracked: set<string>, locked: seq<string>, o: Owners)
    requires TreeNamed(tracked) && IsLockedList(locked) && ValidOwners(o)
    ensures OwnersOf(Generated(tracked, locked, o)) == Ok(o)
  {
    TreeIsPrintable(tracked, locked, SortedOf(Entries(tracked)));
    OwnersOfRender(SortedOf(Entries(tracked)), locked, o);
  }

  /** Committing the generated file itself changes nothing in it. */
  lemma TargetAddsNothing(tracked: set<string>, locked: seq<string>, o: Owners)
    ensures Entries(tracked + {TARGET}) == Entries(tracked)
    ensures Generated(tracked + {TARGET}, locked, o) == Generated(tracked, locked, o)
  {
    TargetEntry();
    EntriesStep(tracked, TARGET);
    assert Entries(tracked + {TARGET}) == Entries(tracked);
  }

  lemma TargetEntry()
    ensures EntryOf(TARGET) == ".gitlab/"
  {
    assert TARGET == ".gitlab" + ['/'] + "CODEOWNERS";
    SplitFirst(Slash, ".gitlab", '/', "CODEOWNERS");
  }

  /**
   A tracked path outside the unowned directory whose top-level entry was not there before is
   in no file generated for the old tree, for any owners: the old file no longer passes.
   */
  lemma NewTopLevelChangesTheFile(tracked: set<string>, path: string, locked: seq<string>, o: Owners, p: Owners)
    requires TreeNamed(tracked + {path}) && IsLockedList(locked) && ValidOwners(o) && ValidOwners(p)
    requires Top(path).0 != UNOWNED && EntryOf(path) !in Entries(tracked)
    ensures Generated(tracked + {path}, locked, o) != Generated(tracked, locked, p)
  {
    var after, before := SortedOf(Entries(tracked + {path})), SortedOf(Entries(tracked));
    assert TreeNamed(tracked);
    TreeIsPrintable(tracked + {path}, locked, after);
    TreeIsPrintable(tracked, locked, before);
    assert EntryOf(path) in after && EntryOf(path) !in before;
    if Render(after, locked, o) == Render(before, locked, p) {
      RenderIsInjective(after, before, locked, o, p);
    }
  }

  datatype Target = Missing | Symlink | NotText | File(text: string)

  /** A checkout: what `git ls-files` lists, the code-owner file, and whether another one shadows it. */
  class Checkout {
    var listed: seq<string>
    var target: Target
    var shadowed: bool
    const locked: seq<string>

    constructor (listed: seq<string>, target: Target, shadowed: bool, locked: seq<string>)
      ensures this.listed == listed && this.target == target && this.shadowed == shadowed && this.locked == locked
    {
      this.listed, this.target, this.shadowed, this.locked := listed, target, shadowed, locked;
    }

    function Tracked(): set<string>
      reads this
    {
      set path | path in listed && path != ""
    }

    /** `group_owned`. */
    method GroupOwned() returns (r: Result<seq<string>, ()>)
      ensures r.Ok? <==> TreeNamed(Tracked())
      ensures r.Ok? ==> Enumerates(r.value, Entries(Tracked()))
    {
      var entries := {".gitlab/"};
      ghost var seen: set<string> := {};
      for i := 0 to |listed|
        invariant seen == set path | path in listed[..i] && path != ""
        invariant TreeNamed(seen) && entries == Entries(seen)
      {
        var path := listed[i];
        assert listed[..i + 1] == listed[..i] + [path];
        if path != "" {
          if !IsEntryName(Top(path).0) {
            assert path in Tracked();
            return Err(());
          }
          if Top(path).0 != UNOWNED {
            entries := entries + {EntryOf(path)};
          }
          EntriesStep(seen, path);
          seen := seen + {path};
        }
      }
      assert listed[..|listed|] == listed;
      var sorted := SortedList(entries);
      r := Ok(sorted);
    }

    /** `write`: refused, or the file is the one generated for these owners. */
    method Write(o: Owners) returns (ok: bool)
      requires IsLockedList(locked)
      modifies this`target
      ensures ok <==> ValidOwners(o) && TreeNamed(Tracked()) && !old(target).Symlink?
      ensures target == if ok then File(Generated(Tracked(), locked, o)) else old(target)
    {
      if !ValidOwners(o) {
        return false;
      }
      var entries := GroupOwned();
      if entries.Err? || target.Symlink? {
        return false;
      }
      TreeIsPrintable(Tracked(), locked, entries.value);
      target := File(Render(entries.value, locked, o));
      ok := true;
    }

    /** `refresh`: the owners the file names stay its owners, and a second refresh changes nothing. */
    method Refresh() returns (ok: bool)
      requires IsLockedList(locked)
      modifies this`target
      ensures ok <==> old(target).File? && OwnersOf(old(target).text).Ok? && TreeNamed(Tracked())
      ensures !ok ==> target == old(target)
      ensures ok ==> target.File? && OwnersOf(target.text) == OwnersOf(old(target).text)
      ensures ok ==> target.text == Generated(Tracked(), locked, OwnersOf(target.text).value)
    {
      if !target.File? {
        return false;
      }
      var owners := OwnersOf(target.text);
      if owners.Err? {
        return false;
      }
      ok := Write(owners.value);
      if ok {
        GeneratedNamesOwners(Tracked(), locked, owners.value);
      }
    }

    /** `check`: passes just when nothing shadows the file and it is generated for some owners. */
    method Check() returns (ok: bool)
      requires IsLockedList(locked)
      ensures ok <==> !shadowed && TreeNamed(Tracked())
                      && exists o :: ValidOwners(o) && target == File(Generated(Tracked(), locked, o))
    {
      if shadowed || !target.File? {
        return false;
      }
      var owners := OwnersOf(target.text);
      var entries := GroupOwned();
      if TreeNamed(Tracked()) {
        TreeIsPrintable(Tracked(), locked, entries.value);
        forall o | ValidOwners(o) && target == File(Generated(Tracked(), locked, o))
          ensures owners == Ok(o)
        {
          GeneratedNamesOwners(Tracked(), locked, o);
        }
      }
      if owners.Err? || entries.Err? {
        return false;
      }
      ok := Render(entries.value, locked, owners.value) == target.text;
    }
  }

  lemma EntriesStep(seen: set<string>, path: string)
    ensures Entries(seen + {path}) == Entries(seen) + if Top(path).0 != UNOWNED then {EntryOf(path)} else {}
  {
  }
}
